/**
 From the decision to the browser: the alarm tasks feed the stream while the replicas, each at its own pace,
 read and broadcast it. A run is any interleaving of steps at the site and moves of the flush loops.
 */
module EndToEnd {
  import opened AlarmPayload
  import opened AlarmQueue
  import opened FlushLoop
  import opened Wrappers
  import opened RiskLevels
  import D = Delivery

  datatype Step = AtSite(step: D.Step) | AtReplica(replica: nat, move: Move)

  function SiteSteps(steps: seq<Step>): seq<D.Step> {
    if steps == [] then []
    else
      var rest := SiteSteps(steps[..|steps| - 1]);
      match steps[|steps| - 1] case AtSite(s) => rest + [s] case AtReplica(_, _) => rest
  }

  function SiteAfter(steps: seq<Step>, cooldown: int): (s: D.Site)
    ensures Trimmed(s.broker)
  {
    SiteKeepsStream(SiteSteps(steps), cooldown);
    D.Run(SiteSteps(steps), cooldown)
  }

  /** The replicas after a run that started with `n` of them. */
  function Replicas(n: nat, steps: seq<Step>, cooldown: int): (r: seq<Replica>)
    ensures |r| == n
  {
    if steps == [] then seq(n, _ => BOOTED)
    else
      var init, last := steps[..|steps| - 1], steps[|steps| - 1];
      var before := Replicas(n, init, cooldown);
      if last.AtReplica? && last.replica < n then
        before[last.replica := Go(before[last.replica], SiteAfter(init, cooldown).broker, last.move)]
      else before
  }

  lemma StepGrowsStream(s: D.Site, step: D.Step, cooldown: int)
    requires Trimmed(s.broker)
    ensures var b := D.Next(s, step, cooldown).broker;
            Trimmed(b) && s.broker.log <= b.log && s.broker.trimmed <= b.trimmed
  {
  }

  lemma {:induction false} SiteKeepsStream(steps: seq<D.Step>, cooldown: int)
    ensures Trimmed(D.Run(steps, cooldown).broker)
  {
    if steps != [] {
      SiteKeepsStream(steps[..|steps| - 1], cooldown);
      StepGrowsStream(D.Run(steps[..|steps| - 1], cooldown), steps[|steps| - 1], cooldown);
    }
  }

  lemma {:induction false} ReplicaIsFaithful(n: nat, steps: seq<Step>, cooldown: int, k: nat)
    requires k < n
    ensures var r := Replicas(n, steps, cooldown)[k]; Faithful(r, SiteAfter(steps, cooldown).broker) && ClientsServed(r)
  {
    if steps != [] {
      var init, last := steps[..|steps| - 1], steps[|steps| - 1];
      ReplicaIsFaithful(n, init, cooldown, k);
      var r, s := Replicas(n, init, cooldown)[k], SiteAfter(init, cooldown);
      if last.AtReplica? {
        GoIsFaithful(r, s.broker, last.move);
      } else {
        assert SiteSteps(steps)[..|SiteSteps(init)|] == SiteSteps(init);
        StepGrowsStream(s, last.step, cooldown);
        FaithfulLater(r, s.broker, SiteAfter(steps, cooldown).broker);
      }
    }
  }

  ghost predicate InStream(history: seq<nat>, log: seq<Entry>) {
    forall j | 0 <= j < |history| :: history[j] < |log|
  }

  /** The times at which the broadcast entries that announce `i` were pushed. */
  ghost function BroadcastTimes(history: seq<nat>, log: seq<Entry>, i: Identity): seq<int>
    requires InStream(history, log)
  {
    if history == [] then []
    else
      var rest := BroadcastTimes(history[..|history| - 1], log, i);
      var e := log[history[|history| - 1]];
      if e.data.Some? && Identify(e.data.value) == Some(i) then rest + [e.at] else rest
  }

  lemma BroadcastTimesGrow(history: seq<nat>, id: nat, log: seq<Entry>, i: Identity)
    requires InStream(history, log) && id < |log|
    ensures InStream(history + [id], log)
    ensures BroadcastTimes(history + [id], log, i) ==
            BroadcastTimes(history, log, i) +
            (if log[id].data.Some? && Identify(log[id].data.value) == Some(i) then [log[id].at] else [])
  {
    assert (history + [id])[..|history|] == history;
  }

  /** The entries of a stretch but for the lost ones. */
  ghost function Kept(log: seq<Entry>, lo: nat, hi: nat, lost: set<nat>): seq<Entry>
    requires lo <= hi <= |log|
  {
    if lo == hi then []
    else
      var rest := Kept(log, lo, hi - 1, lost);
      if hi - 1 in lost then rest else rest + [log[hi - 1]]
  }

  lemma {:induction false} NothingLostAllKept(log: seq<Entry>, lo: nat, hi: nat)
    requires lo <= hi <= |log|
    ensures Kept(log, lo, hi, {}) == log[lo..hi]
  {
    if lo < hi {
      NothingLostAllKept(log, lo, hi - 1);
      assert log[lo..hi] == log[lo..hi - 1] + [log[hi - 1]];
    }
  }

  /** Broadcasting what decodes in a stretch of the stream announces what its entries announce, but for the lost. */
  lemma {:induction false} DecodedAnnounces(log: seq<Entry>, lo: nat, hi: nat, lost: set<nat>, i: Identity)
    requires lo <= hi <= |log|
    ensures InStream(Decoded(log, lo, hi, lost), log)
    ensures BroadcastTimes(Decoded(log, lo, hi, lost), log, i) == D.EntryTimes(Kept(log, lo, hi, lost), i)
  {
    if lo < hi {
      var ids, kept := Decoded(log, lo, hi - 1, lost), Kept(log, lo, hi - 1, lost);
      DecodedAnnounces(log, lo, hi - 1, lost, i);
      if hi - 1 in lost {
        assert Kept(log, lo, hi, lost) == kept && Decoded(log, lo, hi, lost) == ids;
      } else {
        assert Kept(log, lo, hi, lost) == kept + [log[hi - 1]];
        D.EntryTimesGrow(kept, log[hi - 1], i);
        if log[hi - 1].data.Some? {
          assert Decoded(log, lo, hi, lost) == ids + [hi - 1];
          BroadcastTimesGrow(ids, hi - 1, log, i);
        } else {
          assert Decoded(log, lo, hi, lost) == ids;
        }
      }
    }
  }

  lemma {:induction false} EntryTimesSplit(v: seq<Entry>, w: seq<Entry>, i: Identity)
    ensures D.EntryTimes(v + w, i) == D.EntryTimes(v, i) + D.EntryTimes(w, i)
  {
    if w == [] {
      assert v + w == v;
    } else {
      EntryTimesSplit(v, w[..|w| - 1], i);
      assert (v + w)[..|v + w| - 1] == v + w[..|w| - 1];
    }
  }

  lemma EntryTimesInThree(log: seq<Entry>, lo: nat, hi: nat, i: Identity)
    requires lo <= hi <= |log|
    ensures D.EntryTimes(log, i) ==
            D.EntryTimes(log[..lo], i) + D.EntryTimes(log[lo..hi], i) + D.EntryTimes(log[hi..], i)
  {
    EntryTimesSplit(log[..lo], log[lo..hi], i);
    EntryTimesSplit(log[..hi], log[hi..], i);
    assert log[..lo] + log[lo..hi] == log[..hi] && log[..hi] + log[hi..] == log;
  }

  /**
   `times` are those before the replica's first batch, those up to its cursor and those ahead of it. What it has
   broadcast are those up to its cursor but for the entries lost to trimming.
   */
  ghost predicate AccountsFor(r: Replica, b: Broker, i: Identity, times: seq<int>)
    requires r.cursor.After?
  {
    && r.origin.Some? && r.origin.value <= r.cursor.id + 1 <= |b.log| && InStream(r.history, b.log)
    && times == D.EntryTimes(b.log[..r.origin.value], i) + D.EntryTimes(b.log[r.origin.value..r.cursor.id + 1], i)
                + D.EntryTimes(b.log[r.cursor.id + 1..], i)
    && BroadcastTimes(r.history, b.log, i) == D.EntryTimes(Kept(b.log, r.origin.value, r.cursor.id + 1, r.lost), i)
    && (forall k <- r.lost :: r.origin.value <= k <= r.cursor.id && k < b.trimmed)
    && (r.lost == {} ==>
          BroadcastTimes(r.history, b.log, i) == D.EntryTimes(b.log[r.origin.value..r.cursor.id + 1], i))
  }

  lemma HistoryIsDecoded(r: Replica, b: Broker)
    requires Faithful(r, b) && r.cursor.After? && !r.phase.Sending?
    ensures r.origin.Some? && r.origin.value <= r.cursor.id + 1 <= |b.log|
    ensures r.history == Decoded(b.log, r.origin.value, r.cursor.id + 1, r.lost)
  {
    assert r.history + [] == r.history;
  }

  lemma StretchIsAnnounced(log: seq<Entry>, lo: nat, hi: nat, lost: set<nat>, history: seq<nat>, i: Identity)
    requires lo <= hi <= |log| && history == Decoded(log, lo, hi, lost)
    ensures InStream(history, log)
    ensures BroadcastTimes(history, log, i) == D.EntryTimes(Kept(log, lo, hi, lost), i)
    ensures lost == {} ==> BroadcastTimes(history, log, i) == D.EntryTimes(log[lo..hi], i)
  {
    DecodedAnnounces(log, lo, hi, lost, i);
    if lost == {} { NothingLostAllKept(log, lo, hi); }
  }

  lemma StreamIsAccountedFor(r: Replica, b: Broker, i: Identity)
    requires Faithful(r, b) && r.cursor.After? && !r.phase.Sending?
    ensures AccountsFor(r, b, i, D.EntryTimes(b.log, i))
  {
    HistoryIsDecoded(r, b);
    var lo, hi := r.origin.value, r.cursor.id + 1;
    EntryTimesInThree(b.log, lo, hi, i);
    StretchIsAnnounced(b.log, lo, hi, r.lost, r.history, i);
  }

  lemma SiteAnnouncesOnce(steps: seq<Step>, cooldown: int, event: nat, risk: Risk)
    requires cooldown >= PUSH_DEDUP_TTL && D.Legal(SiteSteps(steps), cooldown)
    requires D.Ours(SiteAfter(steps, cooldown).store, event)
    ensures var s, fates := SiteAfter(steps, cooldown), D.Fates(SiteSteps(steps), cooldown);
            && |s.store.notices| == |fates|
            && D.EntryTimes(s.broker.log, D.AtRisk(event, risk)) ==
               D.NoticeTimes(s.store.notices, fates, event, risk, D.ARRIVED)
  {
    var all := SiteSteps(steps);
    D.RunIsGood(all, cooldown, if all == [] then 0 else all[|all| - 1].at);
    var s, fates := SiteAfter(steps, cooldown), D.Fates(all, cooldown);
    assert D.Tells(s.broker, event, risk, D.NoticeTimes(s.store.notices, fates, event, risk, D.POSTED),
                   D.NoticeTimes(s.store.notices, fates, event, risk, D.ARRIVED));
  }

  /**
   Nothing that was pushed is repeated or reordered between the decision and the browser, and nothing lost but to
   trimming, whatever else runs over the stream: the notifications of a task's event at a risk whose push was posted
   and added are, in this order, those announced before the replica's first batch, those up to its cursor, which it
   has broadcast but for entries trimmed before it could read them, and those still ahead.
   */
  lemma NotificationsReachTheBrowserOnce(n: nat, steps: seq<Step>, cooldown: int, k: nat, event: nat, risk: Risk)
    requires k < n && cooldown >= PUSH_DEDUP_TTL && D.Legal(SiteSteps(steps), cooldown)
    requires D.Ours(SiteAfter(steps, cooldown).store, event)
    requires var r := Replicas(n, steps, cooldown)[k]; r.cursor.After? && !r.phase.Sending?
    ensures var s, fates := SiteAfter(steps, cooldown), D.Fates(SiteSteps(steps), cooldown);
            && |s.store.notices| == |fates|
            && AccountsFor(Replicas(n, steps, cooldown)[k], s.broker, D.AtRisk(event, risk),
                           D.NoticeTimes(s.store.notices, fates, event, risk, D.ARRIVED))
  {
    ReplicaIsFaithful(n, steps, cooldown, k);
    StreamIsAccountedFor(Replicas(n, steps, cooldown)[k], SiteAfter(steps, cooldown).broker, D.AtRisk(event, risk));
    SiteAnnouncesOnce(steps, cooldown, event, risk);
  }
}
