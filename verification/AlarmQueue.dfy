/**
 The alarm stream: idempotent push and cursor reads. `log` is everything ever
 added; an entry's id is its position in it. The server keeps `log[trimmed..]`.
 A key set at time t with expiry n is present on [t, t + n).
 */
module AlarmQueue {
  import opened Wrappers
  import opened AlarmPayload
  import Clock

  const PUSH_DEDUP_TTL := 30 * Clock.SECOND
  const MAX_QUEUE_LEN := 10_000

  /** `data` is None when the stored text does not decode. */
  datatype Entry = Entry(data: Option<Payload>, at: int)

  datatype Broker = Broker(log: seq<Entry>, trimmed: nat, keys: map<string, int>)

  const NO_ALARMS := Broker([], 0, map[])

  /** The fate of one XADD: an error, or an append after which the server trims up to `trimTo` if it may. */
  datatype XAdd = Fails | Adds(trimTo: nat)

  datatype Outcome = Appended | Suppressed | Lost

  predicate Live(keys: map<string, int>, key: string, now: int) {
    key in keys && now < keys[key]
  }

  /** MAXLEN with approximate trimming drops old entries, but never leaves fewer than the maximum. */
  function TrimmedTo(trimmed: nat, length: nat, trimTo: nat): nat {
    if length <= MAX_QUEUE_LEN then trimmed
    else
      var most := length - MAX_QUEUE_LEN;
      var wanted := if trimTo < most then trimTo else most;
      if trimmed < wanted then wanted else trimmed
  }

  function Add(b: Broker, entry: Entry, trimTo: nat): Broker {
    b.(log := b.log + [entry], trimmed := TrimmedTo(b.trimmed, |b.log| + 1, trimTo))
  }

  /** An append keeps all or trims to any point that leaves at least 10000 entries; what is gone stays gone. */
  lemma TrimsIff(b: Broker, entry: Entry, trimmed: nat)
    requires b.trimmed <= |b.log|
    ensures (exists trimTo: nat :: Add(b, entry, trimTo).trimmed == trimmed) <==>
            trimmed == b.trimmed || b.trimmed <= trimmed <= |b.log| + 1 - 10_000
    ensures forall trimTo: nat :: Add(b, entry, trimTo).log == b.log + [entry] && Add(b, entry, trimTo).keys == b.keys
  {
    assert Add(b, entry, 0).trimmed == b.trimmed;
    assert b.trimmed <= trimmed <= |b.log| + 1 - MAX_QUEUE_LEN ==> Add(b, entry, trimmed).trimmed == trimmed;
  }

  /** SET NX EX first, XADD second. */
  function Push(b: Broker, p: Payload, now: int, ttl: int, x: XAdd): (Broker, Outcome) {
    var fp := Fingerprint(p);
    if fp.Some? && Live(b.keys, fp.value, now) then (b, Suppressed)
    else
      var b' := if fp.Some? then b.(keys := b.keys[fp.value := now + ttl]) else b;
      match x
      case Fails => (b', Lost)
      case Adds(trimTo) => (Add(b', Entry(Some(p), now), trimTo), Appended)
  }

  // ---------------------------------------------------------------------------
  // Deduplication over a run of pushes
  // ---------------------------------------------------------------------------

  /** The fingerprint of a stream entry, if it has one. */
  function Mark(e: Entry): Option<string> {
    if e.data.Some? then Fingerprint(e.data.value) else None
  }

  predicate Holds(keys: map<string, int>, e: Entry, ttl: int, t: int)
    requires Mark(e).Some?
  {
    Mark(e).value in keys && e.at + ttl <= keys[Mark(e).value] && e.at <= t
  }

  /** Every entry with a fingerprint keeps its key present for a whole TTL. */
  ghost predicate EntriesHoldKeys(b: Broker, ttl: int, t: int) {
    forall k | 0 <= k < |b.log| && Mark(b.log[k]).Some? :: Holds(b.keys, b.log[k], ttl, t)
  }

  /** Entries with the same fingerprint are at least one TTL apart. */
  ghost predicate Deduplicated(b: Broker, ttl: int) {
    forall j, k | 0 <= j < k < |b.log| && Mark(b.log[j]).Some? && Mark(b.log[j]) == Mark(b.log[k]) ::
      b.log[j].at + ttl <= b.log[k].at
  }

  lemma PushKeepsDeduplication(b: Broker, p: Payload, now: int, ttl: int, x: XAdd, t: int)
    requires EntriesHoldKeys(b, ttl, t) && Deduplicated(b, ttl) && t <= now
    ensures var b' := Push(b, p, now, ttl, x).0; EntriesHoldKeys(b', ttl, now) && Deduplicated(b', ttl)
  {
  }

  lemma HoldsLater(b: Broker, ttl: int, t: int, now: int)
    requires EntriesHoldKeys(b, ttl, t) && t <= now
    ensures EntriesHoldKeys(b, ttl, now)
  {
  }

  datatype PushStep = PushStep(payload: Payload, at: int, xadd: XAdd)

  function Pushes(steps: seq<PushStep>, ttl: int): Broker {
    if steps == [] then NO_ALARMS else
      var last := steps[|steps| - 1];
      Push(Pushes(steps[..|steps| - 1], ttl), last.payload, last.at, ttl, last.xadd).0
  }

  ghost predicate InTimeOrder(steps: seq<PushStep>) {
    forall j, k | 0 <= j < k < |steps| :: steps[j].at <= steps[k].at
  }

  lemma {:induction false} RunHoldsKeys(steps: seq<PushStep>, ttl: int, now: int)
    requires InTimeOrder(steps) && (steps != [] ==> steps[|steps| - 1].at <= now)
    ensures var b := Pushes(steps, ttl); EntriesHoldKeys(b, ttl, now) && Deduplicated(b, ttl)
  {
    if steps != [] {
      var init, last := steps[..|steps| - 1], steps[|steps| - 1];
      RunHoldsKeys(init, ttl, last.at);
      PushKeepsDeduplication(Pushes(init, ttl), last.payload, last.at, ttl, last.xadd, last.at);
      HoldsLater(Pushes(steps, ttl), ttl, last.at, now);
    }
  }

  /** After any run, even with failed XADDs: entries with the same fingerprint are at least one TTL apart. */
  lemma SameFingerprintEntriesAreTtlApart(steps: seq<PushStep>, ttl: int, j: nat, k: nat)
    requires InTimeOrder(steps) && j < k < |Pushes(steps, ttl).log|
    ensures var log := Pushes(steps, ttl).log;
            Mark(log[j]).Some? && Mark(log[j]) == Mark(log[k]) ==> log[j].at + ttl <= log[k].at
  {
    RunHoldsKeys(steps, ttl, if steps == [] then 0 else steps[|steps| - 1].at);
  }

  // ---------------------------------------------------------------------------
  // What suppresses a push
  // ---------------------------------------------------------------------------

  /** What became of push `k`. */
  function OutcomeOf(steps: seq<PushStep>, k: nat, ttl: int): Outcome
    requires k < |steps|
  {
    Push(Pushes(steps[..k], ttl), steps[k].payload, steps[k].at, ttl, steps[k].xadd).1
  }

  /** Push `k` had this outcome, bears this fingerprint, and was less than a TTL ago. */
  predicate RecentPush(steps: seq<PushStep>, k: nat, ttl: int, fp: string, now: int, outcome: Outcome) {
    && k < |steps| && OutcomeOf(steps, k, ttl) == outcome
    && Fingerprint(steps[k].payload) == Some(fp) && now < steps[k].at + ttl
  }

  /** An accepted push set its key, whether its XADD then succeeded or not. */
  predicate RecentlyAccepted(steps: seq<PushStep>, k: nat, ttl: int, fp: string, now: int) {
    RecentPush(steps, k, ttl, fp, now, Appended) || RecentPush(steps, k, ttl, fp, now, Lost)
  }

  lemma EarlierPush(steps: seq<PushStep>, k: nat, n: nat, ttl: int, fp: string, now: int, outcome: Outcome)
    requires k < n <= |steps|
    ensures RecentPush(steps[..n], k, ttl, fp, now, outcome) <==> RecentPush(steps, k, ttl, fp, now, outcome)
  {
    assert steps[..n][..k] == steps[..k];
  }

  lemma RecentStep(steps: seq<PushStep>, ttl: int, fp: string, now: int, outcome: Outcome)
    requires steps != []
    ensures var n := |steps| - 1;
            (exists k: nat :: RecentPush(steps, k, ttl, fp, now, outcome)) <==>
            || (exists k: nat :: RecentPush(steps[..n], k, ttl, fp, now, outcome))
            || RecentPush(steps, n, ttl, fp, now, outcome)
  {
    var n := |steps| - 1;
    forall k: nat | k < n
      ensures RecentPush(steps[..n], k, ttl, fp, now, outcome) <==> RecentPush(steps, k, ttl, fp, now, outcome)
    {
      EarlierPush(steps, k, n, ttl, fp, now, outcome);
    }
    if k: nat :| RecentPush(steps[..n], k, ttl, fp, now, outcome) {
      assert RecentPush(steps, k, ttl, fp, now, outcome);
    }
  }

  /** A key is present iff a push that bears it was accepted less than a TTL ago. */
  lemma {:induction false} LiveIffAccepted(steps: seq<PushStep>, ttl: int, fp: string, now: int)
    requires InTimeOrder(steps) && (steps != [] ==> steps[|steps| - 1].at <= now)
    ensures Live(Pushes(steps, ttl).keys, fp, now) <==> exists k: nat :: RecentlyAccepted(steps, k, ttl, fp, now)
  {
    if steps != [] {
      var n := |steps| - 1;
      var init, last := steps[..n], steps[n];
      LiveIffAccepted(init, ttl, fp, now);
      forall k: nat | k < n
        ensures RecentlyAccepted(init, k, ttl, fp, now) <==> RecentlyAccepted(steps, k, ttl, fp, now)
      {
        EarlierPush(steps, k, n, ttl, fp, now, Appended);
        EarlierPush(steps, k, n, ttl, fp, now, Lost);
      }
      if Fingerprint(last.payload) == Some(fp) && OutcomeOf(steps, n, ttl) != Suppressed {
        assert now < last.at + ttl ==> RecentlyAccepted(steps, n, ttl, fp, now);
      } else if Live(Pushes(init, ttl).keys, fp, now) {
        var k: nat :| RecentlyAccepted(init, k, ttl, fp, now);
        assert RecentlyAccepted(steps, k, ttl, fp, now);
      }
    }
  }

  /** In every run, failed XADDs included: a push is suppressed iff its fingerprint was accepted less than a TTL ago. */
  lemma SuppressedIffAccepted(steps: seq<PushStep>, ttl: int, p: Payload, now: int, x: XAdd)
    requires InTimeOrder(steps) && (steps != [] ==> steps[|steps| - 1].at <= now)
    ensures Push(Pushes(steps, ttl), p, now, ttl, x).1 == Suppressed <==>
            Fingerprint(p).Some? && exists k: nat :: RecentlyAccepted(steps, k, ttl, Fingerprint(p).value, now)
  {
    if Fingerprint(p).Some? { LiveIffAccepted(steps, ttl, Fingerprint(p).value, now); }
  }

  /** Push `k` was accepted less than a TTL ago and announces `i`. */
  predicate Announces(steps: seq<PushStep>, k: nat, ttl: int, i: Identity, now: int) {
    && k < |steps| && OutcomeOf(steps, k, ttl) != Suppressed
    && Identify(steps[k].payload) == Some(i) && now < steps[k].at + ttl
  }

  /**
   In every run, failed XADDs included: a push is suppressed iff a push that announces the very same thing was
   accepted less than a TTL ago. So a resolution is never suppressed by its alarm, nor an escalated alarm by a
   milder one of the same event.
   */
  lemma SuppressedOnlyByItself(steps: seq<PushStep>, ttl: int, p: Payload, now: int, x: XAdd)
    requires InTimeOrder(steps) && (steps != [] ==> steps[|steps| - 1].at <= now)
    requires forall s <- steps :: Identify(s.payload).Some? ==> Plain(Identify(s.payload).value)
    requires Identify(p).Some? && Plain(Identify(p).value)
    ensures Push(Pushes(steps, ttl), p, now, ttl, x).1 == Suppressed <==>
            exists k: nat :: Announces(steps, k, ttl, Identify(p).value, now)
  {
    SuppressedIffAccepted(steps, ttl, p, now, x);
    FingerprintOfIdentity(p);
    forall k: nat | k < |steps|
      ensures RecentlyAccepted(steps, k, ttl, Fingerprint(p).value, now) <==>
              Announces(steps, k, ttl, Identify(p).value, now)
    {
      FingerprintOfIdentity(steps[k].payload);
      assert steps[k] in steps;
      if Identify(steps[k].payload).Some? {
        SameFingerprintIffSameIdentity(steps[k].payload, p);
      }
    }
  }

  // ---------------------------------------------------------------------------
  // What the stream tells of it
  // ---------------------------------------------------------------------------

  /** An entry of the last TTL bears the fingerprint. */
  ghost predicate Listed(log: seq<Entry>, ttl: int, fp: string, now: int) {
    exists e <- log :: Mark(e) == Some(fp) && now < e.at + ttl
  }

  lemma ListedGrows(log: seq<Entry>, entry: Entry, ttl: int, fp: string, now: int)
    ensures Listed(log + [entry], ttl, fp, now) <==>
            Listed(log, ttl, fp, now) || (Mark(entry) == Some(fp) && now < entry.at + ttl)
  {
    assert forall e :: e in log + [entry] <==> e in log || e == entry;
  }

  lemma ListedStep(steps: seq<PushStep>, ttl: int, fp: string, now: int)
    requires steps != []
    ensures var n := |steps| - 1;
            Listed(Pushes(steps, ttl).log, ttl, fp, now) <==>
            Listed(Pushes(steps[..n], ttl).log, ttl, fp, now) || RecentPush(steps, n, ttl, fp, now, Appended)
  {
    var n := |steps| - 1;
    if OutcomeOf(steps, n, ttl) == Appended {
      ListedGrows(Pushes(steps[..n], ttl).log, Entry(Some(steps[n].payload), steps[n].at), ttl, fp, now);
    }
  }

  /** The entries of the stream are the pushes that were appended. */
  lemma {:induction false} ListedIffAppended(steps: seq<PushStep>, ttl: int, fp: string, now: int)
    ensures Listed(Pushes(steps, ttl).log, ttl, fp, now) <==>
            exists k: nat :: RecentPush(steps, k, ttl, fp, now, Appended)
  {
    if steps != [] {
      ListedStep(steps, ttl, fp, now);
      ListedIffAppended(steps[..|steps| - 1], ttl, fp, now);
      RecentStep(steps, ttl, fp, now, Appended);
    }
  }

  /** No two accepted pushes of one fingerprint lie within a TTL. */
  lemma AcceptedOnce(steps: seq<PushStep>, j: nat, k: nat, ttl: int, fp: string, now: int)
    requires InTimeOrder(steps) && (steps != [] ==> steps[|steps| - 1].at <= now)
    requires RecentlyAccepted(steps, j, ttl, fp, now) && RecentlyAccepted(steps, k, ttl, fp, now)
    ensures j == k
  {
    var lo, hi := if j < k then j else k, if j < k then k else j;
    if lo < hi {
      LiveIffAccepted(steps[..hi], ttl, fp, steps[hi].at);
      EarlierPush(steps, lo, hi, ttl, fp, steps[hi].at, Appended);
      EarlierPush(steps, lo, hi, ttl, fp, steps[hi].at, Lost);
      assert RecentlyAccepted(steps[..hi], lo, ttl, fp, steps[hi].at);
    }
  }

  /**
   In every run: a push is suppressed although no entry of the last TTL announces it iff the push that was
   accepted in its place less than a TTL ago was lost to a failed XADD.
   */
  lemma SilentlySuppressedIffLost(steps: seq<PushStep>, ttl: int, p: Payload, now: int, x: XAdd)
    requires InTimeOrder(steps) && (steps != [] ==> steps[|steps| - 1].at <= now)
    requires Fingerprint(p).Some?
    ensures var b, fp := Pushes(steps, ttl), Fingerprint(p).value;
            Push(b, p, now, ttl, x).1 == Suppressed && !Listed(b.log, ttl, fp, now) <==>
            exists k: nat :: RecentPush(steps, k, ttl, fp, now, Lost)
  {
    var fp := Fingerprint(p).value;
    SuppressedIffAccepted(steps, ttl, p, now, x);
    ListedIffAppended(steps, ttl, fp, now);
    forall j: nat, k: nat | RecentPush(steps, j, ttl, fp, now, Appended) && RecentPush(steps, k, ttl, fp, now, Lost)
      ensures false
    {
      AcceptedOnce(steps, j, k, ttl, fp, now);
    }
    if k: nat :| RecentPush(steps, k, ttl, fp, now, Lost) {
      assert RecentlyAccepted(steps, k, ttl, fp, now);
    }
  }

  /** Without failed XADDs a push is appended iff no entry of the last TTL announces the same thing. */
  lemma AppendedIffNotAnnounced(steps: seq<PushStep>, ttl: int, p: Payload, now: int, trimTo: nat)
    requires InTimeOrder(steps) && (steps != [] ==> steps[|steps| - 1].at <= now)
    requires forall s <- steps :: s.xadd.Adds?
    ensures Push(Pushes(steps, ttl), p, now, ttl, Adds(trimTo)).1 == Appended <==>
            !(Fingerprint(p).Some? && Listed(Pushes(steps, ttl).log, ttl, Fingerprint(p).value, now))
  {
    if Fingerprint(p).Some? {
      var fp := Fingerprint(p).value;
      SuppressedIffAccepted(steps, ttl, p, now, Adds(trimTo));
      ListedIffAppended(steps, ttl, fp, now);
      forall k: nat ensures !RecentPush(steps, k, ttl, fp, now, Lost) {
        if k < |steps| { assert steps[k] in steps; }
      }
      if k: nat :| RecentPush(steps, k, ttl, fp, now, Appended) {
        assert RecentlyAccepted(steps, k, ttl, fp, now);
      }
    }
  }

  /** When the XADD fails after the SET, a retry is appended iff it has no fingerprint or the TTL is over. */
  lemma RetryAfterFailedXAdd(b: Broker, p: Payload, now: int, later: int, ttl: int, trimTo: nat)
    requires Fingerprint(p).Some? ==> !Live(b.keys, Fingerprint(p).value, now)
    requires now <= later && ttl > 0
    ensures var (b', outcome) := Push(b, p, now, ttl, Fails);
            && outcome == Lost && b'.log == b.log
            && (Push(b', p, later, ttl, Adds(trimTo)).1 == Appended <==> Fingerprint(p).None? || now + ttl <= later)
            && (Push(b', p, later, ttl, Adds(trimTo)).1 == Suppressed <==> Fingerprint(p).Some? && later < now + ttl)
  {
  }

  // ---------------------------------------------------------------------------
  // Reading
  // ---------------------------------------------------------------------------

  /** `$` (only what is added while the read blocks) or the id of the last entry read. */
  datatype Cursor = Tail | After(id: nat)

  /** First id an XREAD issued with this cursor may return; `end` was the stream's end when it was issued. */
  function From(cursor: Cursor, end: nat): nat {
    match cursor case Tail => end case After(id) => id + 1
  }

  /** Ids in [lo, hi) whose entries decode, leaving out `lost`. */
  function Decoded(log: seq<Entry>, lo: nat, hi: nat, lost: set<nat>): seq<nat>
    requires hi <= |log|
  {
    if hi <= lo then []
    else
      var rest := Decoded(log, lo, hi - 1, lost);
      if log[hi - 1].data.Some? && hi - 1 !in lost then rest + [hi - 1] else rest
  }

  lemma DecodedMembers(log: seq<Entry>, lo: nat, hi: nat, lost: set<nat>, i: nat)
    requires hi <= |log|
    ensures i in Decoded(log, lo, hi, lost) <==> lo <= i < hi && log[i].data.Some? && i !in lost
  {
  }

  ghost predicate Ascending(ids: seq<nat>) {
    forall j, k | 0 <= j < k < |ids| :: ids[j] < ids[k]
  }

  lemma {:induction false} DecodedAscends(log: seq<Entry>, lo: nat, hi: nat, lost: set<nat>)
    requires hi <= |log|
    ensures Ascending(Decoded(log, lo, hi, lost))
  {
    if lo < hi {
      DecodedAscends(log, lo, hi - 1, lost);
      var rest := Decoded(log, lo, hi - 1, lost);
      forall j | 0 <= j < |rest| ensures rest[j] < hi - 1 {
        DecodedMembers(log, lo, hi - 1, lost, rest[j]);
      }
    }
  }

  lemma DecodedAllLost(log: seq<Entry>, lo: nat, hi: nat, lost: set<nat>)
    requires hi <= |log| && forall i | lo <= i < hi :: i in lost
    ensures Decoded(log, lo, hi, lost) == []
  {
  }

  lemma {:induction false} DecodedSplit(log: seq<Entry>, lo: nat, mid: nat, hi: nat, lost: set<nat>)
    requires lo <= mid <= hi <= |log|
    ensures Decoded(log, lo, hi, lost) == Decoded(log, lo, mid, lost) + Decoded(log, mid, hi, lost)
    decreases hi
  {
    if mid < hi {
      DecodedSplit(log, lo, mid, hi - 1, lost);
    }
  }

  /** Entries added later, and losses outside the range, do not matter. */
  lemma {:induction false} DecodedFrame(log: seq<Entry>, log': seq<Entry>, lo: nat, hi: nat, lost: set<nat>,
                                        lost': set<nat>)
    requires hi <= |log| && log <= log'
    requires forall i | lo <= i < hi :: i in lost <==> i in lost'
    ensures Decoded(log', lo, hi, lost') == Decoded(log, lo, hi, lost)
  {
    if lo < hi {
      DecodedFrame(log, log', lo, hi - 1, lost, lost');
    }
  }

  /** The stream object: its fields are the stream and the deduplication keys. */
  class AlarmStream {
    var log: seq<Entry>
    var trimmed: nat
    var keys: map<string, int>

    ghost function Model(): Broker
      reads this
    {
      Broker(log, trimmed, keys)
    }

    method PushAlarm(payload: Payload, now: int, ttl: int, xadd: XAdd) returns (outcome: Outcome)
      modifies this
      ensures (Model(), outcome) == Push(old(Model()), payload, now, ttl, xadd)
    {
      var fp := Fingerprint(payload);
      if fp.Some? {
        if fp.value in keys && now < keys[fp.value] {
          return Suppressed;
        }
        keys := keys[fp.value := now + ttl];
      }
      if xadd.Fails? {
        return Lost;
      }
      log := log + [Entry(Some(payload), now)];
      trimmed := TrimmedTo(trimmed, |log|, xadd.trimTo);
      return Appended;
    }

    /**
     One XREAD that was issued when the stream ended at `end`. Returns the cursor after the batch and the
     ids of its decodable entries; on an error or an empty batch the cursor stays.
     */
    method ReadAlarmsBlocking(lastId: Cursor, end: nat, fails: bool) returns (newLastId: Cursor, ids: seq<nat>)
      requires trimmed <= |log|
      ensures var first := if From(lastId, end) < trimmed then trimmed else From(lastId, end);
              if fails || |log| <= first then newLastId == lastId && ids == []
              else newLastId == After(|log| - 1) && ids == Decoded(log, first, |log|, {})
    {
      if fails {
        return lastId, [];
      }
      var i := From(lastId, end);
      if i < trimmed {
        i := trimmed;
      }
      ghost var first := i;
      newLastId, ids := lastId, [];
      while i < |log|
        invariant first <= i && (first <= |log| ==> i <= |log|) && (|log| < first ==> i == first)
        invariant i <= |log| ==> ids == Decoded(log, first, i, {})
        invariant newLastId == if i == first then lastId else After(i - 1)
        invariant i == first ==> ids == []
      {
        newLastId := After(i);
        if log[i].data.Some? {
          ids := ids + [i];
        }
        i := i + 1;
      }
    }
  }
}
