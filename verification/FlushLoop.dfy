/**
 The flush loop of each replica: an independent cursor over the shared stream, and
 a broadcast of every payload read. The loop gives way to other work at every
 await, so it is cut into moves there; pushes, clients that come and go and the
 moves of other replicas happen in between.
 */
module FlushLoop {
  import opened Wrappers
  import opened AlarmPayload
  import opened AlarmQueue

  /** `joined` is how many broadcasts the replica had made when the client connected. */
  datatype Client = Client(id: nat, joined: nat, received: seq<nat>)

  /** Where the loop stands: at its top, inside an XREAD, or sending a batch that ends with entry `next`. */
  datatype Phase = Idle | Reading(end: nat) | Sending(pending: seq<nat>, next: nat)

  /**
   `history` holds the ids broadcast so far. `origin` is where the first batch began and `lost` what the server
   trimmed before it could be read; the loop does not use these two.
   */
  datatype Replica = Replica(cursor: Cursor, phase: Phase, clients: seq<Client>, history: seq<nat>,
                             origin: Option<nat>, lost: set<nat>)

  const BOOTED := Replica(Tail, Idle, [], [], None, {})

  datatype Move =
    | Connect(client: nat)
    | Disconnect(client: nat)
    | BeginRead
    | EndRead(xreadFails: bool, stateFails: bool)
    | SendNext(failing: set<nat>)
    | Commit

  function Max(x: nat, y: nat): nat { if x < y then y else x }

  function Between(lo: nat, hi: nat): (ids: set<nat>)
    ensures forall i :: i in ids <==> lo <= i < hi
  {
    if hi <= lo then {} else Between(lo, hi - 1) + {hi - 1}
  }

  /** Every client gets the entry, except those the send fails for: they are dropped. */
  function Deliver(clients: seq<Client>, entry: nat, failing: set<nat>): seq<Client> {
    if clients == [] then []
    else
      var rest := Deliver(clients[..|clients| - 1], entry, failing);
      var c := clients[|clients| - 1];
      if c.id in failing then rest else rest + [c.(received := c.received + [entry])]
  }

  function Without(clients: seq<Client>, id: nat): seq<Client> {
    if clients == [] then []
    else if clients[0].id == id then clients[1..]
    else [clients[0]] + Without(clients[1..], id)
  }

  function Fetch(r: Replica, b: Broker, end: nat, xreadFails: bool, stateFails: bool): Replica
    requires b.trimmed <= |b.log|
  {
    var from := From(r.cursor, end);
    var first := Max(from, b.trimmed);
    if xreadFails || |b.log| <= first then r.(phase := Idle)
    else
      var ids := Decoded(b.log, first, |b.log|, {});
      if ids != [] && stateFails then r.(phase := Idle)
      else r.(phase := Sending(ids, |b.log| - 1),
              origin := if r.origin.None? then Some(from) else r.origin,
              lost := r.lost + Between(from, first))
  }

  function Go(r: Replica, b: Broker, move: Move): Replica
    requires b.trimmed <= |b.log|
  {
    match move
    case Connect(id) =>
      if exists c <- r.clients :: c.id == id then r
      else r.(clients := r.clients + [Client(id, |r.history|, [])])
    case Disconnect(id) => r.(clients := Without(r.clients, id))
    case BeginRead =>
      if r.phase.Idle? && r.clients != [] then r.(phase := Reading(|b.log|)) else r
    case EndRead(xreadFails, stateFails) =>
      if r.phase.Reading? then Fetch(r, b, r.phase.end, xreadFails, stateFails) else r
    case SendNext(failing) =>
      if r.phase.Sending? && r.phase.pending != [] then
        var id := r.phase.pending[0];
        r.(phase := Sending(r.phase.pending[1..], r.phase.next), history := r.history + [id],
           clients := Deliver(r.clients, id, failing))
      else r
    case Commit =>
      if r.phase.Sending? && r.phase.pending == [] then r.(cursor := After(r.phase.next), phase := Idle) else r
  }

  // ---------------------------------------------------------------------------
  // One replica
  // ---------------------------------------------------------------------------

  ghost predicate Trimmed(b: Broker) {
    b.trimmed == 0 || b.trimmed + MAX_QUEUE_LEN <= |b.log|
  }

  /** One past the last entry that was fetched. */
  function Reached(r: Replica): nat {
    if r.phase.Sending? then r.phase.next + 1 else match r.cursor case Tail => 0 case After(id) => id + 1
  }

  predicate Started(r: Replica) {
    r.phase.Sending? || r.cursor.After?
  }

  /** What the replica has still to send of the batch it holds. */
  function Pending(r: Replica): seq<nat> {
    if r.phase.Sending? then r.phase.pending else []
  }

  /** Broadcasts and what is still to be sent are exactly the decodable entries from the origin on, in order. */
  ghost predicate Faithful(r: Replica, b: Broker) {
    && Trimmed(b)
    && Reached(r) <= |b.log|
    && (r.phase.Reading? ==> r.phase.end <= |b.log|)
    && (!Started(r) ==> r.origin.None? && r.history == [] && r.lost == {})
    && (Started(r) ==>
          && r.origin.Some? && r.origin.value <= Reached(r)
          && (r.cursor.After? ==> r.cursor.id + 1 <= Reached(r))
          && (forall i <- r.lost :: r.origin.value <= i < Reached(r) && i < b.trimmed)
          && r.history + Pending(r) == Decoded(b.log, r.origin.value, Reached(r), r.lost))
  }

  /** Every connected client has received every broadcast since it joined. */
  ghost predicate ClientsServed(r: Replica) {
    forall c <- r.clients :: c.joined <= |r.history| && c.received == r.history[c.joined..]
  }

  lemma FaithfulLater(r: Replica, b: Broker, b': Broker)
    requires Faithful(r, b) && Trimmed(b') && b.log <= b'.log && b.trimmed <= b'.trimmed
    ensures Faithful(r, b')
  {
    if Started(r) {
      DecodedFrame(b.log, b'.log, r.origin.value, Reached(r), r.lost, r.lost);
    }
  }

  /** Leaving out a stretch of lost entries joins what lies before it to what lies behind it. */
  lemma DecodedSkip(log: seq<Entry>, lo: nat, from: nat, first: nat, lost: set<nat>)
    requires lo <= from <= first <= |log| && forall i <- lost :: i < from
    ensures Decoded(log, lo, |log|, lost + Between(from, first)) ==
            Decoded(log, lo, from, lost) + Decoded(log, first, |log|, {})
  {
    var lost' := lost + Between(from, first);
    DecodedSplit(log, lo, from, |log|, lost');
    DecodedSplit(log, from, first, |log|, lost');
    DecodedFrame(log, log, lo, from, lost, lost');
    DecodedFrame(log, log, first, |log|, {}, lost');
    DecodedAllLost(log, from, first, lost');
  }

  lemma FetchIsFaithful(r: Replica, b: Broker, end: nat, xreadFails: bool, stateFails: bool)
    requires Faithful(r, b) && r.phase == Reading(end)
    ensures Faithful(Fetch(r, b, end, xreadFails, stateFails), b)
  {
    var r' := Fetch(r, b, end, xreadFails, stateFails);
    if r'.phase.Sending? {
      var from := From(r.cursor, end);
      var first := Max(from, b.trimmed);
      DecodedSkip(b.log, r'.origin.value, from, first, r.lost);
      assert Reached(r') == |b.log|;
      assert r.history == Decoded(b.log, r'.origin.value, from, r.lost) by {
        assert r.history + [] == r.history;
      }
    }
  }

  lemma {:induction false} DeliverServes(clients: seq<Client>, entry: nat, failing: set<nat>, history: seq<nat>)
    requires forall c <- clients :: c.joined <= |history| && c.received == history[c.joined..]
    ensures forall c <- Deliver(clients, entry, failing) ::
              c.joined <= |history| && c.received == (history + [entry])[c.joined..]
  {
    if clients != [] {
      var init, last := clients[..|clients| - 1], clients[|clients| - 1];
      assert last in clients && forall c <- init :: c in clients;
      DeliverServes(init, entry, failing, history);
      assert last.received + [entry] == (history + [entry])[last.joined..];
    }
  }

  lemma WithoutKeeps(clients: seq<Client>, id: nat)
    ensures forall c <- Without(clients, id) :: c in clients
  {
  }

  lemma GoIsFaithful(r: Replica, b: Broker, move: Move)
    requires Faithful(r, b) && ClientsServed(r)
    ensures Faithful(Go(r, b, move), b) && ClientsServed(Go(r, b, move))
  {
    match move
    case Connect(_) =>
    case Disconnect(id) => WithoutKeeps(r.clients, id);
    case BeginRead =>
    case EndRead(xreadFails, stateFails) =>
      if r.phase.Reading? { FetchIsFaithful(r, b, r.phase.end, xreadFails, stateFails); }
    case SendNext(failing) =>
      if r.phase.Sending? && r.phase.pending != [] {
        var id := r.phase.pending[0];
        DeliverServes(r.clients, id, failing, r.history);
        assert r.history + r.phase.pending == r.history + [id] + r.phase.pending[1..];
      }
    case Commit =>
      assert r.history + [] == r.history;
  }

  // ---------------------------------------------------------------------------
  // All replicas, in every interleaving
  // ---------------------------------------------------------------------------

  datatype System = System(broker: Broker, replicas: seq<Replica>)

  datatype Step =
    | PushStep(payload: Payload, at: int, ttl: int, xadd: XAdd)
    | GarbageStep(at: int, trimTo: nat)
    | MoveStep(replica: nat, move: Move)

  function Boot(n: nat): System {
    System(NO_ALARMS, seq(n, _ => BOOTED))
  }

  function Next(s: System, step: Step): System
    requires s.broker.trimmed <= |s.broker.log|
  {
    match step
    case PushStep(p, at, ttl, x) => s.(broker := Push(s.broker, p, at, ttl, x).0)
    case GarbageStep(at, trimTo) => s.(broker := Add(s.broker, Entry(None, at), trimTo))
    case MoveStep(k, move) =>
      if k < |s.replicas| then s.(replicas := s.replicas[k := Go(s.replicas[k], s.broker, move)]) else s
  }

  function Run(n: nat, steps: seq<Step>): (s: System)
    ensures s.broker.trimmed <= |s.broker.log| && |s.replicas| == n
  {
    if steps == [] then Boot(n) else Next(Run(n, steps[..|steps| - 1]), steps[|steps| - 1])
  }

  lemma {:induction false} RunIsFaithful(n: nat, steps: seq<Step>, k: nat)
    requires k < n
    ensures var s := Run(n, steps); Faithful(s.replicas[k], s.broker) && ClientsServed(s.replicas[k])
  {
    if steps != [] {
      var s, step := Run(n, steps[..|steps| - 1]), steps[|steps| - 1];
      RunIsFaithful(n, steps[..|steps| - 1], k);
      if step.MoveStep? {
        GoIsFaithful(s.replicas[k], s.broker, step.move);
      } else {
        FaithfulLater(s.replicas[k], s.broker, Next(s, step).broker);
      }
    }
  }

  /**
   At the top of the loop a replica's broadcasts are exactly the decodable entries from its origin up to its
   cursor, in order and each once, but for those the server trimmed first. Each client that is still connected
   has received exactly the broadcasts since it joined.
   */
  lemma BroadcastsAreTheStream(n: nat, steps: seq<Step>, k: nat)
    requires k < n
    ensures var s := Run(n, steps); var r := s.replicas[k];
            && Ascending(r.history)
            && (r.cursor.Tail? && !r.phase.Sending? ==> r.history == [])
            && (r.cursor.After? && !r.phase.Sending? ==>
                  && r.cursor.id < |s.broker.log| && r.origin.Some?
                  && r.history == Decoded(s.broker.log, r.origin.value, r.cursor.id + 1, r.lost))
            && (forall i <- r.lost :: i < s.broker.trimmed)
            && (forall c <- r.clients :: c.joined <= |r.history| && c.received == r.history[c.joined..])
  {
    RunIsFaithful(n, steps, k);
    var s := Run(n, steps);
    var r := s.replicas[k];
    if Started(r) {
      var all := Decoded(s.broker.log, r.origin.value, Reached(r), r.lost);
      assert r.history == all[..|r.history|] by { assert all == r.history + Pending(r); }
      DecodedAscends(s.broker.log, r.origin.value, Reached(r), r.lost);
      assert r.history + [] == r.history;
    }
  }

  // ---------------------------------------------------------------------------
  // Where a replica begins, and what it forgets before
  // ---------------------------------------------------------------------------

  /** Replica `k` ends a read at `$` that found something, and keeps the batch. */
  predicate KeepsFirstBatch(s: System, step: Step, k: nat)
    requires s.broker.trimmed <= |s.broker.log| && k < |s.replicas|
  {
    var r := s.replicas[k];
    && step.MoveStep? && step.replica == k && step.move.EndRead? && !step.move.xreadFails
    && r.phase.Reading? && r.cursor.Tail?
    && var first := Max(r.phase.end, s.broker.trimmed);
       first < |s.broker.log| && (Decoded(s.broker.log, first, |s.broker.log|, {}) == [] || !step.move.stateFails)
  }

  /** Where the stream ended when the first read at `$` whose batch was kept was issued. */
  function FirstKeptRead(n: nat, steps: seq<Step>, k: nat): Option<nat>
    requires k < n
  {
    if steps == [] then None
    else
      var init, last := steps[..|steps| - 1], steps[|steps| - 1];
      var s := Run(n, init);
      var before := FirstKeptRead(n, init, k);
      if before.None? && KeepsFirstBatch(s, last, k) then Some(s.replicas[k].phase.end) else before
  }

  lemma StepSetsOrigin(s: System, step: Step, k: nat)
    requires k < |s.replicas| && Faithful(s.replicas[k], s.broker)
    ensures var r := s.replicas[k];
            Next(s, step).replicas[k].origin ==
            if r.origin.None? && KeepsFirstBatch(s, step, k) then Some(r.phase.end) else r.origin
  {
  }

  /** A replica's broadcasts begin exactly where its first kept read at `$` was issued. */
  lemma {:induction false} OriginIsFirstKeptRead(n: nat, steps: seq<Step>, k: nat)
    requires k < n
    ensures Run(n, steps).replicas[k].origin == FirstKeptRead(n, steps, k)
  {
    if steps != [] {
      OriginIsFirstKeptRead(n, steps[..|steps| - 1], k);
      RunIsFaithful(n, steps[..|steps| - 1], k);
      StepSetsOrigin(Run(n, steps[..|steps| - 1]), steps[|steps| - 1], k);
    }
  }

  /** Whatever the replica reads from now on was added after the first `n` entries. */
  ghost predicate Beyond(r: Replica, n: nat) {
    && (r.origin.Some? ==> n <= r.origin.value)
    && (r.origin.None? && r.phase.Reading? ==> n <= r.phase.end)
  }

  lemma FetchStaysBeyond(r: Replica, b: Broker, end: nat, xreadFails: bool, stateFails: bool, n: nat)
    requires Faithful(r, b) && Beyond(r, n) && r.phase == Reading(end)
    ensures Beyond(Fetch(r, b, end, xreadFails, stateFails), n)
  {
  }

  lemma GoStaysBeyond(r: Replica, b: Broker, move: Move, n: nat)
    requires Faithful(r, b) && Beyond(r, n) && n <= |b.log|
    ensures Beyond(Go(r, b, move), n)
  {
    if move.EndRead? && r.phase.Reading? {
      FetchStaysBeyond(r, b, r.phase.end, move.xreadFails, move.stateFails, n);
    }
  }

  lemma StepStaysBeyond(s: System, step: Step, k: nat, size: nat)
    requires k < |s.replicas| && Faithful(s.replicas[k], s.broker)
    requires Beyond(s.replicas[k], size) && size <= |s.broker.log|
    ensures Beyond(Next(s, step).replicas[k], size) && size <= |Next(s, step).broker.log|
  {
    if step.MoveStep? && step.replica == k {
      GoStaysBeyond(s.replicas[k], s.broker, step.move, size);
    }
  }

  lemma {:induction false} StaysBeyond(n: nat, steps: seq<Step>, more: seq<Step>, k: nat, size: nat)
    requires k < n && Beyond(Run(n, steps).replicas[k], size) && size <= |Run(n, steps).broker.log|
    ensures Beyond(Run(n, steps + more).replicas[k], size) && size <= |Run(n, steps + more).broker.log|
  {
    if more == [] {
      assert steps + more == steps;
    } else {
      var init, last := more[..|more| - 1], more[|more| - 1];
      StaysBeyond(n, steps, init, k, size);
      RunIsFaithful(n, steps + init, k);
      assert steps + more == steps + init + [last];
      var s := RunOne(n, steps + init, last);
      StepStaysBeyond(Run(n, steps + init), last, k, size);
    }
  }

  /** What the stream holds when a replica is idle at `$` it never broadcasts. */
  lemma TailForgets(n: nat, steps: seq<Step>, more: seq<Step>, k: nat, i: nat)
    requires k < n && i < |Run(n, steps).broker.log|
    requires var r := Run(n, steps).replicas[k]; r.cursor.Tail? && r.phase.Idle?
    ensures i !in Run(n, steps + more).replicas[k].history
  {
    RunIsFaithful(n, steps, k);
    StaysBeyond(n, steps, more, k, |Run(n, steps).broker.log|);
    RunIsFaithful(n, steps + more, k);
    var s := Run(n, steps + more);
    var r := s.replicas[k];
    if Started(r) {
      DecodedMembers(s.broker.log, r.origin.value, Reached(r), r.lost, i);
      assert i in r.history ==> i in r.history + Pending(r);
    }
  }

  /**
   An entry whose batch is dropped because the state read fails is in the next batch, whatever the stream has become
   by then, iff the cursor is concrete and the server has not trimmed the entry.
   */
  lemma FailedStateReadKeepsEntryIff(r: Replica, b: Broker, end: nat, i: nat, b': Broker, later: nat)
    requires b.trimmed <= |b.log| && r.phase == Reading(end)
    requires i in Decoded(b.log, Max(From(r.cursor, end), b.trimmed), |b.log|, {})
    requires b.log <= b'.log && b'.trimmed <= |b'.log| && |b.log| <= later <= |b'.log|
    ensures var failed := Fetch(r, b, end, false, true);
            && failed.phase.Idle?
            && (i in Pending(Fetch(failed.(phase := Reading(later)), b', later, false, false)) <==>
                r.cursor.After? && b'.trimmed <= i)
  {
    DecodedMembers(b.log, Max(From(r.cursor, end), b.trimmed), |b.log|, {}, i);
    DecodedMembers(b'.log, Max(From(r.cursor, later), b'.trimmed), |b'.log|, {}, i);
  }

  /** So the first alarm after the boot is gone for good when the state read behind it fails. */
  lemma FirstAlarmMayBeLost(p: Payload, ttl: int, more: seq<Step>)
    ensures var steps := [MoveStep(0, Connect(1)), MoveStep(0, BeginRead), Step.PushStep(p, 0, ttl, Adds(0)),
                          MoveStep(0, EndRead(false, true))];
            && Run(1, steps).broker.log == [Entry(Some(p), 0)]
            && 0 !in Run(1, steps + more).replicas[0].history
  {
    var connect, begin := MoveStep(0, Connect(1)), MoveStep(0, BeginRead);
    var push, end := Step.PushStep(p, 0, ttl, Adds(0)), MoveStep(0, EndRead(false, true));
    var s1 := RunOne(1, [], connect);
    assert [] + [connect] == [connect] && [connect] + [begin] == [connect, begin];
    var s2 := RunOne(1, [connect], begin);
    assert [connect, begin] + [push] == [connect, begin, push];
    var s3 := RunOne(1, [connect, begin], push);
    assert s3.broker.log == [] + [Entry(Some(p), 0)];
    assert [connect, begin, push] + [end] == [connect, begin, push, end];
    var s4 := RunOne(1, [connect, begin, push], end);
    assert s3.replicas[0].phase == Reading(0) && s3.replicas[0].cursor == Tail;
    assert Decoded(s3.broker.log, 0, 1, {}) == [0];
    TailForgets(1, [connect, begin, push, end], more, 0, 0);
  }

  lemma RunOne(n: nat, steps: seq<Step>, step: Step) returns (s: System)
    ensures s == Run(n, steps + [step]) == Next(Run(n, steps), step)
  {
    assert (steps + [step])[..|steps|] == steps;
    s := Run(n, steps + [step]);
  }

  /** No read of replica `k` found more unread entries than the server is sure to keep. */
  ghost predicate KeepsUp(n: nat, steps: seq<Step>, k: nat)
    requires k < n
  {
    steps != [] ==>
      var s, step := Run(n, steps[..|steps| - 1]), steps[|steps| - 1];
      var r := s.replicas[k];
      && KeepsUp(n, steps[..|steps| - 1], k)
      && (step.MoveStep? && step.replica == k && step.move.EndRead? && r.phase.Reading? ==>
            |s.broker.log| - From(r.cursor, r.phase.end) <= MAX_QUEUE_LEN)
  }

  lemma {:induction false} NothingIsLostWhenKeepingUp(n: nat, steps: seq<Step>, k: nat)
    requires k < n && KeepsUp(n, steps, k)
    ensures Run(n, steps).replicas[k].lost == {}
  {
    if steps != [] {
      NothingIsLostWhenKeepingUp(n, steps[..|steps| - 1], k);
      RunIsFaithful(n, steps[..|steps| - 1], k);
    }
  }

  /** Two replicas that keep up and start at the same entry: one history is a prefix of the other. */
  lemma HistoriesAgree(n: nat, steps: seq<Step>, j: nat, k: nat)
    requires j < n && k < n && KeepsUp(n, steps, j) && KeepsUp(n, steps, k)
    ensures var s := Run(n, steps); var q, r := s.replicas[j], s.replicas[k];
            q.origin == r.origin ==> q.history <= r.history || r.history <= q.history
  {
    var s := Run(n, steps);
    var q, r := s.replicas[j], s.replicas[k];
    NothingIsLostWhenKeepingUp(n, steps, j);
    NothingIsLostWhenKeepingUp(n, steps, k);
    RunIsFaithful(n, steps, j);
    RunIsFaithful(n, steps, k);
    if Started(q) && Started(r) && q.origin == r.origin {
      if Reached(q) <= Reached(r) {
        PrefixesAgree(s.broker.log, q, r);
      } else {
        PrefixesAgree(s.broker.log, r, q);
      }
    }
  }

  lemma PrefixesAgree(log: seq<Entry>, q: Replica, r: Replica)
    requires q.origin.Some? && q.origin == r.origin && q.origin.value <= Reached(q) <= Reached(r) <= |log|
    requires q.history + Pending(q) == Decoded(log, q.origin.value, Reached(q), {})
    requires r.history + Pending(r) == Decoded(log, r.origin.value, Reached(r), {})
    ensures q.history <= r.history || r.history <= q.history
  {
    DecodedSplit(log, q.origin.value, Reached(q), Reached(r), {});
    var all := Decoded(log, r.origin.value, Reached(r), {});
    assert all[..|r.history|] == r.history;
    assert all[..|q.history|] == q.history;
  }

  // ---------------------------------------------------------------------------
  // The loop body as it runs
  // ---------------------------------------------------------------------------

  ghost predicate DistinctClients(clients: seq<Client>) {
    forall j, k | 0 <= j < k < |clients| :: clients[j].id != clients[k].id
  }

  /** Sends the whole pending batch; `failing` says for which clients the send of an entry fails. */
  function SendBatch(r: Replica, b: Broker, failing: nat -> set<nat>): Replica
    requires b.trimmed <= |b.log| && r.phase.Sending?
    decreases |Pending(r)|
  {
    if r.phase.pending == [] then r else SendBatch(Go(r, b, SendNext(failing(r.phase.pending[0]))), b, failing)
  }

  /** An XREAD that was issued when the stream ended at `end`, the broadcast of its batch, and the new cursor. */
  function Iteration(r: Replica, b: Broker, end: nat, xreadFails: bool, stateFails: bool, failing: nat -> set<nat>)
    : Replica
    requires b.trimmed <= |b.log| && r.phase.Idle?
  {
    var fetched := Go(r.(phase := Reading(end)), b, EndRead(xreadFails, stateFails));
    if fetched.phase.Sending? then Go(SendBatch(fetched, b, failing), b, Commit) else fetched
  }

  /** The outcome of one send: who failed, and the client afterwards. */
  function SendTo(c: Client, entry: nat, failing: set<nat>): (Option<nat>, Client) {
    if c.id in failing then (Some(c.id), c) else (None, c.(received := c.received + [entry]))
  }

  function DeliverAll(clients: seq<Client>, ids: seq<nat>, failing: nat -> set<nat>): seq<Client>
    decreases ids
  {
    if ids == [] then clients else DeliverAll(Deliver(clients, ids[0], failing(ids[0])), ids[1..], failing)
  }

  lemma {:induction false} SendBatchDelivers(r: Replica, b: Broker, failing: nat -> set<nat>)
    requires b.trimmed <= |b.log| && r.phase.Sending?
    ensures SendBatch(r, b, failing) ==
            r.(phase := Sending([], r.phase.next), history := r.history + r.phase.pending,
               clients := DeliverAll(r.clients, r.phase.pending, failing))
    decreases |Pending(r)|
  {
    if r.phase.pending == [] {
      assert r.history + [] == r.history;
    } else {
      var r' := Go(r, b, SendNext(failing(r.phase.pending[0])));
      SendBatchDelivers(r', b, failing);
      assert r.history + r.phase.pending == r'.history + r'.phase.pending;
    }
  }

  lemma IterationShape(r: Replica, b: Broker, end: nat, xreadFails: bool, stateFails: bool, failing: nat -> set<nat>)
    requires b.trimmed <= |b.log| && r.phase.Idle?
    ensures var fetched := Fetch(r.(phase := Reading(end)), b, end, xreadFails, stateFails);
            Iteration(r, b, end, xreadFails, stateFails, failing) ==
            if fetched.phase.Sending? then
              Replica(After(fetched.phase.next), Idle, DeliverAll(r.clients, fetched.phase.pending, failing),
                      r.history + fetched.phase.pending, fetched.origin, fetched.lost)
            else r
  {
    var fetched := Fetch(r.(phase := Reading(end)), b, end, xreadFails, stateFails);
    if fetched.phase.Sending? {
      SendBatchDelivers(fetched, b, failing);
    }
  }

  // ---------------------------------------------------------------------------
  // The same round as a sequence of moves
  // ---------------------------------------------------------------------------

  function GoAll(r: Replica, b: Broker, moves: seq<Move>): Replica
    requires b.trimmed <= |b.log|
    decreases |moves|
  {
    if moves == [] then r else GoAll(Go(r, b, moves[0]), b, moves[1..])
  }

  function SendMoves(ids: seq<nat>, failing: nat -> set<nat>): seq<Move> {
    if ids == [] then [] else [SendNext(failing(ids[0]))] + SendMoves(ids[1..], failing)
  }

  /** The end of a read that was begun, the sends of its batch, and the new cursor. */
  function Rest(r: Replica, b: Broker, xreadFails: bool, stateFails: bool, failing: nat -> set<nat>): seq<Move>
    requires b.trimmed <= |b.log|
  {
    var read := EndRead(xreadFails, stateFails);
    [read] + SendMoves(Pending(Go(r, b, read)), failing) + [Commit]
  }

  /** A read that is begun when the stream is `issued` and ends when it is `b`, and what follows. */
  function Round(r: Replica, issued: Broker, b: Broker, xreadFails: bool, stateFails: bool, failing: nat -> set<nat>)
    : Replica
    requires issued.trimmed <= |issued.log| && b.trimmed <= |b.log|
  {
    var begun := Go(r, issued, BeginRead);
    GoAll(begun, b, Rest(begun, b, xreadFails, stateFails, failing))
  }

  lemma {:induction false} GoAllAppend(r: Replica, b: Broker, moves: seq<Move>, more: seq<Move>)
    requires b.trimmed <= |b.log|
    ensures GoAll(r, b, moves + more) == GoAll(GoAll(r, b, moves), b, more)
    decreases |moves|
  {
    if moves == [] {
      assert moves + more == more;
    } else {
      GoAllAppend(Go(r, b, moves[0]), b, moves[1..], more);
      assert (moves + more)[1..] == moves[1..] + more;
    }
  }

  lemma {:induction false} SendMovesSendBatch(r: Replica, b: Broker, failing: nat -> set<nat>)
    requires b.trimmed <= |b.log| && r.phase.Sending?
    ensures GoAll(r, b, SendMoves(r.phase.pending, failing)) == SendBatch(r, b, failing)
    decreases |Pending(r)|
  {
    if r.phase.pending != [] {
      var move := SendNext(failing(r.phase.pending[0]));
      SendMovesSendBatch(Go(r, b, move), b, failing);
      assert SendMoves(r.phase.pending, failing) == [move] + SendMoves(r.phase.pending[1..], failing);
    }
  }

  /** A round is what the loop's moves make of it; without clients it is nothing. */
  lemma RoundIsIteration(r: Replica, issued: Broker, b: Broker, xreadFails: bool, stateFails: bool,
                         failing: nat -> set<nat>)
    requires issued.trimmed <= |issued.log| && b.trimmed <= |b.log| && r.phase.Idle?
    ensures Round(r, issued, b, xreadFails, stateFails, failing) ==
            if r.clients == [] then r else Iteration(r, b, |issued.log|, xreadFails, stateFails, failing)
  {
    var begun := Go(r, issued, BeginRead);
    var read := EndRead(xreadFails, stateFails);
    var fetched := Go(begun, b, read);
    var sends := SendMoves(Pending(fetched), failing);
    GoAllAppend(begun, b, [read] + sends, [Commit]);
    GoAllAppend(begun, b, [read], sends);
    OneMove(begun, b, read);
    OneMove(GoAll(fetched, b, sends), b, Commit);
    if fetched.phase.Sending? { SendMovesSendBatch(fetched, b, failing); }
  }

  lemma OneMove(r: Replica, b: Broker, move: Move)
    requires b.trimmed <= |b.log|
    ensures GoAll(r, b, [move]) == Go(r, b, move)
  {
    assert [move][1..] == [];
  }

  lemma DeliverOne(clients: seq<Client>, k: nat, entry: nat, failing: set<nat>)
    requires k < |clients|
    ensures Deliver(clients[..k + 1], entry, failing) ==
            Deliver(clients[..k], entry, failing) +
            (if clients[k].id in failing then [] else [clients[k].(received := clients[k].received + [entry])])
  {
    assert clients[..k + 1][..k] == clients[..k];
  }

  lemma {:induction false} DeliverIds(clients: seq<Client>, entry: nat, failing: set<nat>)
    ensures forall c <- Deliver(clients, entry, failing) :: c.id !in failing && exists d <- clients :: d.id == c.id
  {
    if clients != [] {
      var init := clients[..|clients| - 1];
      DeliverIds(init, entry, failing);
      assert forall d <- init :: d in clients;
      assert clients[|clients| - 1] in clients;
    }
  }

  lemma {:induction false} DeliverDistinct(clients: seq<Client>, entry: nat, failing: set<nat>)
    requires DistinctClients(clients)
    ensures DistinctClients(Deliver(clients, entry, failing))
  {
    if clients != [] {
      var init, last := clients[..|clients| - 1], clients[|clients| - 1];
      DeliverDistinct(init, entry, failing);
      DeliverIds(init, entry, failing);
      assert forall d <- init :: d.id != last.id;
    }
  }

  lemma {:induction false} WithoutMiddle(before: seq<Client>, c: Client, after: seq<Client>)
    requires forall d <- before :: d.id != c.id
    ensures Without(before + [c] + after, c.id) == before + after
  {
    var all := before + [c] + after;
    if before == [] {
      assert all[1..] == after;
    } else {
      WithoutMiddle(before[1..], c, after);
      assert all[1..] == before[1..] + [c] + after;
    }
  }

  /** After the sends, pruning client `k` leaves the delivered prefix one longer. */
  lemma PruneStep(before: seq<Client>, sent: seq<Client>, k: nat, entry: nat, failing: set<nat>, result: Option<nat>)
    requires DistinctClients(before) && k < |before| == |sent| && (result, sent[k]) == SendTo(before[k], entry, failing)
    ensures var list, list' := Pruned(before, sent, k, entry, failing), Pruned(before, sent, k + 1, entry, failing);
            list' == if result.Some? then Without(list, result.value) else list
  {
    var done, after := Deliver(before[..k], entry, failing), sent[k + 1..];
    DeliverOne(before, k, entry, failing);
    assert sent[k..] == [sent[k]] + after;
    if result.Some? {
      DeliverIds(before[..k], entry, failing);
      WithoutMiddle(done, sent[k], after);
      assert done + sent[k..] == done + [sent[k]] + after;
    } else {
      assert done + sent[k..] == (done + [sent[k]]) + after;
    }
  }

  /** The client list when the results of the first `k` sends have been looked at. */
  ghost function Pruned(before: seq<Client>, sent: seq<Client>, k: nat, entry: nat, failing: set<nat>): seq<Client>
    requires k <= |before| == |sent|
  {
    Deliver(before[..k], entry, failing) + sent[k..]
  }

  lemma WithoutSkips(clients: seq<Client>, id: nat, i: nat)
    requires i < |clients| && clients[i].id != id
    ensures clients[..i] + Without(clients[i..], id) == clients[..i + 1] + Without(clients[i + 1..], id)
  {
  }

  class Broadcaster {
    var lastId: Cursor
    var sensorClients: seq<Client>
    var history: seq<nat>
    ghost var origin: Option<nat>
    ghost var lost: set<nat>

    ghost function Model(): Replica
      reads this
    {
      Replica(lastId, Idle, sensorClients, history, origin, lost)
    }

    constructor ()
      ensures Model() == BOOTED
    {
      lastId, sensorClients, history, origin, lost := Tail, [], [], None, {};
    }

    method Remove(id: nat)
      modifies this`sensorClients
      ensures sensorClients == Without(old(sensorClients), id)
    {
      var i := 0;
      while i < |sensorClients|
        invariant 0 <= i <= |sensorClients| && sensorClients == old(sensorClients)
        invariant Without(sensorClients, id) == sensorClients[..i] + Without(sensorClients[i..], id)
      {
        assert sensorClients[i..][1..] == sensorClients[i + 1..];
        if sensorClients[i].id == id {
          sensorClients := sensorClients[..i] + sensorClients[i + 1..];
          return;
        }
        WithoutSkips(sensorClients, id, i);
        i := i + 1;
      }
      assert sensorClients[..i] == sensorClients && sensorClients[i..] == [];
    }

    /** The parallel sends: `results` names the clients whose send failed. */
    method SendEach(entry: nat, failing: set<nat>) returns (results: seq<Option<nat>>)
      modifies this`sensorClients
      ensures |results| == |sensorClients| == |old(sensorClients)|
      ensures forall k | 0 <= k < |results| ::
                (results[k], sensorClients[k]) == SendTo(old(sensorClients)[k], entry, failing)
    {
      results := [];
      for i := 0 to |sensorClients|
        invariant |sensorClients| == |old(sensorClients)| && |results| == i
        invariant forall k | 0 <= k < i ::
                    (results[k], sensorClients[k]) == SendTo(old(sensorClients)[k], entry, failing)
        invariant forall k | i <= k < |sensorClients| :: sensorClients[k] == old(sensorClients)[k]
      {
        var c := sensorClients[i];
        if c.id in failing {
          results := results + [Some(c.id)];
        } else {
          sensorClients := sensorClients[i := c.(received := c.received + [entry])];
          results := results + [None];
        }
      }
    }

    /** Removes the clients whose send failed, one after the other. */
    method Prune(results: seq<Option<nat>>, ghost before: seq<Client>, entry: nat, failing: set<nat>)
      requires DistinctClients(before) && |results| == |before| == |sensorClients|
      requires forall k | 0 <= k < |results| :: (results[k], sensorClients[k]) == SendTo(before[k], entry, failing)
      modifies this`sensorClients
      ensures sensorClients == Deliver(before, entry, failing)
    {
      ghost var sent := sensorClients;
      for j := 0 to |results|
        invariant sensorClients == Pruned(before, sent, j, entry, failing)
      {
        PruneStep(before, sent, j, entry, failing, results[j]);
        if results[j].Some? {
          Remove(results[j].value);
        }
      }
      assert before[..|before|] == before;
    }

    /** Sends to every client of the list, then removes those for which the send failed. */
    method SendToAll(entry: nat, failing: set<nat>)
      requires DistinctClients(sensorClients)
      modifies this`sensorClients, this`history
      ensures sensorClients == Deliver(old(sensorClients), entry, failing) && DistinctClients(sensorClients)
      ensures history == old(history) + [entry]
    {
      ghost var before := sensorClients;
      history := history + [entry];
      var results := SendEach(entry, failing);
      Prune(results, before, entry, failing);
      DeliverDistinct(before, entry, failing);
    }

    method BroadcastBatch(ids: seq<nat>, failing: nat -> set<nat>)
      requires DistinctClients(sensorClients)
      modifies this`sensorClients, this`history
      ensures DistinctClients(sensorClients)
      ensures sensorClients == DeliverAll(old(sensorClients), ids, failing) && history == old(history) + ids
    {
      for i := 0 to |ids|
        invariant DistinctClients(sensorClients) && history == old(history) + ids[..i]
        invariant DeliverAll(sensorClients, ids[i..], failing) == DeliverAll(old(sensorClients), ids, failing)
      {
        SendToAll(ids[i], failing(ids[i]));
        assert ids[i..][1..] == ids[i + 1..];
      }
    }

    /** One round of the loop, with the entries that arrived while its XREAD was blocked. */
    method FlushOnce(queue: AlarmStream, end: nat, xreadFails: bool, stateFails: bool, failing: nat -> set<nat>)
      requires queue.trimmed <= |queue.log| && DistinctClients(sensorClients)
      modifies this
      ensures DistinctClients(sensorClients)
      ensures Model() == if old(sensorClients) == [] then old(Model())
                         else Iteration(old(Model()), queue.Model(), end, xreadFails, stateFails, failing)
      ensures forall issued: Broker | issued.trimmed <= |issued.log| == end ::
                Model() == Round(old(Model()), issued, queue.Model(), xreadFails, stateFails, failing)
    {
      forall issued: Broker | issued.trimmed <= |issued.log| == end
        ensures Round(Model(), issued, queue.Model(), xreadFails, stateFails, failing) ==
                if sensorClients == [] then Model()
                else Iteration(Model(), queue.Model(), end, xreadFails, stateFails, failing)
      {
        RoundIsIteration(Model(), issued, queue.Model(), xreadFails, stateFails, failing);
      }
      if sensorClients == [] {
        return;
      }
      ghost var fetched := Fetch(Model().(phase := Reading(end)), queue.Model(), end, xreadFails, stateFails);
      IterationShape(Model(), queue.Model(), end, xreadFails, stateFails, failing);
      var newLastId, ids := queue.ReadAlarmsBlocking(lastId, end, xreadFails);
      if ids != [] {
        if stateFails {
          return;
        }
        BroadcastBatch(ids, failing);
      }
      origin, lost := fetched.origin, fetched.lost;
      lastId := newLastId;
    }
  }
}
