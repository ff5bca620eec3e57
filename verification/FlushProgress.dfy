/**
 That the flush loop gets on: a replica with clients reads and broadcasts all there is, one without clients waits, and
 clients are connected until they leave or cannot be reached.
 */
module FlushProgress {
  import opened AlarmQueue
  import opened FlushLoop

  // ---------------------------------------------------------------------------
  // Who is connected
  // ---------------------------------------------------------------------------

  ghost predicate Connected(r: Replica, id: nat) {
    exists c <- r.clients :: c.id == id
  }

  lemma {:induction false} DeliverLeaves(clients: seq<Client>, entry: nat, failing: set<nat>, id: nat)
    ensures (exists c <- Deliver(clients, entry, failing) :: c.id == id) <==>
            id !in failing && exists c <- clients :: c.id == id
  {
    if clients != [] {
      var init, last := clients[..|clients| - 1], clients[|clients| - 1];
      DeliverLeaves(init, entry, failing, id);
      assert clients == init + [last];
      var rest := Deliver(init, entry, failing);
      var sent := last.(received := last.received + [entry]);
      assert Deliver(clients, entry, failing) == if last.id in failing then rest else rest + [sent];
      assert sent in rest + [sent] && forall c <- rest :: c in rest + [sent];
    }
  }

  lemma {:induction false} WithoutStaysDistinct(clients: seq<Client>, gone: nat)
    requires DistinctClients(clients)
    ensures DistinctClients(Without(clients, gone))
  {
    if clients != [] && clients[0].id != gone {
      var rest := Without(clients[1..], gone);
      WithoutStaysDistinct(clients[1..], gone);
      WithoutKeeps(clients[1..], gone);
      forall j | 0 <= j < |rest| ensures rest[j].id != clients[0].id {
        assert rest[j] in clients[1..];
      }
    }
  }

  lemma {:induction false} WithoutLeaves(clients: seq<Client>, gone: nat, c: Client)
    requires DistinctClients(clients)
    ensures c in Without(clients, gone) <==> c in clients && c.id != gone
  {
    if clients != [] {
      assert clients == [clients[0]] + clients[1..];
      WithoutLeaves(clients[1..], gone, c);
    }
  }

  /** A move of the loop connects, disconnects and drops exactly the clients it names. */
  lemma ClientsComeAndGo(r: Replica, b: Broker, move: Move, id: nat)
    requires b.trimmed <= |b.log| && DistinctClients(r.clients)
    ensures DistinctClients(Go(r, b, move).clients)
    ensures Connected(Go(r, b, move), id) <==>
            match move
            case Connect(c) => id == c || Connected(r, id)
            case Disconnect(c) => id != c && Connected(r, id)
            case SendNext(failing) => Connected(r, id) && !(r.phase.Sending? && r.phase.pending != [] && id in failing)
            case _ => Connected(r, id)
  {
    match move
    case Connect(c) =>
      if !Connected(r, c) {
        assert Go(r, b, move).clients == r.clients + [Client(c, |r.history|, [])];
        assert Client(c, |r.history|, []) in Go(r, b, move).clients;
        assert forall d <- r.clients :: d in Go(r, b, move).clients;
      }
    case Disconnect(gone) =>
      WithoutStaysDistinct(r.clients, gone);
      forall c: Client ensures c in Without(r.clients, gone) <==> c in r.clients && c.id != gone {
        WithoutLeaves(r.clients, gone, c);
      }
    case SendNext(failing) =>
      if r.phase.Sending? && r.phase.pending != [] {
        DeliverDistinct(r.clients, r.phase.pending[0], failing);
        DeliverLeaves(r.clients, r.phase.pending[0], failing, id);
      }
    case BeginRead =>
    case EndRead(_, _) =>
    case Commit =>
  }

  // ---------------------------------------------------------------------------
  // Without clients
  // ---------------------------------------------------------------------------

  /** Without clients an idle replica does nothing: whatever happens, it stays as it is until somebody connects. */
  lemma {:induction false} FrozenWithoutClients(n: nat, steps: seq<Step>, more: seq<Step>, k: nat)
    requires k < n
    requires var r := Run(n, steps).replicas[k]; r.phase.Idle? && r.clients == []
    requires forall s <- more :: !(s.MoveStep? && s.replica == k && s.move.Connect?)
    ensures Run(n, steps + more).replicas[k] == Run(n, steps).replicas[k]
  {
    if more == [] {
      assert steps + more == steps;
    } else {
      var init, last := more[..|more| - 1], more[|more| - 1];
      assert last in more && forall s <- init :: s in more;
      FrozenWithoutClients(n, steps, init, k);
      assert steps + more == steps + init + [last];
      var s := RunOne(n, steps + init, last);
    }
  }

  // ---------------------------------------------------------------------------
  // With clients
  // ---------------------------------------------------------------------------

  lemma {:induction false} OthersLeaveAlone(n: nat, steps: seq<Step>, more: seq<Step>, k: nat)
    requires k < n && forall s <- more :: !(s.MoveStep? && s.replica == k)
    ensures Run(n, steps + more).replicas[k] == Run(n, steps).replicas[k]
    ensures Run(n, steps).broker.log <= Run(n, steps + more).broker.log
  {
    if more == [] {
      assert steps + more == steps;
    } else {
      var init, last := more[..|more| - 1], more[|more| - 1];
      assert last in more && forall s <- init :: s in more;
      OthersLeaveAlone(n, steps, init, k);
      assert steps + more == steps + init + [last];
      var s := RunOne(n, steps + init, last);
    }
  }

  function StepsOf(k: nat, moves: seq<Move>): (steps: seq<Step>)
    ensures |steps| == |moves|
  {
    if moves == [] then [] else StepsOf(k, moves[..|moves| - 1]) + [MoveStep(k, moves[|moves| - 1])]
  }

  /** Moves of one replica in a row. */
  lemma {:induction false} RunMoves(n: nat, steps: seq<Step>, k: nat, moves: seq<Move>)
    requires k < n
    ensures var s, s' := Run(n, steps), Run(n, steps + StepsOf(k, moves));
            s'.broker == s.broker && s'.replicas[k] == GoAll(s.replicas[k], s.broker, moves)
  {
    if moves == [] {
      assert steps + [] == steps;
    } else {
      var init, last := moves[..|moves| - 1], moves[|moves| - 1];
      var s := Run(n, steps);
      RunMoves(n, steps, k, init);
      assert steps + StepsOf(k, moves) == steps + StepsOf(k, init) + [MoveStep(k, last)];
      var s' := RunOne(n, steps + StepsOf(k, init), MoveStep(k, last));
      GoAllAppend(s.replicas[k], s.broker, init, [last]);
      OneMove(GoAll(s.replicas[k], s.broker, init), s.broker, last);
      assert init + [last] == moves;
    }
  }

  /** A read of replica `k` is begun, and others go on meanwhile. */
  function Begun(steps: seq<Step>, k: nat, middle: seq<Step>): seq<Step> {
    steps + [MoveStep(k, BeginRead)] + middle
  }

  lemma RunBegun(n: nat, steps: seq<Step>, k: nat, middle: seq<Step>)
    requires k < n && forall s <- middle :: !(s.MoveStep? && s.replica == k)
    ensures var s, s' := Run(n, steps), Run(n, Begun(steps, k, middle));
            s'.replicas[k] == Go(s.replicas[k], s.broker, BeginRead) && s.broker.log <= s'.broker.log
  {
    var s := RunOne(n, steps, MoveStep(k, BeginRead));
    OthersLeaveAlone(n, steps + [MoveStep(k, BeginRead)], middle, k);
  }

  /** The read ends without errors, its batch is sent and the cursor set. */
  function Completed(n: nat, steps: seq<Step>, k: nat, middle: seq<Step>, failing: nat -> set<nat>): seq<Step>
    requires k < n
  {
    var s := Run(n, Begun(steps, k, middle));
    Begun(steps, k, middle) + StepsOf(k, FlushLoop.Rest(s.replicas[k], s.broker, false, false, failing))
  }

  lemma RunCompleted(n: nat, steps: seq<Step>, k: nat, middle: seq<Step>, failing: nat -> set<nat>)
    requires k < n && forall s <- middle :: !(s.MoveStep? && s.replica == k)
    requires var r := Run(n, steps).replicas[k]; r.phase.Idle? && r.clients != []
    ensures var s, t := Run(n, steps), Run(n, Begun(steps, k, middle));
            var s' := Run(n, Completed(n, steps, k, middle, failing));
            && s'.broker == t.broker
            && s'.replicas[k] == Iteration(s.replicas[k], t.broker, |s.broker.log|, false, false, failing)
  {
    var s, t := Run(n, steps), Run(n, Begun(steps, k, middle));
    RunBegun(n, steps, k, middle);
    RunMoves(n, Begun(steps, k, middle), k, FlushLoop.Rest(t.replicas[k], t.broker, false, false, failing));
    RoundIsIteration(s.replicas[k], s.broker, t.broker, false, false, failing);
  }

  /** A read that fails leaves cursor, broadcasts and clients as they were, and so does one that finds nothing new. */
  lemma FailedReadChangesNothing(r: Replica, b: Broker, xreadFails: bool, stateFails: bool)
    requires b.trimmed <= |b.log| && r.phase.Reading?
    requires xreadFails || |b.log| <= From(r.cursor, r.phase.end)
    ensures Go(r, b, EndRead(xreadFails, stateFails)) == r.(phase := Idle)
  {
  }

  /**
   The replica has broadcast every decodable entry from its cursor to the end of the stream that was not trimmed, and
   its cursor stands at the end; when there was nothing new it is as it was. `end` is where a cursor at $ reads on.
   */
  ghost predicate CaughtUp(r: Replica, r': Replica, b: Broker, end: nat) {
    var next := match r.cursor case Tail => end case After(id) => id + 1;
    var first := if next < b.trimmed then b.trimmed else next;
    if first < |b.log| then
      && r'.phase.Idle? && r'.cursor == After(|b.log| - 1)
      && r'.history == r.history + Decoded(b.log, first, |b.log|, {})
    else r' == r
  }

  lemma IterationCatchesUp(r: Replica, b: Broker, end: nat, failing: nat -> set<nat>)
    requires b.trimmed <= |b.log| && r.phase.Idle?
    ensures CaughtUp(r, Iteration(r, b, end, false, false, failing), b, end)
  {
    IterationShape(r, b, end, false, false, failing);
  }

  /**
   From any reachable state in which a replica is idle and somebody is connected: after a round without errors it has
   caught up with the stream, entries that came in during the read included.
   */
  lemma ReplicaCatchesUp(n: nat, steps: seq<Step>, k: nat, middle: seq<Step>, failing: nat -> set<nat>)
    requires k < n && forall s <- middle :: !(s.MoveStep? && s.replica == k)
    requires var r := Run(n, steps).replicas[k]; r.phase.Idle? && r.clients != []
    ensures var s, s' := Run(n, steps), Run(n, Completed(n, steps, k, middle, failing));
            && s'.broker == Run(n, Begun(steps, k, middle)).broker
            && CaughtUp(s.replicas[k], s'.replicas[k], s'.broker, |s.broker.log|)
  {
    RunCompleted(n, steps, k, middle, failing);
    var s, t := Run(n, steps), Run(n, Begun(steps, k, middle));
    IterationCatchesUp(s.replicas[k], t.broker, |s.broker.log|, failing);
  }
}
