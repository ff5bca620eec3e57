/**
 Whole runs of the event service: any interleaving of alarms, acknowledgements,
 status updates and auto-resolves, one atomic transaction each, with clock
 readings that never go back.
 */
module EventRuns {
  import opened Wrappers
  import opened EventModel
  import opened EventHistory
  import Tables

  function View(s: Store, id: nat): History
    requires id < |s.events|
  {
    History(s.events[id], Tables.Of(s.alarms, OwnerOfAlarm, id),
            Tables.Of(s.logs, OwnerOfLog, id), Tables.Of(s.notices, OwnerOfNotice, id))
  }

  /** No row refers to an event that does not exist. */
  ghost predicate NoDangling(s: Store) {
    && (forall a <- s.alarms :: a.event < |s.events|)
    && (forall l <- s.logs :: l.event < |s.events|)
    && (forall n <- s.notices :: n.event < |s.events|)
  }

  predicate Open(e: Event) { e.status != Resolved }

  /** At most one unresolved event per merge key. */
  ghost predicate OneOpenPerKey(events: seq<Event>) {
    forall i, j | 0 <= i < j < |events| && Open(events[i]) && Open(events[j]) ::
      EventKey(events[i]) != EventKey(events[j])
  }

  ghost predicate Inv(s: Store, cooldown: int, t: int) {
    && NoDangling(s)
    && (forall id | 0 <= id < |s.events| :: Lawful(View(s, id), cooldown, t))
    && OneOpenPerKey(s.events)
  }

  // ---------------------------------------------------------------------------
  // Put and Insert, seen from each event
  // ---------------------------------------------------------------------------

  /** All rows of the Delta belong to event `id`. */
  ghost predicate Concerns(d: Delta, id: nat) {
    && (forall a <- d.alarms :: a.event == id)
    && (forall l <- d.logs :: l.event == id)
    && (forall n <- d.notices :: n.event == id)
  }

  lemma PutView(s: Store, id: nat, d: Delta, other: nat)
    requires id < |s.events| && other < |s.events| && Concerns(d, id)
    ensures View(Put(s, id, d), other) == if other == id then Extend(View(s, id), d) else View(s, other)
  {
    Tables.OfAppend(s.alarms, d.alarms, OwnerOfAlarm, other, id);
    Tables.OfAppend(s.logs, d.logs, OwnerOfLog, other, id);
    Tables.OfAppend(s.notices, d.notices, OwnerOfNotice, other, id);
  }

  lemma InsertView(s: Store, d: Delta, other: nat)
    requires NoDangling(s) && other <= |s.events| && Concerns(d, |s.events|)
    ensures View(Insert(s, d), other) == if other == |s.events| then Start(d) else View(s, other)
  {
    Tables.OfAppend(s.alarms, d.alarms, OwnerOfAlarm, other, |s.events|);
    Tables.OfAppend(s.logs, d.logs, OwnerOfLog, other, |s.events|);
    Tables.OfAppend(s.notices, d.notices, OwnerOfNotice, other, |s.events|);
    if other == |s.events| {
      Tables.OfNone(s.alarms, OwnerOfAlarm, other);
      Tables.OfNone(s.logs, OwnerOfLog, other);
      Tables.OfNone(s.notices, OwnerOfNotice, other);
    }
  }

  /** A Put that keeps the event's laws and its key, and opens nothing, keeps the invariant. */
  lemma PutKeepsInv(s: Store, id: nat, d: Delta, cooldown: int, t: int, now: int)
    requires Inv(s, cooldown, t) && t <= now && id < |s.events| && Concerns(d, id)
    requires Lawful(Extend(View(s, id), d), cooldown, now)
    requires EventKey(d.event) == EventKey(s.events[id]) && (Open(d.event) ==> Open(s.events[id]))
    ensures Inv(Put(s, id, d), cooldown, now)
  {
    var s' := Put(s, id, d);
    forall other | 0 <= other < |s'.events| ensures Lawful(View(s', other), cooldown, now) {
      PutView(s, id, d, other);
      assert Lawful(View(s, other), cooldown, t);
    }
  }

  lemma InsertKeepsInv(s: Store, d: Delta, cooldown: int, t: int, now: int)
    requires Inv(s, cooldown, t) && t <= now && Concerns(d, |s.events|)
    requires Lawful(Start(d), cooldown, now)
    requires forall i | 0 <= i < |s.events| && Open(s.events[i]) :: EventKey(s.events[i]) != EventKey(d.event)
    ensures Inv(Insert(s, d), cooldown, now)
  {
    var s' := Insert(s, d);
    forall other | 0 <= other < |s'.events| ensures Lawful(View(s', other), cooldown, now) {
      InsertView(s, d, other);
      if other < |s.events| { assert Lawful(View(s, other), cooldown, t); }
    }
  }

  // ---------------------------------------------------------------------------
  // Every transaction keeps the invariant
  // ---------------------------------------------------------------------------

  /** For valid requests the query filter is equality of keys. */
  lemma MatchesIsSameKey(e: Event, req: Request)
    requires ValidSource(e.source, e.worker) && ValidRequest(req)
    ensures Matches(e, req) <==> Open(e) && EventKey(e) == RequestKey(req)
  {
  }

  lemma MatchesIsSameKeyEverywhere(s: Store, req: Request, cooldown: int, t: int)
    requires Inv(s, cooldown, t) && ValidRequest(req)
    ensures forall i | 0 <= i < |s.events| :: Matches(s.events[i], req) <==>
              Open(s.events[i]) && EventKey(s.events[i]) == RequestKey(req)
  {
    forall i | 0 <= i < |s.events|
      ensures Matches(s.events[i], req) <==> Open(s.events[i]) && EventKey(s.events[i]) == RequestKey(req)
    {
      assert Lawful(View(s, i), cooldown, t);
      MatchesIsSameKey(s.events[i], req);
    }
  }

  /** A new event may be opened once no open event has its key. */
  lemma OpenKeepsInv(s: Store, req: Request, now: int, cooldown: int, t: int)
    requires Inv(s, cooldown, t) && t <= now && cooldown > 0 && ValidRequest(req)
    requires forall i | 0 <= i < |s.events| && Open(s.events[i]) :: EventKey(s.events[i]) != RequestKey(req)
    ensures Inv(Insert(s, Fresh(req, |s.events|, now)), cooldown, now)
  {
    FreshIsLawful(req, |s.events|, now, cooldown);
    InsertKeepsInv(s, Fresh(req, |s.events|, now), cooldown, t, now);
  }

  lemma CreateKeepsInv(s: Store, req: Request, now: int, cooldown: int, t: int)
    requires Inv(s, cooldown, t) && t <= now && cooldown > 0 && ValidRequest(req)
    ensures Inv(Create(s, req, now, cooldown).store, cooldown, now)
  {
    MatchesIsSameKeyEverywhere(s, req, cooldown, t);
    match FirstMatch(s.events, req, 0)
    case None =>
      OpenKeepsInv(s, req, now, cooldown, t);
    case Some(i) =>
      var e := s.events[i];
      if Mergeable(e, now) {
        assert Lawful(View(s, i), cooldown, t);
        MergeIsLawful(View(s, i), i, req, now, cooldown, t);
        PutKeepsInv(s, i, Merge(e, i, req, now, cooldown), cooldown, t, now);
      } else {
        SplitKeepsInv(s, i, cooldown, t, now);
        OpenKeepsInv(Put(s, i, Split(e, i)), req, now, cooldown, now);
      }
  }

  lemma SplitKeepsInv(s: Store, i: nat, cooldown: int, t: int, now: int)
    requires Inv(s, cooldown, t) && t <= now && i < |s.events| && Open(s.events[i])
    ensures Inv(Put(s, i, Split(s.events[i], i)), cooldown, now)
  {
    var e := s.events[i];
    AdvanceIsLawful(View(s, i), e.(status := Resolved), i, None, Closed, cooldown, t, now);
    PutKeepsInv(s, i, Split(e, i), cooldown, t, now);
  }

  lemma AcknowledgeKeepsInv(s: Store, id: nat, actor: nat, now: int, cooldown: int, t: int)
    requires Inv(s, cooldown, t) && t <= now && Acknowledge(s, id, actor, now).Ok?
    ensures Inv(Acknowledge(s, id, actor, now).value, cooldown, now)
  {
    var e := s.events[id];
    AdvanceIsLawful(View(s, id), e.(status := Acknowledged, acknowledgedBy := Some(actor), acknowledgedAt := Some(now)),
                    id, Some(actor), Confirmed, cooldown, t, now);
    PutKeepsInv(s, id, Acknowledgement(e, id, actor, now), cooldown, t, now);
  }

  lemma UpdateStatusKeepsInv(s: Store, id: nat, actor: nat, to: Option<Status>, now: int, cooldown: int, t: int)
    requires Inv(s, cooldown, t) && t <= now && UpdateStatus(s, id, actor, to, now).Ok?
    ensures Inv(UpdateStatus(s, id, actor, to, now).value, cooldown, now)
  {
    var e := s.events[id];
    var d := StatusUpdate(e, id, actor, to.value, now);
    AdvanceIsLawful(View(s, id), d.event, id, Some(actor), ActionFor(to.value), cooldown, t, now);
    PutKeepsInv(s, id, d, cooldown, t, now);
  }

  /** What CloseAll does to each event: those listed are closed, the others are untouched. */
  lemma {:induction false} CloseAllView(s: Store, ids: seq<nat>, now: int, other: nat)
    requires forall k | 0 <= k < |ids| :: ids[k] < |s.events|
    requires forall j, k | 0 <= j < k < |ids| :: ids[j] < ids[k]
    requires other < |s.events|
    ensures View(CloseAll(s, ids, now), other) ==
            if other in ids then Extend(View(s, other), AutoClose(s.events[other], other, now)) else View(s, other)
  {
    if ids != [] {
      var init, id := ids[..|ids| - 1], ids[|ids| - 1];
      var rest := CloseAll(s, init, now);
      CloseAllView(s, init, now, other);
      CloseAllView(s, init, now, id);
      assert View(rest, id).event == s.events[id];
      PutView(rest, id, AutoClose(rest.events[id], id, now), other);
    }
  }

  lemma CloseKeepsInv(s: Store, id: nat, now: int, cooldown: int, t: int)
    requires Inv(s, cooldown, t) && t <= now && id < |s.events| && Open(s.events[id])
    ensures Inv(Put(s, id, AutoClose(s.events[id], id, now)), cooldown, now)
  {
    var e := s.events[id];
    AdvanceIsLawful(View(s, id), e.(status := Resolved, resolvedAt := Some(now)), id, None, Closed, cooldown, t, now);
    PutKeepsInv(s, id, AutoClose(e, id, now), cooldown, t, now);
  }

  lemma {:induction false} CloseAllKeepsInv(s: Store, ids: seq<nat>, now: int, cooldown: int, t: int)
    requires Inv(s, cooldown, t) && t <= now
    requires forall k | 0 <= k < |ids| :: ids[k] < |s.events| && Open(s.events[ids[k]])
    requires forall j, k | 0 <= j < k < |ids| :: ids[j] < ids[k]
    ensures Inv(CloseAll(s, ids, now), cooldown, now)
  {
    if ids == [] {
      InvLater(s, cooldown, t, now);
    } else {
      var init, id := ids[..|ids| - 1], ids[|ids| - 1];
      CloseAllKeepsInv(s, init, now, cooldown, t);
      CloseAllView(s, init, now, id);
      assert id !in init;
      assert View(CloseAll(s, init, now), id).event == s.events[id];
      CloseKeepsInv(CloseAll(s, init, now), id, now, cooldown, now);
    }
  }

  /** Auto-resolve closes exactly the cleared events, leaves all others untouched and returns how many it closed. */
  lemma AutoResolveIsExact(s: Store, c: Clearing, now: int)
    ensures var (s', n) := AutoResolve(s, c, now);
            && |s'.events| == |s.events|
            && n == |set id: nat | id < |s.events| && Cleared(s, c, id)|
            && forall id: nat | id < |s.events| ::
                 View(s', id) == if Cleared(s, c, id) then Extend(View(s, id), AutoClose(s.events[id], id, now))
                                 else View(s, id)
  {
    var ids := ClearedIds(s, c, |s.events|);
    forall id: nat | id < |s.events|
      ensures View(AutoResolve(s, c, now).0, id) ==
              if Cleared(s, c, id) then Extend(View(s, id), AutoClose(s.events[id], id, now)) else View(s, id)
    {
      CloseAllView(s, ids, now, id);
    }
    AscendingSize(ids);
    assert (set id: nat | id < |s.events| && Cleared(s, c, id)) == Elements(ids);
  }

  function Elements(ids: seq<nat>): (r: set<nat>)
    ensures forall i :: i in r <==> i in ids
  {
    if ids == [] then {} else Elements(ids[..|ids| - 1]) + {ids[|ids| - 1]}
  }

  lemma {:induction false} AscendingSize(ids: seq<nat>)
    requires forall j, k | 0 <= j < k < |ids| :: ids[j] < ids[k]
    ensures |Elements(ids)| == |ids|
  {
    if ids != [] {
      AscendingSize(ids[..|ids| - 1]);
      assert ids[|ids| - 1] !in ids[..|ids| - 1];
    }
  }

  // ---------------------------------------------------------------------------
  // Runs
  // ---------------------------------------------------------------------------

  datatype Op =
    | RaiseAlarm(req: Request)
    | AcknowledgeEvent(id: nat, actor: nat)
    | ChangeStatus(id: nat, actor: nat, to: Option<Status>)
    | ClearEvents(clearing: Clearing)

  datatype Step = Step(op: Op, at: int)

  /** A refused operation leaves the store as it was. */
  function Apply(s: Store, step: Step, cooldown: int): Store {
    match step.op
    case RaiseAlarm(req) => Create(s, req, step.at, cooldown).store
    case AcknowledgeEvent(id, actor) =>
      (match Acknowledge(s, id, actor, step.at) case Ok(s') => s' case Err(_) => s)
    case ChangeStatus(id, actor, to) =>
      (match UpdateStatus(s, id, actor, to, step.at) case Ok(s') => s' case Err(_) => s)
    case ClearEvents(c) => AutoResolve(s, c, step.at).0
  }

  function Run(steps: seq<Step>, cooldown: int): Store {
    if steps == [] then EMPTY else Apply(Run(steps[..|steps| - 1], cooldown), steps[|steps| - 1], cooldown)
  }

  /** The clock never goes back, and alarms name exactly one source (and a worker for a geofence). */
  ghost predicate Legal(steps: seq<Step>) {
    && (forall j, k | 0 <= j < k < |steps| :: steps[j].at <= steps[k].at)
    && (forall k | 0 <= k < |steps| && steps[k].op.RaiseAlarm? :: ValidRequest(steps[k].op.req))
  }

  lemma InvLater(s: Store, cooldown: int, t: int, now: int)
    requires Inv(s, cooldown, t) && t <= now
    ensures Inv(s, cooldown, now)
  {
  }

  lemma ApplyKeepsInv(s: Store, step: Step, cooldown: int, t: int)
    requires Inv(s, cooldown, t) && t <= step.at && cooldown > 0
    requires step.op.RaiseAlarm? ==> ValidRequest(step.op.req)
    ensures Inv(Apply(s, step, cooldown), cooldown, step.at)
  {
    InvLater(s, cooldown, t, step.at);
    match step.op
    case RaiseAlarm(req) => CreateKeepsInv(s, req, step.at, cooldown, t);
    case AcknowledgeEvent(id, actor) =>
      if Acknowledge(s, id, actor, step.at).Ok? { AcknowledgeKeepsInv(s, id, actor, step.at, cooldown, t); }
    case ChangeStatus(id, actor, to) =>
      if UpdateStatus(s, id, actor, to, step.at).Ok? { UpdateStatusKeepsInv(s, id, actor, to, step.at, cooldown, t); }
    case ClearEvents(c) => CloseAllKeepsInv(s, ClearedIds(s, c, |s.events|), step.at, cooldown, t);
  }

  /** The invariant holds in every reachable store. */
  lemma {:induction false} RunInv(steps: seq<Step>, cooldown: int, now: int)
    requires Legal(steps) && cooldown > 0
    requires steps != [] ==> steps[|steps| - 1].at <= now
    ensures Inv(Run(steps, cooldown), cooldown, now)
  {
    if steps != [] {
      var init, last := steps[..|steps| - 1], steps[|steps| - 1];
      RunInv(init, cooldown, last.at);
      ApplyKeepsInv(Run(init, cooldown), last, cooldown, last.at);
      InvLater(Run(steps, cooldown), cooldown, last.at, now);
    }
  }
}
