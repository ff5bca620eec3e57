/**
 What one call of the event service decides, said of the rows of the tables: which event an alarm joins, when it is
 notified, and which events an auto-resolve closes.
 */
module EventDecisions {
  import opened Wrappers
  import opened RiskLevels
  import opened EventModel
  import opened EventHistory
  import opened EventRuns
  import opened EventTheorems
  import Tables

  // ---------------------------------------------------------------------------
  // Which event an alarm joins
  // ---------------------------------------------------------------------------

  const TWELVE_HOURS := 12 * 3600 * 1_000_000

  /** Event `i` is unresolved and has the alarm's key. */
  predicate SameKeyOpen(s: Store, req: Request, i: nat) {
    i < |s.events| && s.events[i].status != Resolved && EventKey(s.events[i]) == RequestKey(req)
  }

  /** It was first detected at most twelve hours ago as well. */
  predicate CanJoin(s: Store, req: Request, now: int, i: nat) {
    SameKeyOpen(s, req, i) && now - s.events[i].firstDetected <= TWELVE_HOURS
  }

  /** An alarm of a valid request is recorded with the event it can join, or with a new one if there is none. */
  lemma AlarmJoinsIff(s: Store, req: Request, now: int, cooldown: int, t: int)
    requires Inv(s, cooldown, t) && ValidRequest(req)
    ensures var r := Create(s, req, now, cooldown);
            && r.store.alarms == s.alarms + [Alarm(r.event, req.facility, req.alarmType, req.source, req.worker,
                                                   req.gasType, req.risk, now)]
            && (forall i | 0 <= i < |s.events| :: r.event == i <==> CanJoin(s, req, now, i))
            && r.event <= |s.events|
            && |r.store.events| == if r.event < |s.events| then |s.events| else |s.events| + 1
  {
    MatchesIsSameKeyEverywhere(s, req, cooldown, t);
    var found := FirstMatch(s.events, req, 0);
    if found.Some? {
      forall i | 0 <= i < |s.events| && i != found.value ensures !CanJoin(s, req, now, i) {
        assert Open(s.events[found.value]) && EventKey(s.events[found.value]) == RequestKey(req);
      }
    }
  }

  // ---------------------------------------------------------------------------
  // When an alarm is notified
  // ---------------------------------------------------------------------------

  /** The alarm outranks every earlier alarm of the event, or all its notifications are at least a cooldown old. */
  ghost predicate Due(s: Store, req: Request, now: int, cooldown: int, i: nat) {
    || (forall a <- s.alarms | a.event == i :: Rank(a.risk) < Rank(req.risk))
    || (forall n <- s.notices | n.event == i :: now - n.at >= cooldown)
  }

  lemma {:induction false} OwnRows<T>(table: seq<T>, owner: T -> nat, id: nat, row: T)
    ensures row in Tables.Of(table, owner, id) <==> row in table && owner(row) == id
  {
    if table != [] { OwnRows(table[..|table| - 1], owner, id, row); }
  }

  /** The event's risk is outranked iff all its alarms are. */
  lemma OutranksIff(s: Store, cooldown: int, t: int, i: nat, risk: Risk)
    requires Inv(s, cooldown, t) && i < |s.events|
    ensures Rank(risk) > Rank(s.events[i].risk) <==> forall a <- s.alarms | a.event == i :: Rank(a.risk) < Rank(risk)
  {
    var h := View(s, i);
    assert Lawful(h, cooldown, t);
    forall a: Alarm ensures a in h.alarms <==> a in s.alarms && a.event == i {
      OwnRows(s.alarms, OwnerOfAlarm, i, a);
    }
    var top :| top in h.alarms && top.risk == h.event.risk;
  }

  /** The last notification is a cooldown old iff all of them are. */
  lemma CooledDownIff(s: Store, cooldown: int, t: int, i: nat, now: int)
    requires Inv(s, cooldown, t) && i < |s.events|
    ensures s.events[i].lastNotified.Some?
    ensures now - s.events[i].lastNotified.value >= cooldown <==>
            forall n <- s.notices | n.event == i :: now - n.at >= cooldown
  {
    var h := View(s, i);
    assert Lawful(h, cooldown, t);
    var last := h.notices[|h.notices| - 1];
    assert last in h.notices;
    forall n: Notice ensures n in h.notices <==> n in s.notices && n.event == i {
      OwnRows(s.notices, OwnerOfNotice, i, n);
    }
    forall n <- h.notices ensures n.at <= last.at {
      var k :| 0 <= k < |h.notices| && h.notices[k] == n;
      assert k == |h.notices| - 1 || h.notices[k].at <= h.notices[|h.notices| - 1].at;
    }
  }

  /**
   An alarm is notified iff it outranks all earlier alarms of the event it joins, or that event was not notified for a
   cooldown. An event that is new has neither. The status of the event does not matter.
   */
  lemma AlarmNotifiedIff(s: Store, req: Request, now: int, cooldown: int, t: int)
    requires Inv(s, cooldown, t) && ValidRequest(req)
    ensures var r := Create(s, req, now, cooldown);
            && (r.notified <==> Due(s, req, now, cooldown, r.event))
            && r.store.notices == s.notices + if r.notified then [Notice(r.event, req.risk, now)] else []
  {
    var r := Create(s, req, now, cooldown);
    AlarmJoinsIff(s, req, now, cooldown, t);
    if r.event < |s.events| {
      OutranksIff(s, cooldown, t, r.event, req.risk);
      CooledDownIff(s, cooldown, t, r.event, now);
    }
  }

  function Higher(a: Risk, b: Risk): Risk { if Rank(a) < Rank(b) then b else a }

  /** What an alarm does to the rows of events: one is joined, or at most one is closed and a new one added. */
  lemma AlarmChangesRows(s: Store, req: Request, now: int, cooldown: int, t: int, i: nat)
    requires Inv(s, cooldown, t) && ValidRequest(req) && i < |s.events|
    ensures var r := Create(s, req, now, cooldown); var (e, e') := (s.events[i], r.store.events[i]);
            if i == r.event then
              e' == e.(lastDetected := req.detectedAt, risk := Higher(e.risk, req.risk),
                       lastNotified := if r.notified then Some(now) else e.lastNotified)
            else e' == if SameKeyOpen(s, req, i) then e.(status := Resolved) else e
  {
    AlarmJoinsIff(s, req, now, cooldown, t);
    MatchesIsSameKeyEverywhere(s, req, cooldown, t);
  }

  /** The row of a new event. */
  lemma AlarmStartsEvent(s: Store, req: Request, now: int, cooldown: int, t: int)
    requires Inv(s, cooldown, t) && ValidRequest(req) && forall i | 0 <= i < |s.events| :: !CanJoin(s, req, now, i)
    ensures var r := Create(s, req, now, cooldown);
            && r.event == |s.events| < |r.store.events|
            && r.store.events[r.event] == Event(req.facility, req.alarmType, req.risk, Active, req.source, req.worker,
                                                req.detectedAt, req.detectedAt, Some(now), None, None, None, None)
  {
    AlarmJoinsIff(s, req, now, cooldown, t);
    var r := Create(s, req, now, cooldown);
    assert r.event < |s.events| ==> CanJoin(s, req, now, r.event);
  }

  /** What an alarm adds to the log: a rise in risk, or the end of an event that is too old and a new beginning. */
  lemma AlarmIsLogged(s: Store, req: Request, now: int, cooldown: int, t: int)
    requires Inv(s, cooldown, t) && ValidRequest(req)
    ensures var r := Create(s, req, now, cooldown);
            var created := [LogEntry(|s.events|, None, Created, None, Active)];
            && (forall i | 0 <= i < |s.events| && CanJoin(s, req, now, i) ::
                  var raised := [LogEntry(i, None, StatusChanged, Some(s.events[i].status), s.events[i].status)];
                  r.store.logs == s.logs +
                    if forall a <- s.alarms | a.event == i :: Rank(a.risk) < Rank(req.risk) then raised else [])
            && (forall i | 0 <= i < |s.events| && SameKeyOpen(s, req, i) && !CanJoin(s, req, now, i) ::
                  r.store.logs ==
                  s.logs + [LogEntry(i, None, Closed, Some(s.events[i].status), Resolved)] + created)
            && ((forall i | 0 <= i < |s.events| :: !SameKeyOpen(s, req, i)) ==> r.store.logs == s.logs + created)
  {
    AlarmJoinsIff(s, req, now, cooldown, t);
    MatchesIsSameKeyEverywhere(s, req, cooldown, t);
    var found := FirstMatch(s.events, req, 0);
    assert found.Some? ==> SameKeyOpen(s, req, found.value);
    forall i | 0 <= i < |s.events| && CanJoin(s, req, now, i)
      ensures Rank(req.risk) > Rank(s.events[i].risk) <==>
              forall a <- s.alarms | a.event == i :: Rank(a.risk) < Rank(req.risk)
    {
      OutranksIff(s, cooldown, t, i, req.risk);
    }
    forall i | 0 <= i < |s.events| && SameKeyOpen(s, req, i) ensures found == Some(i) {
      assert Open(s.events[i]) && Open(s.events[found.value]);
    }
  }

  lemma NoticesAfterAlarm(s: Store, req: Request, now: int, cooldown: int, t: int)
    requires Inv(s, cooldown, t) && ValidRequest(req)
    ensures var s' := Create(s, req, now, cooldown).store;
            && |s'.alarms| == |s.alarms| + 1
            && var event := s'.alarms[|s.alarms|].event;
               s'.notices ==
               s.notices + if Due(s, req, now, cooldown, event) then [Notice(event, req.risk, now)] else []
  {
    AlarmJoinsIff(s, req, now, cooldown, t);
    AlarmNotifiedIff(s, req, now, cooldown, t);
  }

  /** In every run an alarm is notified exactly when it is due, at once and with its own risk. */
  lemma RunNotifiesIff(steps: seq<Step>, req: Request, now: int, cooldown: int)
    requires LegalUntil(steps, now) && cooldown > 0 && ValidRequest(req)
    ensures var s, s' := Run(steps, cooldown), Run(steps + [Step(RaiseAlarm(req), now)], cooldown);
            && |s'.alarms| == |s.alarms| + 1
            && var event := s'.alarms[|s.alarms|].event;
               s'.notices ==
               s.notices + if Due(s, req, now, cooldown, event) then [Notice(event, req.risk, now)] else []
  {
    RunInv(steps, cooldown, now);
    RunOne(steps, Step(RaiseAlarm(req), now), cooldown);
    NoticesAfterAlarm(Run(steps, cooldown), req, now, cooldown, now);
  }

  // ---------------------------------------------------------------------------
  // What an auto-resolve closes
  // ---------------------------------------------------------------------------

  /** The event is active, its type starts with the prefix, and its source is the sensor, or without one the device. */
  predicate Addressed(c: Clearing, e: Event) {
    && e.status == Active
    && |c.prefix| <= |e.eventType| && e.eventType[..|c.prefix|] == c.prefix
    && (if c.sensor.Some? && c.sensor.value != 0 then e.source.sensor == c.sensor
        else c.device.Some? && c.device.value != 0 && e.source.device == c.device)
  }

  /** Some alarm of the event names a gas, and every alarm of it that names one names one of the list. */
  ghost predicate AllGasesCleared(s: Store, gases: set<string>, i: nat) {
    && (exists a <- s.alarms :: a.event == i && a.gasType != "")
    && forall a <- s.alarms | a.event == i && a.gasType != "" :: a.gasType in gases
  }

  ghost predicate Closes(s: Store, c: Clearing, i: nat) {
    i < |s.events| && Addressed(c, s.events[i]) && (c.gases.Some? ==> AllGasesCleared(s, c.gases.value, i))
  }

  lemma ClearedIffCloses(s: Store, c: Clearing, i: nat)
    requires i < |s.events|
    ensures Cleared(s, c, i) <==> Closes(s, c, i)
  {
    var own := Tables.Of(s.alarms, OwnerOfAlarm, i);
    forall a: Alarm ensures a in own <==> a in s.alarms && a.event == i {
      OwnRows(s.alarms, OwnerOfAlarm, i, a);
    }
    forall g: string ensures g in Gases(s, i) <==> g != "" && exists a <- s.alarms :: a.event == i && a.gasType == g {
      if a :| a in s.alarms && a.event == i && a.gasType == g && g != "" { assert a in own; }
    }
    if a :| a in s.alarms && a.event == i && a.gasType != "" { assert a.gasType in Gases(s, i); }
    if Gases(s, i) != {} {
      var g :| g in Gases(s, i);
    }
  }

  /** What an auto-resolve does to one event. */
  ghost predicate ClosedIffDue(s: Store, s': Store, c: Clearing, now: int, i: nat)
    requires i < |s.events| == |s'.events|
  {
    && s'.events[i] == (if Closes(s, c, i) then s.events[i].(status := Resolved, resolvedAt := Some(now))
                        else s.events[i])
    && Tables.Of(s'.logs, OwnerOfLog, i) ==
       Tables.Of(s.logs, OwnerOfLog, i) +
       if Closes(s, c, i) then [LogEntry(i, None, Closed, Some(Active), Resolved)] else []
  }

  lemma EventAfterAutoResolve(s: Store, c: Clearing, now: int, i: nat)
    requires i < |s.events|
    ensures ClosedIffDue(s, CloseAll(s, ClearedIds(s, c, |s.events|), now), c, now, i)
  {
    CloseAllView(s, ClearedIds(s, c, |s.events|), now, i);
    ClearedIffCloses(s, c, i);
    var logs := Tables.Of(s.logs, OwnerOfLog, i);
    assert logs + [] == logs;
  }

  lemma CountsCloses(s: Store, c: Clearing, now: int)
    ensures AutoResolve(s, c, now).1 == |set i: nat | i < |s.events| && Closes(s, c, i)|
  {
    AutoResolveIsExact(s, c, now);
    forall i: nat | i < |s.events| ensures Cleared(s, c, i) <==> Closes(s, c, i) { ClearedIffCloses(s, c, i); }
    assert (set i: nat | i < |s.events| && Closes(s, c, i)) == set i: nat | i < |s.events| && Cleared(s, c, i);
  }

  /**
   An auto-resolve closes an event iff it is active and addressed and, given a list of gases, none of its alarms names
   another gas and some name one: an event of which only some gases are cleared stays as it is. It returns how many.
   */
  lemma AutoResolveClosesIff(s: Store, c: Clearing, now: int)
    ensures var (s', n) := AutoResolve(s, c, now);
            && n == |set i: nat | i < |s.events| && Closes(s, c, i)|
            && |s'.events| == |s.events| && s'.alarms == s.alarms && s'.notices == s.notices
            && forall i | 0 <= i < |s.events| :: ClosedIffDue(s, s', c, now, i)
  {
    CountsCloses(s, c, now);
    CloseAllAddsNothing(s, ClearedIds(s, c, |s.events|), now);
    forall i | 0 <= i < |s.events| ensures ClosedIffDue(s, AutoResolve(s, c, now).0, c, now, i) {
      EventAfterAutoResolve(s, c, now, i);
    }
  }

  lemma {:induction false} CloseAllAddsNothing(s: Store, ids: seq<nat>, now: int)
    requires forall k | 0 <= k < |ids| :: ids[k] < |s.events|
    ensures CloseAll(s, ids, now).alarms == s.alarms && CloseAll(s, ids, now).notices == s.notices
  {
    if ids != [] { CloseAllAddsNothing(s, ids[..|ids| - 1], now); }
  }

  // ---------------------------------------------------------------------------
  // What the operators do
  // ---------------------------------------------------------------------------

  /** Only an active event is acknowledged; the row then names who did it and when. */
  lemma AcknowledgedExactly(s: Store, id: nat, actor: nat, now: int)
    ensures match Acknowledge(s, id, actor, now)
            case Err(e) =>
              || (id >= |s.events| && e == NotFound)
              || (id < |s.events| && s.events[id].status != Active && e == NotActive)
            case Ok(s') =>
              && id < |s.events| && s.events[id].status == Active
              && s' == s.(events := s.events[id := s.events[id].(status := Acknowledged, acknowledgedBy := Some(actor),
                                                                 acknowledgedAt := Some(now))],
                          logs := s.logs + [LogEntry(id, Some(actor), Confirmed, Some(Active), Acknowledged)])
  {
  }

  /**
   The status view moves an event forward, never back, and names who took on or resolved it; who acknowledged it is
   named only when it goes in progress without that.
   */
  lemma StatusUpdatedExactly(s: Store, id: nat, actor: nat, to: Option<Status>, now: int)
    ensures match UpdateStatus(s, id, actor, to, now)
            case Err(e) =>
              || (id >= |s.events| && e == NotFound)
              || (id < |s.events| && e == TransitionRefused
                  && (to.None? || Stage(to.value) <= Stage(s.events[id].status)))
            case Ok(s') =>
              && id < |s.events| && to.Some? && Stage(s.events[id].status) < Stage(to.value)
              && var e := s.events[id]; var takesOn := to.value == InProgress && e.acknowledgedBy.None?;
                 var resolves := to.value == Resolved;
                 && s'.events == s.events[id := e.(status := to.value,
                      acknowledgedBy := if takesOn then Some(actor) else e.acknowledgedBy,
                      acknowledgedAt := if takesOn then Some(now) else e.acknowledgedAt,
                      resolvedBy := if resolves then Some(actor) else e.resolvedBy,
                      resolvedAt := if resolves then Some(now) else e.resolvedAt)]
                 && (exists action ::
                       && s'.logs == s.logs + [LogEntry(id, Some(actor), action, Some(e.status), to.value)]
                       && (action == Confirmed <==> to.value == Acknowledged) && (action == Closed <==> resolves)
                       && (action == StatusChanged <==> to.value == InProgress))
                 && s'.alarms == s.alarms && s'.notices == s.notices
  {
    if UpdateStatus(s, id, actor, to, now).Ok? {
      assert UpdateStatus(s, id, actor, to, now).value.logs ==
             s.logs + [LogEntry(id, Some(actor), ActionFor(to.value), Some(s.events[id].status), to.value)];
    }
  }

  /** Each step of a run is one call of the service; a call that is refused leaves the store as it was. */
  lemma StepIsOneCall(steps: seq<Step>, step: Step, cooldown: int)
    ensures var (s, s', op) := (Run(steps, cooldown), Run(steps + [step], cooldown), step.op);
            && (op.RaiseAlarm? ==> s' == Create(s, op.req, step.at, cooldown).store)
            && (op.AcknowledgeEvent? ==>
                  var r := Acknowledge(s, op.id, op.actor, step.at); s' == if r.Ok? then r.value else s)
            && (op.ChangeStatus? ==>
                  var r := UpdateStatus(s, op.id, op.actor, op.to, step.at); s' == if r.Ok? then r.value else s)
            && (op.ClearEvents? ==> s' == AutoResolve(s, op.clearing, step.at).0)
  {
    RunOne(steps, step, cooldown);
  }
}
