/** What holds of every run of the event service. */
module EventTheorems {
  import opened Wrappers
  import opened RiskLevels
  import opened EventModel
  import opened EventHistory
  import opened EventRuns
  import Tables

  /** `steps` is a legal run and `at` is not before its end. */
  ghost predicate LegalUntil(steps: seq<Step>, at: int) {
    Legal(steps) && (steps != [] ==> steps[|steps| - 1].at <= at)
  }

  lemma AtMostOneOpenEventPerKey(steps: seq<Step>, cooldown: int, i: nat, j: nat)
    requires Legal(steps) && cooldown > 0
    requires i < j < |Run(steps, cooldown).events|
    ensures var events := Run(steps, cooldown).events;
            Open(events[i]) && Open(events[j]) ==> EventKey(events[i]) != EventKey(events[j])
  {
    RunInv(steps, cooldown, if steps == [] then 0 else steps[|steps| - 1].at);
  }

  /** The life of event `id` in a run: everything Lawful says, spelled out. */
  lemma EveryEventIsLawful(steps: seq<Step>, cooldown: int, id: nat)
    requires Legal(steps) && cooldown > 0 && id < |Run(steps, cooldown).events|
    ensures var h := View(Run(steps, cooldown), id);
            // its alarms
            && h.alarms != []
            && (forall a <- h.alarms :: AlarmKey(a) == EventKey(h.event) && Rank(a.risk) <= Rank(h.event.risk))
            && (exists a <- h.alarms :: a.risk == h.event.risk)
            && (forall k | 0 < k < |h.alarms| :: h.alarms[k].recordedAt <= h.event.firstDetected + MERGE_WINDOW)
            // its log
            && Chained(h.logs, h.event.status)
            && StatusChanges(h.logs) <= Stage(h.event.status) <= 3
            // its notifications
            && Spaced(h.notices, cooldown)
            && |h.notices| <= 1 + Rise(h) + Room(h) / cooldown
            && (h.event.firstDetected <= h.alarms[0].recordedAt ==> |h.notices| <= 3 + MERGE_WINDOW / cooldown)
  {
    var now := if steps == [] then 0 else steps[|steps| - 1].at;
    RunInv(steps, cooldown, now);
    var h := View(Run(steps, cooldown), id);
    assert Lawful(h, cooldown, now);
    StatusChangesAtMostThree(h.logs, h.event.status);
    NotificationBudget(h, cooldown, now);
    if h.event.firstDetected <= h.alarms[0].recordedAt {
      DivisionMonotone(Room(h), MERGE_WINDOW, cooldown);
    }
  }

  lemma DivisionMonotone(x: int, y: int, d: int)
    requires 0 <= x <= y && d > 0
    ensures x / d <= y / d
  {
    var q := x / d;
    assert q * d <= x;
    DivisionBound(q, d, y);
  }

  // ---------------------------------------------------------------------------
  // The bound on notifications is reached
  // ---------------------------------------------------------------------------

  function Tank(risk: Risk): Request {
    Request(1, "gas_threshold", Source(Some(1), None, None), None, "co", risk, 0)
  }

  /** `k` cooldowns. */
  function Wait(k: nat, cooldown: int): int {
    if k == 0 then 0 else Wait(k - 1, cooldown) + cooldown
  }

  lemma {:induction false} WaitIsProduct(k: nat, cooldown: int)
    ensures Wait(k, cooldown) == k * cooldown
  {
    if k > 0 {
      WaitIsProduct(k - 1, cooldown);
      assert (k - 1) * cooldown + cooldown == k * cooldown;
    }
  }

  /** An event that escalates twice at once and then repeats `k` times, one cooldown apart. */
  function Insistent(k: nat, cooldown: int): seq<Step> {
    if k == 0 then
      [Step(RaiseAlarm(Tank(Normal)), 0), Step(RaiseAlarm(Tank(Warning)), 0), Step(RaiseAlarm(Tank(Danger)), 0)]
    else Insistent(k - 1, cooldown) + [Step(RaiseAlarm(Tank(Danger)), Wait(k, cooldown))]
  }

  lemma RunOne(steps: seq<Step>, step: Step, cooldown: int)
    ensures Run(steps + [step], cooldown) == Apply(Run(steps, cooldown), step, cooldown)
  {
  }

  lemma InsistentStart(cooldown: int)
    ensures Run(Insistent(0, cooldown), cooldown) ==
            Store([Fresh(Tank(Danger), 0, 0).event],
                  [AlarmOf(Tank(Normal), 0, 0), AlarmOf(Tank(Warning), 0, 0), AlarmOf(Tank(Danger), 0, 0)],
                  [LogEntry(0, None, Created, None, Active), LogEntry(0, None, StatusChanged, Some(Active), Active),
                   LogEntry(0, None, StatusChanged, Some(Active), Active)],
                  [Notice(0, Normal, 0), Notice(0, Warning, 0), Notice(0, Danger, 0)])
  {
    var a, b := Step(RaiseAlarm(Tank(Normal)), 0), Step(RaiseAlarm(Tank(Warning)), 0);
    var c := Step(RaiseAlarm(Tank(Danger)), 0);
    RunOne([], a, cooldown);
    assert Run([], cooldown) == EMPTY && [] + [a] == [a];
    RunOne([a], b, cooldown);
    assert [a] + [b] == [a, b];
    RunOne([a, b], c, cooldown);
    assert [a, b] + [c] == Insistent(0, cooldown);
  }

  lemma OneMoreRepeat(s: Store, last: int, at: int, cooldown: int)
    requires s.events == [Fresh(Tank(Danger), 0, last).event]
    requires at - last >= cooldown && at <= MERGE_WINDOW
    ensures var s' := Apply(s, Step(RaiseAlarm(Tank(Danger)), at), cooldown);
            && s'.events == [Fresh(Tank(Danger), 0, at).event]
            && |View(s', 0).notices| == |View(s, 0).notices| + 1
  {
  }

  lemma {:induction false} InsistentIsLegal(k: nat, cooldown: int)
    requires cooldown > 0
    ensures var steps := Insistent(k, cooldown);
            Legal(steps) && steps != [] && steps[|steps| - 1].at == Wait(k, cooldown)
  {
    if k > 0 {
      InsistentIsLegal(k - 1, cooldown);
      var before := Insistent(k - 1, cooldown);
      var steps := Insistent(k, cooldown);
      forall j | 0 <= j < |before| ensures steps[j].at <= Wait(k, cooldown) {
        assert before[j].at <= before[|before| - 1].at;
      }
    }
  }

  lemma {:induction false} InsistentNotifies(k: nat, cooldown: int)
    requires cooldown > 0 && Wait(k, cooldown) <= MERGE_WINDOW
    ensures var s := Run(Insistent(k, cooldown), cooldown);
            && s.events == [Fresh(Tank(Danger), 0, Wait(k, cooldown)).event]
            && |View(s, 0).notices| == 3 + k
  {
    if k == 0 {
      InsistentStart(cooldown);
      ThreeNotices(Notice(0, Normal, 0), Notice(0, Warning, 0), Notice(0, Danger, 0));
    } else {
      InsistentNotifies(k - 1, cooldown);
      var before := Insistent(k - 1, cooldown);
      RunOne(before, Step(RaiseAlarm(Tank(Danger)), Wait(k, cooldown)), cooldown);
      OneMoreRepeat(Run(before, cooldown), Wait(k - 1, cooldown), Wait(k, cooldown), cooldown);
    }
  }

  lemma ThreeNotices(a: Notice, b: Notice, c: Notice)
    requires a.event == b.event == c.event == 0
    ensures Tables.Of([a, b, c], OwnerOfNotice, 0) == [a, b, c]
  {
    assert Tables.Of([], OwnerOfNotice, 0) == [];
    Tables.OfAppend([], [a, b, c], OwnerOfNotice, 0, 0);
    assert [] + [a, b, c] == [a, b, c];
  }

  /** The notification bound of EveryEventIsLawful is attained, for every cooldown. */
  lemma NotificationBoundIsTight(cooldown: int)
    requires cooldown > 0
    ensures exists steps ::
              && Legal(steps) && |Run(steps, cooldown).events| == 1
              && |View(Run(steps, cooldown), 0).notices| == 3 + MERGE_WINDOW / cooldown
  {
    var k := MERGE_WINDOW / cooldown;
    assert k * cooldown <= MERGE_WINDOW;
    WaitIsProduct(k, cooldown);
    InsistentIsLegal(k, cooldown);
    InsistentNotifies(k, cooldown);
    var steps := Insistent(k, cooldown);
    assert Legal(steps) && |Run(steps, cooldown).events| == 1;
  }

  // ---------------------------------------------------------------------------
  // Keys are safe exactly for requests that name one source
  // ---------------------------------------------------------------------------

  /** One open event per key, and no alarm attached to an event of another key. */
  ghost predicate KeysAgree(s: Store) {
    && OneOpenPerKey(s.events)
    && forall a <- s.alarms :: a.event < |s.events| && AlarmKey(a) == EventKey(s.events[a.event])
  }

  /** A valid request whose open event the given request would join although its key differs. */
  function Decoy(req: Request): Request {
    var src := req.source;
    if Given(src.sensor) then req.(source := Source(src.sensor, None, None))
    else if Given(src.device) then req.(source := Source(None, src.device, None))
    else if Given(src.geofence) then
      req.(source := Source(None, None, src.geofence), worker := if Given(req.worker) then req.worker else Some(1))
    else req.(source := Source(Some(1), None, None))
  }

  lemma InvalidRequestMixesKeys(req: Request, cooldown: int)
    requires !ValidRequest(req)
    ensures var steps := [Step(RaiseAlarm(Decoy(req).(detectedAt := 0)), 0)];
            LegalUntil(steps, 0) && !KeysAgree(Create(Run(steps, cooldown), req, 0, cooldown).store)
  {
    var decoy := Decoy(req).(detectedAt := 0);
    var steps := [Step(RaiseAlarm(decoy), 0)];
    assert steps[..0] == [] && Run([], cooldown) == EMPTY;
    var s := Run(steps, cooldown);
    assert s == Insert(EMPTY, Fresh(decoy, 0, 0));
    var s' := Create(s, req, 0, cooldown).store;
    assert s' == Put(s, 0, Merge(s.events[0], 0, req, 0, cooldown));
    assert s'.alarms[1] in s'.alarms;
  }

  lemma ValidRequestKeepsKeys(steps: seq<Step>, req: Request, at: int, cooldown: int)
    requires ValidRequest(req) && LegalUntil(steps, at) && cooldown > 0
    ensures KeysAgree(Create(Run(steps, cooldown), req, at, cooldown).store)
  {
    RunInv(steps, cooldown, at);
    CreateKeepsInv(Run(steps, cooldown), req, at, cooldown, at);
    var s := Create(Run(steps, cooldown), req, at, cooldown).store;
    forall a <- s.alarms ensures a.event < |s.events| && AlarmKey(a) == EventKey(s.events[a.event]) {
      assert Lawful(View(s, a.event), cooldown, at);
      Tables.OfKeeps(s.alarms, OwnerOfAlarm, a);
    }
  }

  /** A request may be raised in every reachable store without mixing keys iff it names exactly one source. */
  lemma KeysAgreeExactlyForValidRequests(req: Request, cooldown: int)
    requires cooldown > 0
    ensures ValidRequest(req) <==>
            forall steps, at | LegalUntil(steps, at) :: KeysAgree(Create(Run(steps, cooldown), req, at, cooldown).store)
  {
    if ValidRequest(req) {
      forall steps, at | LegalUntil(steps, at)
        ensures KeysAgree(Create(Run(steps, cooldown), req, at, cooldown).store)
      {
        ValidRequestKeepsKeys(steps, req, at, cooldown);
      }
    } else {
      InvalidRequestMixesKeys(req, cooldown);
    }
  }

  // ---------------------------------------------------------------------------
  // History is never rewritten
  // ---------------------------------------------------------------------------

  /** Alarm, log and notification tables only grow; events keep their key, and risk and status never go back. */
  ghost predicate Extends(s: Store, s': Store) {
    && s.alarms <= s'.alarms && s.logs <= s'.logs && s.notices <= s'.notices
    && |s.events| <= |s'.events|
    && forall i | 0 <= i < |s.events| ::
         && EventKey(s'.events[i]) == EventKey(s.events[i])
         && s'.events[i].firstDetected == s.events[i].firstDetected
         && Rank(s.events[i].risk) <= Rank(s'.events[i].risk)
         && Stage(s.events[i].status) <= Stage(s'.events[i].status)
         && (!Open(s.events[i]) ==> s'.events[i] == s.events[i])
  }

  lemma CreateExtends(s: Store, req: Request, now: int, cooldown: int)
    ensures Extends(s, Create(s, req, now, cooldown).store)
  {
  }

  lemma PutExtends(s: Store, id: nat, d: Delta)
    requires id < |s.events| && Open(s.events[id])
    requires EventKey(d.event) == EventKey(s.events[id]) && d.event.firstDetected == s.events[id].firstDetected
    requires Rank(s.events[id].risk) <= Rank(d.event.risk) && Stage(s.events[id].status) <= Stage(d.event.status)
    ensures Extends(s, Put(s, id, d))
  {
  }

  lemma ExtendsIsTransitive(a: Store, b: Store, c: Store)
    requires Extends(a, b) && Extends(b, c)
    ensures Extends(a, c)
  {
  }

  lemma {:induction false} CloseAllExtends(s: Store, ids: seq<nat>, now: int)
    requires forall k | 0 <= k < |ids| :: ids[k] < |s.events| && Open(s.events[ids[k]])
    requires forall j, k | 0 <= j < k < |ids| :: ids[j] < ids[k]
    ensures Extends(s, CloseAll(s, ids, now))
    ensures forall i | 0 <= i < |s.events| && i !in ids :: CloseAll(s, ids, now).events[i] == s.events[i]
  {
    if ids != [] {
      var init, id := ids[..|ids| - 1], ids[|ids| - 1];
      CloseAllExtends(s, init, now);
      var rest := CloseAll(s, init, now);
      assert id !in init && ids == init + [id];
      PutExtends(rest, id, AutoClose(rest.events[id], id, now));
      ExtendsIsTransitive(s, rest, CloseAll(s, ids, now));
    }
  }

  lemma ApplyExtends(s: Store, step: Step, cooldown: int)
    ensures Extends(s, Apply(s, step, cooldown))
  {
    match step.op
    case RaiseAlarm(req) => CreateExtends(s, req, step.at, cooldown);
    case AcknowledgeEvent(id, actor) =>
      if Acknowledge(s, id, actor, step.at).Ok? {
        PutExtends(s, id, Acknowledgement(s.events[id], id, actor, step.at));
      }
    case ChangeStatus(id, actor, to) =>
      if UpdateStatus(s, id, actor, to, step.at).Ok? {
        PutExtends(s, id, StatusUpdate(s.events[id], id, actor, to.value, step.at));
      }
    case ClearEvents(c) => CloseAllExtends(s, ClearedIds(s, c, |s.events|), step.at);
  }

  lemma ExtendsItself(s: Store)
    ensures Extends(s, s)
  {
  }

  /** Any longer run extends the shorter one: nothing recorded is changed, and a resolved event is final. */
  lemma {:induction false} RunsOnlyExtend(steps: seq<Step>, more: seq<Step>, cooldown: int)
    ensures Extends(Run(steps, cooldown), Run(steps + more, cooldown))
  {
    if more == [] {
      assert steps + more == steps;
      ExtendsItself(Run(steps, cooldown));
    } else {
      var init, last := more[..|more| - 1], more[|more| - 1];
      RunsOnlyExtend(steps, init, cooldown);
      assert steps + more == (steps + init) + [last];
      RunOne(steps + init, last, cooldown);
      ApplyExtends(Run(steps + init, cooldown), last, cooldown);
      ExtendsIsTransitive(Run(steps, cooldown), Run(steps + init, cooldown), Run(steps + more, cooldown));
    }
  }

  // ---------------------------------------------------------------------------
  // Who did it and when
  // ---------------------------------------------------------------------------

  /** Names and times of one row fit together, and no work is in progress that nobody has taken on. */
  predicate Recorded(e: Event) {
    && (e.acknowledgedBy.Some? <==> e.acknowledgedAt.Some?)
    && (e.resolvedBy.Some? ==> e.resolvedAt.Some?)
    && (e.resolvedAt.Some? ==> e.status == Resolved)
    && (e.status == InProgress ==> e.acknowledgedBy.Some?)
    && (e.status == Active ==> e.acknowledgedBy.None?)
  }

  ghost predicate AllRecorded(s: Store) {
    forall i | 0 <= i < |s.events| :: Recorded(s.events[i])
  }

  lemma {:induction false} CloseAllKeepsRecords(s: Store, ids: seq<nat>, now: int)
    requires AllRecorded(s) && forall k | 0 <= k < |ids| :: ids[k] < |s.events|
    ensures AllRecorded(CloseAll(s, ids, now))
  {
    if ids != [] { CloseAllKeepsRecords(s, ids[..|ids| - 1], now); }
  }

  lemma CreateKeepsRecords(s: Store, req: Request, now: int, cooldown: int)
    requires AllRecorded(s)
    ensures AllRecorded(Create(s, req, now, cooldown).store)
  {
  }

  lemma ApplyKeepsRecords(s: Store, step: Step, cooldown: int)
    requires AllRecorded(s)
    ensures AllRecorded(Apply(s, step, cooldown))
  {
    match step.op
    case RaiseAlarm(req) => CreateKeepsRecords(s, req, step.at, cooldown);
    case AcknowledgeEvent(_, _) =>
    case ChangeStatus(id, actor, to) =>
      if UpdateStatus(s, id, actor, to, step.at).Ok? {
        assert Recorded(StatusUpdate(s.events[id], id, actor, to.value, step.at).event);
      }
    case ClearEvents(c) => CloseAllKeepsRecords(s, ClearedIds(s, c, |s.events|), step.at);
  }

  lemma {:induction false} RecordsFitTogether(steps: seq<Step>, cooldown: int)
    ensures AllRecorded(Run(steps, cooldown))
  {
    if steps != [] {
      RecordsFitTogether(steps[..|steps| - 1], cooldown);
      ApplyKeepsRecords(Run(steps[..|steps| - 1], cooldown), steps[|steps| - 1], cooldown);
    }
  }

  /** An acknowledged event names who acknowledged it iff it was not the status view that acknowledged it. */
  lemma AcknowledgedBySomeoneIff(s: Store, step: Step, cooldown: int, id: nat)
    requires AllRecorded(s) && id < |s.events| && s.events[id].status == Active
    requires Apply(s, step, cooldown).events[id].status == Acknowledged
    ensures Apply(s, step, cooldown).events[id].acknowledgedBy.Some? <==> !step.op.ChangeStatus?
  {
    if step.op.ClearEvents? {
      CloseAllView(s, ClearedIds(s, step.op.clearing, |s.events|), step.at, id);
    }
  }

  /** A resolution time iff it was not an alarm that resolved the event, a name iff it was the status view. */
  predicate TimedBy(e: Event, op: Op) {
    (e.resolvedAt.Some? <==> !op.RaiseAlarm?) && (e.resolvedBy.Some? <==> op.ChangeStatus?)
  }

  lemma AlarmResolvesWithoutTime(s: Store, req: Request, now: int, cooldown: int, id: nat)
    requires AllRecorded(s) && id < |s.events| && Open(s.events[id])
    requires Create(s, req, now, cooldown).store.events[id].status == Resolved
    ensures var e := Create(s, req, now, cooldown).store.events[id]; e.resolvedAt.None? && e.resolvedBy.None?
  {
    assert Recorded(s.events[id]);
  }

  /** A resolved event has a resolution time iff no forced split closed it, and names a person iff the view did. */
  lemma ResolvedWithTimeIff(s: Store, step: Step, cooldown: int, id: nat)
    requires AllRecorded(s) && id < |s.events| && Open(s.events[id])
    requires Apply(s, step, cooldown).events[id].status == Resolved
    ensures TimedBy(Apply(s, step, cooldown).events[id], step.op)
  {
    match step.op
    case RaiseAlarm(req) => AlarmResolvesWithoutTime(s, req, step.at, cooldown, id);
    case AcknowledgeEvent(_, _) =>
    case ChangeStatus(_, _, _) =>
    case ClearEvents(clearing) => CloseAllView(s, ClearedIds(s, clearing, |s.events|), step.at, id);
  }

  /** Event `id` is resolved after `k` steps. */
  predicate ResolvedAfter(steps: seq<Step>, cooldown: int, k: nat, id: nat)
    requires k <= |steps|
  {
    id < |Run(steps[..k], cooldown).events| && !Open(Run(steps[..k], cooldown).events[id])
  }

  /** Step `k` of the run resolves event `id`. */
  ghost predicate ResolvedIn(steps: seq<Step>, cooldown: int, k: nat, id: nat) {
    && k < |steps| && ResolvedAfter(steps, cooldown, k + 1, id)
    && id < |Run(steps[..k], cooldown).events| && !ResolvedAfter(steps, cooldown, k, id)
  }

  lemma NewEventIsOpen(s: Store, step: Step, cooldown: int, id: nat)
    requires |s.events| <= id < |Apply(s, step, cooldown).events|
    ensures Open(Apply(s, step, cooldown).events[id])
  {
  }

  lemma ResolvedEarlier(steps: seq<Step>, cooldown: int, n: nat, k: nat, id: nat)
    requires n <= |steps| && ResolvedIn(steps[..n], cooldown, k, id)
    ensures ResolvedIn(steps, cooldown, k, id)
  {
    assert steps[..n][..k] == steps[..k] && steps[..n][..k + 1] == steps[..k + 1];
  }

  /** What the last step of a run did to an event that is now resolved. */
  lemma LastStepResolves(steps: seq<Step>, cooldown: int, id: nat)
    requires id < |Run(steps, cooldown).events| && Run(steps, cooldown).events[id].status == Resolved
    ensures steps != []
    ensures var n := |steps| - 1; var s, e := Run(steps[..n], cooldown), Run(steps, cooldown).events[id];
            && id < |s.events|
            && if Open(s.events[id]) then ResolvedIn(steps, cooldown, n, id) && TimedBy(e, steps[n].op)
               else s.events[id].status == Resolved
                    && e.resolvedAt == s.events[id].resolvedAt && e.resolvedBy == s.events[id].resolvedBy
  {
    var n := |steps| - 1;
    var s := Run(steps[..n], cooldown);
    assert steps[..n + 1] == steps;
    RecordsFitTogether(steps[..n], cooldown);
    ApplyExtends(s, steps[n], cooldown);
    if id >= |s.events| {
      NewEventIsOpen(s, steps[n], cooldown, id);
    } else if Open(s.events[id]) {
      ResolvedWithTimeIff(s, steps[n], cooldown, id);
    }
  }

  /** In every run a resolved event was resolved by one step, and has a time iff that step raised no alarm. */
  lemma {:induction false} ResolvedEventHasTimeIff(steps: seq<Step>, cooldown: int, id: nat) returns (k: nat)
    requires id < |Run(steps, cooldown).events| && Run(steps, cooldown).events[id].status == Resolved
    ensures ResolvedIn(steps, cooldown, k, id)
    ensures forall j: nat | ResolvedIn(steps, cooldown, j, id) :: j == k
    ensures TimedBy(Run(steps, cooldown).events[id], steps[k].op)
  {
    LastStepResolves(steps, cooldown, id);
    var n := |steps| - 1;
    k := n;
    if !Open(Run(steps[..n], cooldown).events[id]) {
      k := ResolvedEventHasTimeIff(steps[..n], cooldown, id);
      ResolvedEarlier(steps, cooldown, n, k, id);
    }
    forall j: nat | ResolvedIn(steps, cooldown, j, id) ensures j == k {
      ResolvedOnce(steps, cooldown, j, k, id);
    }
  }

  lemma StaysResolved(steps: seq<Step>, cooldown: int, j: nat, k: nat, id: nat)
    requires j <= k <= |steps| && ResolvedAfter(steps, cooldown, j, id)
    ensures ResolvedAfter(steps, cooldown, k, id)
  {
    assert steps[..j] + steps[j..k] == steps[..k];
    RunsOnlyExtend(steps[..j], steps[j..k], cooldown);
  }

  lemma ResolvedOnce(steps: seq<Step>, cooldown: int, j: nat, k: nat, id: nat)
    requires ResolvedIn(steps, cooldown, j, id) && ResolvedIn(steps, cooldown, k, id)
    ensures j == k
  {
    if j < k { StaysResolved(steps, cooldown, j + 1, k, id); }
    if k < j { StaysResolved(steps, cooldown, k + 1, j, id); }
  }

  /** Two alarms more than twelve hours apart leave a resolved event without a time. */
  lemma SplitLeavesNoTime(at: int, cooldown: int)
    requires at > MERGE_WINDOW
    ensures var steps := [Step(RaiseAlarm(Tank(Warning)), 0), Step(RaiseAlarm(Tank(Warning)), at)];
            && Legal(steps)
            && |Run(steps, cooldown).events| == 2
            && Run(steps, cooldown).events[0].status == Resolved
            && Run(steps, cooldown).events[0].resolvedAt == None
  {
    var first, second := Step(RaiseAlarm(Tank(Warning)), 0), Step(RaiseAlarm(Tank(Warning)), at);
    RunOne([], first, cooldown);
    RunOne([first], second, cooldown);
    assert [] + [first] == [first] && [first] + [second] == [first, second] && Run([], cooldown) == EMPTY;
    assert Run([first], cooldown).events == [Fresh(Tank(Warning), 0, 0).event];
    assert FirstMatch(Run([first], cooldown).events, Tank(Warning), 0) == Some(0);
  }
}
