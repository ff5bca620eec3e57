/**
 The event store: events, alarm records, the append-only event log and the
 notifications sent, with one atomic transaction per service operation.
 An event's id is its position in the event table, which
 is also the order in which `first()` looks at events.
 */
module EventModel {
  import opened Wrappers
  import opened RiskLevels
  import Clock
  import Tables

  datatype Status = Active | Acknowledged | InProgress | Resolved

  datatype Action = Created | Confirmed | StatusChanged | Closed

  const MERGE_WINDOW := 12 * Clock.HOUR

  function Stage(status: Status): nat {
    match status case Active => 0 case Acknowledged => 1 case InProgress => 2 case Resolved => 3
  }

  datatype Source = Source(sensor: Option<nat>, device: Option<nat>, geofence: Option<nat>)

  /** The arguments of create_alarm_and_event that decide what happens to the event. */
  datatype Request = Request(facility: nat, alarmType: string, source: Source, worker: Option<nat>,
                             gasType: string, risk: Risk, detectedAt: int)

  datatype Event = Event(facility: nat, eventType: string, risk: Risk, status: Status, source: Source,
                         worker: Option<nat>, firstDetected: int, lastDetected: int, lastNotified: Option<int>,
                         acknowledgedBy: Option<nat>, acknowledgedAt: Option<int>,
                         resolvedBy: Option<nat>, resolvedAt: Option<int>)

  datatype Alarm = Alarm(event: nat, facility: nat, alarmType: string, source: Source, worker: Option<nat>,
                         gasType: string, risk: Risk, recordedAt: int)

  datatype LogEntry = LogEntry(event: nat, actor: Option<nat>, action: Action, previous: Option<Status>, next: Status)

  /** One notification, as sent: its risk is the risk of the alarm that caused it. */
  datatype Notice = Notice(event: nat, risk: Risk, at: int)

  datatype Store = Store(events: seq<Event>, alarms: seq<Alarm>, logs: seq<LogEntry>, notices: seq<Notice>)

  const EMPTY := Store([], [], [], [])

  const OwnerOfAlarm: Alarm -> nat := (a: Alarm) => a.event
  const OwnerOfLog: LogEntry -> nat := (l: LogEntry) => l.event
  const OwnerOfNotice: Notice -> nat := (n: Notice) => n.event

  // ---------------------------------------------------------------------------
  // Row changes of one transaction, for one event
  // ---------------------------------------------------------------------------

  datatype Delta = Delta(event: Event, alarms: seq<Alarm>, logs: seq<LogEntry>, notices: seq<Notice>)

  function AlarmOf(req: Request, id: nat, now: int): Alarm {
    Alarm(id, req.facility, req.alarmType, req.source, req.worker, req.gasType, req.risk, now)
  }

  predicate Mergeable(e: Event, now: int) {
    now - e.firstDetected <= MERGE_WINDOW
  }

  /** An alarm joins an open event. */
  function Merge(e: Event, id: nat, req: Request, now: int, cooldown: int): Delta {
    var escalated := Rank(req.risk) > Rank(e.risk);
    var renotify := escalated || e.lastNotified.None? || now - e.lastNotified.value >= cooldown;
    Delta(e.(lastDetected := req.detectedAt,
             risk := if escalated then req.risk else e.risk,
             lastNotified := if renotify then Some(now) else e.lastNotified),
          [AlarmOf(req, id, now)],
          if escalated then [LogEntry(id, None, StatusChanged, Some(e.status), e.status)] else [],
          if renotify then [Notice(id, req.risk, now)] else [])
  }

  /** An alarm starts a new event. */
  function Fresh(req: Request, id: nat, now: int): Delta {
    Delta(Event(req.facility, req.alarmType, req.risk, Active, req.source, req.worker,
                req.detectedAt, req.detectedAt, Some(now), None, None, None, None),
          [AlarmOf(req, id, now)],
          [LogEntry(id, None, Created, None, Active)],
          [Notice(id, req.risk, now)])
  }

  /** A change of status and its log entry. */
  function Advance(e: Event, e': Event, id: nat, actor: Option<nat>, action: Action): Delta {
    Delta(e', [], [LogEntry(id, actor, action, Some(e.status), e'.status)], [])
  }

  /** The forced split closes the event but leaves resolvedAt unset. */
  function Split(e: Event, id: nat): Delta {
    Advance(e, e.(status := Resolved), id, None, Closed)
  }

  function Acknowledgement(e: Event, id: nat, actor: nat, now: int): Delta {
    Advance(e, e.(status := Acknowledged, acknowledgedBy := Some(actor), acknowledgedAt := Some(now)),
            id, Some(actor), Confirmed)
  }

  predicate Allowed(from: Status, to: Status) {
    match from
    case Active => to != Active
    case Acknowledged => to == InProgress || to == Resolved
    case InProgress => to == Resolved
    case Resolved => false
  }

  function ActionFor(to: Status): Action {
    match to
    case Acknowledged => Confirmed
    case Resolved => Closed
    case _ => StatusChanged
  }

  /** The status view: moving to Acknowledged here does not record who acknowledged. */
  function StatusUpdate(e: Event, id: nat, actor: nat, to: Status, now: int): Delta {
    var e1 := e.(status := to);
    var e2 := if to == InProgress && e.acknowledgedBy.None?
              then e1.(acknowledgedBy := Some(actor), acknowledgedAt := Some(now)) else e1;
    var e3 := if to == Resolved then e2.(resolvedBy := Some(actor), resolvedAt := Some(now)) else e2;
    Advance(e, e3, id, Some(actor), ActionFor(to))
  }

  function AutoClose(e: Event, id: nat, now: int): Delta {
    Advance(e, e.(status := Resolved, resolvedAt := Some(now)), id, None, Closed)
  }

  // ---------------------------------------------------------------------------
  // Transactions on the store
  // ---------------------------------------------------------------------------

  function Append(s: Store, d: Delta): Store {
    s.(alarms := s.alarms + d.alarms, logs := s.logs + d.logs, notices := s.notices + d.notices)
  }

  function Put(s: Store, id: nat, d: Delta): Store
    requires id < |s.events|
  {
    Append(s, d).(events := s.events[id := d.event])
  }

  function Insert(s: Store, d: Delta): Store {
    Append(s, d).(events := s.events + [d.event])
  }

  /** Python's truth value of an optional id: None and 0 are false. */
  predicate Given(id: Option<nat>) {
    id.Some? && id.value != 0
  }

  /** The query filter for the event an alarm may join. */
  predicate Matches(e: Event, req: Request) {
    && e.facility == req.facility
    && e.eventType == req.alarmType
    && e.status != Resolved
    && (if Given(req.source.sensor) then e.source.sensor == req.source.sensor
        else if Given(req.source.device) then e.source.device == req.source.device
        else if Given(req.source.geofence) then
          e.source.geofence == req.source.geofence && (Given(req.worker) ==> e.worker == req.worker)
        else true)
  }

  /** The first match with id at least `from`. */
  function FirstMatch(events: seq<Event>, req: Request, from: nat): (r: Option<nat>)
    requires from <= |events|
    ensures r.Some? ==> from <= r.value < |events| && Matches(events[r.value], req)
    ensures r.None? ==> forall i | from <= i < |events| :: !Matches(events[i], req)
    ensures r.Some? ==> forall i | from <= i < r.value :: !Matches(events[i], req)
    decreases |events| - from
  {
    if from == |events| then None
    else if Matches(events[from], req) then Some(from)
    else FirstMatch(events, req, from + 1)
  }

  datatype CreateResult = CreateResult(store: Store, event: nat, notified: bool)

  function Create(s: Store, req: Request, now: int, cooldown: int): CreateResult {
    match FirstMatch(s.events, req, 0)
    case None => CreateResult(Insert(s, Fresh(req, |s.events|, now)), |s.events|, true)
    case Some(i) =>
      if Mergeable(s.events[i], now) then
        var d := Merge(s.events[i], i, req, now, cooldown);
        CreateResult(Put(s, i, d), i, d.notices != [])
      else
        CreateResult(Insert(Put(s, i, Split(s.events[i], i)), Fresh(req, |s.events|, now)), |s.events|, true)
  }

  datatype Error = NotFound | NotActive | TransitionRefused

  function Acknowledge(s: Store, id: nat, actor: nat, now: int): Result<Store, Error> {
    if id >= |s.events| then Err(NotFound)
    else if s.events[id].status != Active then Err(NotActive)
    else Ok(Put(s, id, Acknowledgement(s.events[id], id, actor, now)))
  }

  /** `to` is None when the request names no known status. */
  function UpdateStatus(s: Store, id: nat, actor: nat, to: Option<Status>, now: int): Result<Store, Error> {
    if id >= |s.events| then Err(NotFound)
    else if to.None? || !Allowed(s.events[id].status, to.value) then Err(TransitionRefused)
    else Ok(Put(s, id, StatusUpdate(s.events[id], id, actor, to.value, now)))
  }

  /** The gas types recorded for an event, empty names left out. */
  function Gases(s: Store, id: nat): set<string> {
    set a <- Tables.Of(s.alarms, OwnerOfAlarm, id) | a.gasType != "" :: a.gasType
  }

  datatype Clearing = Clearing(prefix: string, sensor: Option<nat>, device: Option<nat>, gases: Option<set<string>>)

  /** The events an auto-resolve closes. */
  predicate Cleared(s: Store, c: Clearing, id: nat)
    requires id < |s.events|
  {
    var e := s.events[id];
    && c.prefix <= e.eventType
    && e.status == Active
    && (if Given(c.sensor) then e.source.sensor == c.sensor
        else Given(c.device) && e.source.device == c.device)
    && (c.gases.Some? ==> Gases(s, id) != {} && Gases(s, id) <= c.gases.value)
  }

  /** The ids below `n` that the clearing selects, in ascending order. */
  function ClearedIds(s: Store, c: Clearing, n: nat): (ids: seq<nat>)
    requires n <= |s.events|
    ensures forall k | 0 <= k < |ids| :: ids[k] < n && Cleared(s, c, ids[k])
    ensures forall i: nat | i < n && Cleared(s, c, i) :: i in ids
    ensures forall j, k | 0 <= j < k < |ids| :: ids[j] < ids[k]
  {
    if n == 0 then []
    else if Cleared(s, c, n - 1) then ClearedIds(s, c, n - 1) + [n - 1]
    else ClearedIds(s, c, n - 1)
  }

  /** Closes the events of `ids` one by one. */
  function CloseAll(s: Store, ids: seq<nat>, now: int): (r: Store)
    requires forall k | 0 <= k < |ids| :: ids[k] < |s.events|
    ensures |r.events| == |s.events|
  {
    if ids == [] then s else
      var rest := CloseAll(s, ids[..|ids| - 1], now);
      var id := ids[|ids| - 1];
      Put(rest, id, AutoClose(rest.events[id], id, now))
  }

  /** The store after an auto-resolve, and the number of events it closed. */
  function AutoResolve(s: Store, c: Clearing, now: int): (Store, nat) {
    var ids := ClearedIds(s, c, |s.events|);
    (CloseAll(s, ids, now), |ids|)
  }
}
