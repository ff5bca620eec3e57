/**
 What happens to one event: its row together with its alarms, its log and its
 notifications. Every transaction extends the history of each event it touches by
 one Delta, so the laws of an event's life are proved one Delta at a time.
 */
module EventHistory {
  import opened Wrappers
  import opened RiskLevels
  import opened EventModel

  datatype History = History(event: Event, alarms: seq<Alarm>, logs: seq<LogEntry>, notices: seq<Notice>)

  function Start(d: Delta): History {
    History(d.event, d.alarms, d.logs, d.notices)
  }

  function Extend(h: History, d: Delta): History {
    History(d.event, h.alarms + d.alarms, h.logs + d.logs, h.notices + d.notices)
  }

  // ---------------------------------------------------------------------------
  // Merge keys
  // ---------------------------------------------------------------------------

  /** Facility, type and source; for a geofence also the worker who entered it. */
  datatype MergeKey = MergeKey(facility: nat, eventType: string, source: Source, worker: Option<nat>)

  function KeyOf(facility: nat, eventType: string, source: Source, worker: Option<nat>): MergeKey {
    MergeKey(facility, eventType, source, if source.geofence.Some? then worker else None)
  }

  function EventKey(e: Event): MergeKey { KeyOf(e.facility, e.eventType, e.source, e.worker) }

  function AlarmKey(a: Alarm): MergeKey { KeyOf(a.facility, a.alarmType, a.source, a.worker) }

  function RequestKey(r: Request): MergeKey { KeyOf(r.facility, r.alarmType, r.source, r.worker) }

  /** Exactly one source id, and a worker when the source is a geofence. */
  predicate ValidSource(source: Source, worker: Option<nat>) {
    match source
    case Source(Some(s), None, None) => s != 0
    case Source(None, Some(d), None) => d != 0
    case Source(None, None, Some(g)) => g != 0 && Given(worker)
    case _ => false
  }

  predicate ValidRequest(r: Request) { ValidSource(r.source, r.worker) }

  // ---------------------------------------------------------------------------
  // The laws of one event's life
  // ---------------------------------------------------------------------------

  /** Every alarm that was merged into the event has the event's key. */
  ghost predicate Keyed(h: History) {
    && ValidSource(h.event.source, h.event.worker)
    && forall a <- h.alarms :: AlarmKey(a) == EventKey(h.event)
  }

  /** The event's risk is the greatest risk among its alarms. */
  ghost predicate RiskIsMaximum(h: History) {
    && (forall a <- h.alarms :: Rank(a.risk) <= Rank(h.event.risk))
    && (exists a <- h.alarms :: a.risk == h.event.risk)
  }

  /** Every alarm after the first was recorded within the merge window. */
  ghost predicate InWindow(h: History) {
    && h.alarms != []
    && forall k | 0 < k < |h.alarms| :: h.alarms[k].recordedAt <= h.event.firstDetected + MERGE_WINDOW
  }

  /** Entry `b` may directly follow entry `a` in the log of one event. */
  predicate Link(a: LogEntry, b: LogEntry) {
    && b.action != Created
    && b.previous == Some(a.next)
    && a.next != Resolved
    && (Stage(a.next) < Stage(b.next) || (a.next == b.next && b.action == StatusChanged))
    && (b.action == Closed <==> b.next == Resolved)
    && (b.action == Confirmed <==> a.next == Active && b.next == Acknowledged)
  }

  /** The log tells the whole story of the status: created active, no gap, no step back, ends at `status`. */
  ghost predicate Chained(logs: seq<LogEntry>, status: Status) {
    && logs != []
    && logs[0].action == Created && logs[0].previous == None && logs[0].next == Active
    && logs[|logs| - 1].next == status
    && forall k | 0 < k < |logs| :: Link(logs[k - 1], logs[k])
  }

  /** How far the event's risk has risen since its first alarm; each escalation adds at least one. */
  function Rise(h: History): int
    requires h.alarms != []
  {
    Rank(h.event.risk) - Rank(h.alarms[0].risk)
  }

  /** In time order, and notifications of the same risk at least one cooldown apart. */
  ghost predicate Spaced(notices: seq<Notice>, cooldown: int) {
    forall j, k | 0 <= j < k < |notices| ::
      && notices[j].at <= notices[k].at
      && (notices[j].risk == notices[k].risk ==> notices[k].at - notices[j].at >= cooldown)
  }

  /** Notifications: at the creation, then at escalations and at cooldown-spaced repeats, none after `t`. */
  ghost predicate Paced(h: History, cooldown: int, t: int) {
    var n := |h.notices|;
    && h.alarms != [] && n > 0
    && h.notices[0].at == h.alarms[0].recordedAt
    && h.event.lastNotified == Some(h.notices[n - 1].at)
    && h.notices[n - 1].at <= t
    && (n > 1 ==> h.notices[n - 1].at <= h.event.firstDetected + MERGE_WINDOW)
    && (forall j | 0 <= j < n :: Rank(h.notices[j].risk) <= Rank(h.event.risk))
    && Spaced(h.notices, cooldown)
  }

  /** Each notification after the first is paid for by a rise in risk or by a cooldown of waiting. */
  ghost predicate WithinBudget(h: History, cooldown: int) {
    && h.alarms != [] && h.notices != []
    && (|h.notices| - 1 - Rise(h)) * cooldown <= h.notices[|h.notices| - 1].at - h.notices[0].at
  }

  ghost predicate Lawful(h: History, cooldown: int, t: int) {
    && Keyed(h)
    && RiskIsMaximum(h)
    && InWindow(h)
    && Chained(h.logs, h.event.status)
    && Paced(h, cooldown, t)
    && WithinBudget(h, cooldown)
  }

  // ---------------------------------------------------------------------------
  // Every Delta keeps the laws
  // ---------------------------------------------------------------------------

  lemma FreshIsLawful(req: Request, id: nat, now: int, cooldown: int)
    requires ValidRequest(req) && cooldown > 0
    ensures Lawful(Start(Fresh(req, id, now)), cooldown, now)
  {
  }

  lemma ChainGrows(logs: seq<LogEntry>, entry: LogEntry, status: Status)
    requires Chained(logs, status) && Link(logs[|logs| - 1], entry)
    ensures Chained(logs + [entry], entry.next)
  {
  }

  lemma MergePaces(h: History, id: nat, req: Request, now: int, cooldown: int, t: int)
    requires Paced(h, cooldown, t) && t <= now
    requires Mergeable(h.event, now)
    ensures Paced(Extend(h, Merge(h.event, id, req, now, cooldown)), cooldown, now)
  {
  }

  lemma MergeStaysWithinBudget(h: History, id: nat, req: Request, now: int, cooldown: int, t: int)
    requires Paced(h, cooldown, t) && WithinBudget(h, cooldown) && t <= now && cooldown > 0
    ensures WithinBudget(Extend(h, Merge(h.event, id, req, now, cooldown)), cooldown)
  {
    var d := Merge(h.event, id, req, now, cooldown);
    var h' := Extend(h, d);
    var n := |h.notices|;
    if d.notices == [] {
      assert h'.notices == h.notices;
    } else {
      OneMoreNotice(n - 1 - Rise(h), n - Rise(h'), cooldown,
                    h.notices[n - 1].at - h.notices[0].at, now - h.notices[n - 1].at);
    }
  }

  /** `paid` counts the notifications that waited a cooldown; one more of them waited at least one more. */
  lemma OneMoreNotice(paid: int, paid': int, cooldown: int, span: int, gap: int)
    requires cooldown > 0 && gap >= 0
    requires paid' <= paid || (paid' == paid + 1 && gap >= cooldown)
    requires paid * cooldown <= span
    ensures paid' * cooldown <= span + gap
  {
  }

  lemma MergeIsLawful(h: History, id: nat, req: Request, now: int, cooldown: int, t: int)
    requires Lawful(h, cooldown, t) && t <= now && cooldown > 0
    requires RequestKey(req) == EventKey(h.event) && h.event.status != Resolved && Mergeable(h.event, now)
    ensures Lawful(Extend(h, Merge(h.event, id, req, now, cooldown)), cooldown, now)
  {
    var d := Merge(h.event, id, req, now, cooldown);
    var h' := Extend(h, d);
    MergePaces(h, id, req, now, cooldown, t);
    MergeStaysWithinBudget(h, id, req, now, cooldown, t);
    if d.logs == [] {
      assert h'.logs == h.logs;
    } else {
      ChainGrows(h.logs, d.logs[0], h.event.status);
    }
    MergeMaximum(h, id, req, now, cooldown);
  }

  lemma MergeMaximum(h: History, id: nat, req: Request, now: int, cooldown: int)
    requires RiskIsMaximum(h)
    ensures RiskIsMaximum(Extend(h, Merge(h.event, id, req, now, cooldown)))
  {
  }

  /** Any allowed status change keeps the laws: it adds one log entry and touches nothing else they speak of. */
  lemma AdvanceIsLawful(h: History, e': Event, id: nat, actor: Option<nat>, action: Action,
                        cooldown: int, t: int, now: int)
    requires Lawful(h, cooldown, t) && t <= now
    requires e'.(status := h.event.status, acknowledgedBy := h.event.acknowledgedBy,
                 acknowledgedAt := h.event.acknowledgedAt, resolvedBy := h.event.resolvedBy,
                 resolvedAt := h.event.resolvedAt) == h.event
    requires Link(LogEntry(id, None, Created, None, h.event.status),
                  LogEntry(id, actor, action, Some(h.event.status), e'.status))
    ensures Lawful(Extend(h, Advance(h.event, e', id, actor, action)), cooldown, now)
  {
  }

  // ---------------------------------------------------------------------------
  // Consequences
  // ---------------------------------------------------------------------------

  /** How many entries after the first record a change of status. */
  function StatusChanges(logs: seq<LogEntry>): nat {
    if |logs| <= 1 then 0 else
      var last := logs[|logs| - 1];
      StatusChanges(logs[..|logs| - 1]) + (if last.previous != Some(last.next) then 1 else 0)
  }

  lemma {:induction false} StatusChangesAtMostThree(logs: seq<LogEntry>, status: Status)
    requires Chained(logs, status)
    ensures StatusChanges(logs) <= Stage(status) <= 3
  {
    if |logs| > 1 {
      var init := logs[..|logs| - 1];
      assert Link(logs[|logs| - 2], logs[|logs| - 1]);
      assert Chained(init, init[|init| - 1].next);
      StatusChangesAtMostThree(init, init[|init| - 1].next);
    }
  }

  /** The time left for repeats: from the creation to the end of the merge window, if that lies ahead. */
  function Room(h: History): nat
    requires h.alarms != []
  {
    var room := h.event.firstDetected + MERGE_WINDOW - h.alarms[0].recordedAt;
    if room > 0 then room else 0
  }

  /** One notification for the creation, one for each escalation, and the repeats that fit into the room. */
  lemma NotificationBudget(h: History, cooldown: int, t: int)
    requires Paced(h, cooldown, t) && WithinBudget(h, cooldown) && cooldown > 0
    ensures |h.notices| <= 1 + Rise(h) + Room(h) / cooldown
  {
    var repeats := |h.notices| - 1 - Rise(h);
    if repeats > 0 && |h.notices| > 1 {
      assert repeats * cooldown <= Room(h);
      DivisionBound(repeats, cooldown, Room(h));
    }
  }

  lemma DivisionBound(k: int, d: int, total: int)
    requires d > 0 && k * d <= total
    ensures k <= total / d
  {
    var q := total / d;
    assert total < q * d + d;
    assert q * d + d - k * d == (q + 1 - k) * d;
    Positive(q + 1 - k, d);
  }

  lemma Positive(x: int, d: int)
    requires d > 0 && x * d > 0
    ensures x > 0
  {
  }
}
