/** The event service as it runs: rows are created and updated in place, one statement after the other. */
module EventService {
  import opened Wrappers
  import opened RiskLevels
  import opened EventModel
  import Tables

  class EventDatabase {
    var events: seq<Event>
    var alarms: seq<Alarm>
    var logs: seq<LogEntry>
    var notices: seq<Notice>
    const cooldown: int

    ghost function Model(): Store
      reads this
    {
      Store(events, alarms, logs, notices)
    }

    constructor (cooldown: int)
      ensures Model() == EMPTY && this.cooldown == cooldown
    {
      this.cooldown := cooldown;
      events, alarms, logs, notices := [], [], [], [];
    }

    /** Creates the alarm record, log entry or notification of event `id`. */
    method RecordAlarm(req: Request, id: nat, now: int)
      modifies this`alarms
      ensures alarms == old(alarms) + [AlarmOf(req, id, now)]
    {
      alarms := alarms + [Alarm(id, req.facility, req.alarmType, req.source, req.worker, req.gasType, req.risk, now)];
    }

    method FindOpenEvent(req: Request) returns (found: Option<nat>)
      ensures found == FirstMatch(events, req, 0)
    {
      var i := 0;
      while i < |events|
        invariant 0 <= i <= |events|
        invariant FirstMatch(events, req, 0) == FirstMatch(events, req, i)
      {
        if Matches(events[i], req) {
          return Some(i);
        }
        i := i + 1;
      }
      return None;
    }

    /** `alarm` is the new alarm's position when a notification is due, None within the cooldown. */
    method CreateAlarmAndEvent(req: Request, now: int) returns (event: nat, alarm: Option<nat>)
      modifies this
      ensures var r := Create(old(Model()), req, now, cooldown);
              && Model() == r.store
              && event == r.event
              && alarm == if r.notified then Some(|old(alarms)|) else None
    {
      var found := FindOpenEvent(req);
      var active := found.Some?;
      if active {
        event := found.value;
        if !(now - events[event].firstDetected <= MERGE_WINDOW) {
          var previous := events[event].status;
          events := events[event := events[event].(status := Resolved)];
          logs := logs + [LogEntry(event, None, Closed, Some(previous), Resolved)];
          active := false;
        } else {
          RecordAlarm(req, event, now);
          var row := events[event].(lastDetected := req.detectedAt);
          var escalated := Rank(req.risk) > Rank(row.risk);
          if escalated {
            row := row.(risk := req.risk);
            logs := logs + [LogEntry(event, None, StatusChanged, Some(row.status), row.status)];
          }
          var renotify := escalated || row.lastNotified.None? || now - row.lastNotified.value >= cooldown;
          if renotify {
            events := events[event := row.(lastNotified := Some(now))];
            notices := notices + [Notice(event, req.risk, now)];
            return event, Some(|alarms| - 1);
          }
          events := events[event := row];
          return event, None;
        }
      }
      event := |events|;
      events := events + [Event(req.facility, req.alarmType, req.risk, Active, req.source, req.worker,
                                req.detectedAt, req.detectedAt, Some(now), None, None, None, None)];
      RecordAlarm(req, event, now);
      logs := logs + [LogEntry(event, None, Created, None, Active)];
      notices := notices + [Notice(event, req.risk, now)];
      alarm := Some(|alarms| - 1);
      assert found.Some? ==> notices == old(notices) + [] + [Notice(event, req.risk, now)];
      assert found.Some? ==> alarms == old(alarms) + [] + [AlarmOf(req, event, now)];
    }

    method AcknowledgeEvent(id: nat, actor: nat, now: int) returns (outcome: Result<(), Error>)
      modifies this
      ensures match Acknowledge(old(Model()), id, actor, now)
              case Ok(s) => outcome == Ok(()) && Model() == s
              case Err(e) => outcome == Err(e) && Model() == old(Model())
    {
      if id >= |events| {
        return Err(NotFound);
      }
      var row := events[id];
      if row.status != Active {
        return Err(NotActive);
      }
      var previous := row.status;
      row := row.(status := Acknowledged, acknowledgedBy := Some(actor), acknowledgedAt := Some(now));
      events := events[id := row];
      logs := logs + [LogEntry(id, Some(actor), Confirmed, Some(previous), Acknowledged)];
      assert alarms == old(alarms) + [] && notices == old(notices) + [];
      return Ok(());
    }

    method UpdateEventStatus(id: nat, actor: nat, to: Option<Status>, now: int) returns (outcome: Result<(), Error>)
      modifies this
      ensures match UpdateStatus(old(Model()), id, actor, to, now)
              case Ok(s) => outcome == Ok(()) && Model() == s
              case Err(e) => outcome == Err(e) && Model() == old(Model())
    {
      if id >= |events| {
        return Err(NotFound);
      }
      var row := events[id];
      if to.None? || !Allowed(row.status, to.value) {
        return Err(TransitionRefused);
      }
      var previous := row.status;
      row := row.(status := to.value);
      if to.value == InProgress && row.acknowledgedBy.None? {
        row := row.(acknowledgedBy := Some(actor), acknowledgedAt := Some(now));
      }
      if to.value == Resolved {
        row := row.(resolvedBy := Some(actor), resolvedAt := Some(now));
      }
      events := events[id := row];
      logs := logs + [LogEntry(id, Some(actor), ActionFor(to.value), Some(previous), to.value)];
      assert alarms == old(alarms) + [] && notices == old(notices) + [];
      return Ok(());
    }

    /** The gas types recorded for event `id`. */
    method EventGases(id: nat) returns (gases: set<string>)
      requires id < |events|
      ensures gases == Gases(Model(), id)
    {
      gases := {};
      ghost var own: seq<Alarm> := [];
      for i := 0 to |alarms|
        invariant own == Tables.Of(alarms[..i], OwnerOfAlarm, id)
        invariant gases == set a <- own | a.gasType != "" :: a.gasType
      {
        assert alarms[..i + 1] == alarms[..i] + [alarms[i]];
        Tables.OfAppend(alarms[..i], [alarms[i]], OwnerOfAlarm, id, alarms[i].event);
        if alarms[i].event == id {
          own := own + [alarms[i]];
          if alarms[i].gasType != "" {
            gases := gases + {alarms[i].gasType};
          }
        }
      }
      assert alarms[..|alarms|] == alarms;
    }

    method SelectCleared(c: Clearing) returns (ids: seq<nat>)
      requires Given(c.sensor) || Given(c.device)
      ensures ids == ClearedIds(Model(), c, |events|)
    {
      ids := [];
      for i := 0 to |events|
        invariant ids == ClearedIds(Model(), c, i)
      {
        var row := events[i];
        var gases := EventGases(i);
        if c.prefix <= row.eventType && row.status == Active
           && (if Given(c.sensor) then row.source.sensor == c.sensor else row.source.device == c.device)
           && (c.gases.None? || (gases != {} && gases <= c.gases.value)) {
          ids := ids + [i];
        }
      }
    }

    method CloseEvents(ids: seq<nat>, now: int)
      requires forall k | 0 <= k < |ids| :: ids[k] < |events|
      modifies this
      ensures Model() == CloseAll(old(Model()), ids, now)
    {
      ghost var s := Model();
      for k := 0 to |ids|
        invariant Model() == CloseAll(s, ids[..k], now)
      {
        assert ids[..k + 1][..k] == ids[..k];
        var row := events[ids[k]];
        var previous := row.status;
        events := events[ids[k] := row.(status := Resolved, resolvedAt := Some(now))];
        logs := logs + [LogEntry(ids[k], None, Closed, Some(previous), Resolved)];
        assert alarms == alarms + [] && notices == notices + [];
      }
      assert ids[..|ids|] == ids;
    }

    /** The two loops of the service's own body, one after the other. */
    method AutoResolveActiveEvents(c: Clearing, now: int) returns (resolved: nat)
      modifies this
      ensures (Model(), resolved) == AutoResolve(old(Model()), c, now)
    {
      if !Given(c.sensor) && !Given(c.device) {
        NothingNamed(Model(), c, |events|);
        return 0;
      }
      var ids := SelectCleared(c);
      CloseEvents(ids, now);
      return |ids|;
    }
  }

  lemma {:induction false} NothingNamed(s: Store, c: Clearing, n: nat)
    requires n <= |s.events| && !Given(c.sensor) && !Given(c.device)
    ensures ClearedIds(s, c, n) == []
  {
    if n > 0 { NothingNamed(s, c, n - 1); }
  }
}
