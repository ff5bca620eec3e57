/**
 The gas and power alarm tasks: write to the event store, retried as a whole while the database fails, then push
 once. `post` is None when the push never reaches the alarm server.
 */
module AlarmTasks {
  import opened Wrappers
  import opened AlarmQueue
  import opened Delivery
  import opened EventModel
  import opened EventService
  import Clock

  const MAX_RETRIES := 3
  const RETRY_DELAY := 5 * Clock.SECOND

  function SiteOf(db: EventDatabase, queue: AlarmStream): Site
    reads db, queue
  {
    Site(Store(db.events, db.alarms, db.logs, db.notices), Broker(queue.log, queue.trimmed, queue.keys))
  }

  /** The cached keys of the delayed warning tasks. */
  class PendingWarnings {
    var keys: set<string>

    constructor ()
      ensures keys == {}
    {
      keys := {};
    }
  }

  /**
   One attempt. A failed write leaves nothing behind and asks for another attempt, up to the third retry; whatever
   else happens meanwhile comes in between. A failed push is not repeated: that would write a second alarm record.
   */
  method AttemptAlarmTask(db: EventDatabase, queue: AlarmStream, req: Request, now: int, attempt: nat, dbFails: bool,
                          post: Option<XAdd>) returns (recorded: bool, retryAt: Option<int>)
    modifies db, queue
    ensures recorded <==> !dbFails
    ensures retryAt == if dbFails && attempt < 3 then Some(now + 5_000_000) else None
    ensures SiteOf(db, queue) ==
            Next(old(SiteOf(db, queue)), if dbFails then FailedWrite(now) else Task(req, now, post), db.cooldown)
  {
    if dbFails {
      return false, if attempt < MAX_RETRIES then Some(now + RETRY_DELAY) else None;
    }
    var event, alarm := db.CreateAlarmAndEvent(req, now);
    if alarm.Some? && post.Some? {
      var _ := queue.PushAlarm(AlarmPayloadOf(event, req.alarmType, req.risk), now, PUSH_DEDUP_TTL, post.value);
    }
    return true, None;
  }

  /** The attempts of one task, when nothing else happens in between. */
  method FireAlarmTask(db: EventDatabase, queue: AlarmStream, req: Request, start: int, outages: nat,
                       post: Option<XAdd>) returns (recorded: bool)
    modifies db, queue
    ensures recorded <==> outages <= MAX_RETRIES
    ensures SiteOf(db, queue) ==
            if outages > MAX_RETRIES then old(SiteOf(db, queue))
            else Next(old(SiteOf(db, queue)), Task(req, start + outages * RETRY_DELAY, post), db.cooldown)
  {
    var now, attempt := start, 0;
    while true
      invariant 0 <= attempt <= outages && attempt <= MAX_RETRIES
      invariant now == start + attempt * RETRY_DELAY
      invariant SiteOf(db, queue) == old(SiteOf(db, queue))
      decreases MAX_RETRIES - attempt
    {
      var done, retryAt := AttemptAlarmTask(db, queue, req, now, attempt, attempt < outages, post);
      if retryAt.None? {
        return done;
      }
      attempt, now := attempt + 1, retryAt.value;
    }
  }

  /** The warning task also removes its own key, whatever became of the push, in the attempt that writes. */
  method AttemptWarningTask(db: EventDatabase, queue: AlarmStream, pending: PendingWarnings, key: string, req: Request,
                            now: int, attempt: nat, dbFails: bool, post: Option<XAdd>) returns (retryAt: Option<int>)
    modifies db, queue, pending
    ensures retryAt == if dbFails && attempt < MAX_RETRIES then Some(now + RETRY_DELAY) else None
    ensures SiteOf(db, queue) ==
            Next(old(SiteOf(db, queue)), if dbFails then FailedWrite(now) else Task(req, now, post), db.cooldown)
    ensures pending.keys == if dbFails then old(pending.keys) else old(pending.keys) - {key}
  {
    var recorded: bool;
    recorded, retryAt := AttemptAlarmTask(db, queue, req, now, attempt, dbFails, post);
    if recorded {
      pending.keys := pending.keys - {key};
    }
  }
}
