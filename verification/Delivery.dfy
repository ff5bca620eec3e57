/**
 From the event service to the stream: the gas and power tasks write to the event store and, when the service
 decides to notify, push the alarm; a payload may be sent again within the deduplication TTL; the status view
 pushes a resolution. The stream is shared: other producers push what they like about anything else, entries
 that do not decode turn up, and alarms of other types are raised and announced elsewhere. Writes and pushes fail.
 */
module Delivery {
  import opened Wrappers
  import opened RiskLevels
  import opened AlarmPayload
  import opened AlarmQueue
  import opened EventModel
  import opened EventHistory
  import Runs = EventRuns
  import Theorems = EventTheorems
  import Tables

  datatype Site = Site(store: Store, broker: Broker)

  const IDLE_SITE := Site(EMPTY, NO_ALARMS)

  function AtRisk(event: nat, risk: Risk): Identity { EventAtRisk(event, RiskText(risk)) }

  function AlarmPayloadOf(event: nat, alarmType: string, risk: Risk): Payload {
    Payload(Some(event), Some(RiskText(risk)), None, Some(alarmType), None, Some("static_legacy"), None)
  }

  function ResolvedPayloadOf(event: nat, e: Event): Payload {
    Payload(Some(event), Some(RiskText(e.risk)), Some("resolved_at"), Some(e.eventType), None, None, None)
  }

  /** The alarm types that the gas and power tasks, and nobody else, raise and announce. */
  predicate TaskType(alarmType: string) { alarmType == "gas_threshold" || alarmType == "power_overload" }

  predicate Ours(s: Store, id: nat) { id < |s.events| ==> TaskType(s.events[id].eventType) }

  /** `post` is the fate of the push, should there be one; None: it never reaches the alarm server. */
  datatype Step =
    | Task(req: Request, at: int, post: Option<XAdd>)
    | FailedWrite(at: int)
    | Resend(notice: nat, at: int, post: Option<XAdd>)
    | Status(id: nat, actor: nat, to: Option<EventModel.Status>, at: int, post: Option<XAdd>)
    | Foreign(payload: Payload, at: int, xadd: XAdd)
    | Garbage(at: int, trimTo: nat)
    | Other(op: Runs.Op, at: int)

  function Posted(b: Broker, p: Payload, at: int, post: Option<XAdd>): Broker {
    if post.None? then b else Push(b, p, at, PUSH_DEDUP_TTL, post.value).0
  }

  function Next(s: Site, step: Step, cooldown: int): Site {
    match step
    case Task(req, at, post) =>
      var r := Create(s.store, req, at, cooldown);
      var p := AlarmPayloadOf(r.event, req.alarmType, req.risk);
      Site(r.store, if r.notified then Posted(s.broker, p, at, post) else s.broker)
    case FailedWrite(_) => s
    case Resend(k, at, post) =>
      if k < |s.store.notices| && s.store.notices[k].event < |s.store.events| then
        var n := s.store.notices[k];
        s.(broker := Posted(s.broker, AlarmPayloadOf(n.event, s.store.events[n.event].eventType, n.risk), at, post))
      else s
    case Status(id, actor, to, at, post) =>
      (match UpdateStatus(s.store, id, actor, to, at)
       case Err(_) => s
       case Ok(store) =>
         var p := ResolvedPayloadOf(id, store.events[id]);
         Site(store, if to == Some(Resolved) then Posted(s.broker, p, at, post) else s.broker))
    case Foreign(p, at, xadd) => s.(broker := Posted(s.broker, p, at, Some(xadd)))
    case Garbage(at, trimTo) => s.(broker := Add(s.broker, Entry(None, at), trimTo))
    case Other(op, at) => s.(store := Runs.Apply(s.store, Runs.Step(op, at), cooldown))
  }

  function Run(steps: seq<Step>, cooldown: int): Site {
    if steps == [] then IDLE_SITE else Next(Run(steps[..|steps| - 1], cooldown), steps[|steps| - 1], cooldown)
  }

  // ---------------------------------------------------------------------------
  // Which runs are legal
  // ---------------------------------------------------------------------------

  /** What becomes of a notification's push: never posted, lost to a failed XADD, sent, or left to another producer. */
  datatype Fate = Unposted | Lost | Sent | Elsewhere

  function FateOf(post: Option<XAdd>): Fate {
    if post.None? then Unposted else if post.value.Fails? then Fate.Lost else Sent
  }

  /** The fates of the notifications that a step adds. */
  function NewFates(s: Site, step: Step, cooldown: int): seq<Fate> {
    match step
    case Task(req, at, post) => if Create(s.store, req, at, cooldown).notified then [FateOf(post)] else []
    case Other(RaiseAlarm(req), at) => if Create(s.store, req, at, cooldown).notified then [Elsewhere] else []
    case _ => []
  }

  /** One fate for each notification of the run. */
  function Fates(steps: seq<Step>, cooldown: int): seq<Fate> {
    if steps == [] then []
    else
      var init := steps[..|steps| - 1];
      Fates(init, cooldown) + NewFates(Run(init, cooldown), steps[|steps| - 1], cooldown)
  }

  const POSTED := {Fate.Lost, Sent}
  const ARRIVED := {Sent}

  /** Other producers announce no resolutions, and alarms only of events that are none of the tasks' own. */
  predicate FromOutside(s: Store, p: Payload) {
    match Identify(p)
    case Some(EventResolved(_)) => false
    case Some(EventAtRisk(e, risk)) => risk != "resolved" && 0 <= e < |s.events| && !TaskType(s.events[e].eventType)
    case _ => true
  }

  predicate LegalStep(s: Site, fates: seq<Fate>, step: Step) {
    match step
    case Task(req, _, _) => ValidRequest(req) && TaskType(req.alarmType)
    case FailedWrite(_) => true
    case Resend(k, at, _) =>
      k < |s.store.notices| == |fates| ==> fates[k] in POSTED && at < s.store.notices[k].at + PUSH_DEDUP_TTL
    case Status(_, _, _, _, _) => true
    case Foreign(p, _, _) => FromOutside(s.store, p)
    case Garbage(_, _) => true
    case Other(op, _) =>
      if op.RaiseAlarm? then ValidRequest(op.req) && !TaskType(op.req.alarmType) else !op.ChangeStatus?
  }

  /**
   Clock in order, valid requests, and a payload is only sent again after it was posted and within the TTL of its
   notification.
   */
  ghost predicate Legal(steps: seq<Step>, cooldown: int) {
    steps != [] ==>
      var init, last := steps[..|steps| - 1], steps[|steps| - 1];
      && Legal(init, cooldown)
      && (init != [] ==> init[|init| - 1].at <= last.at)
      && LegalStep(Run(init, cooldown), Fates(init, cooldown), last)
  }

  // ---------------------------------------------------------------------------
  // What reached the stream
  // ---------------------------------------------------------------------------

  /** The times of the stream entries that announce `i`. */
  function EntryTimes(log: seq<Entry>, i: Identity): seq<int> {
    if log == [] then []
    else
      var rest := EntryTimes(log[..|log| - 1], i);
      var e := log[|log| - 1];
      if e.data.Some? && Identify(e.data.value) == Some(i) then rest + [e.at] else rest
  }

  /** The times of all notifications of one event at one risk. */
  function Notified(notices: seq<Notice>, id: nat, risk: Risk): seq<int> {
    if notices == [] then []
    else
      var rest := Notified(notices[..|notices| - 1], id, risk);
      var n := notices[|notices| - 1];
      if n.event == id && n.risk == risk then rest + [n.at] else rest
  }

  /** The times of those whose fate is one of `which`. */
  function NoticeTimes(notices: seq<Notice>, fates: seq<Fate>, id: nat, risk: Risk, which: set<Fate>): seq<int>
    requires |notices| == |fates|
  {
    if notices == [] then []
    else
      var last := |notices| - 1;
      var rest := NoticeTimes(notices[..last], fates[..last], id, risk, which);
      var n := notices[last];
      if n.event == id && n.risk == risk && fates[last] in which then rest + [n.at] else rest
  }

  /** The key lasts exactly one TTL beyond the last of the times, and does not exist before the first. */
  predicate Tracks(keys: map<string, int>, key: string, times: seq<int>) {
    if times == [] then key !in keys else key in keys && keys[key] == times[|times| - 1] + PUSH_DEDUP_TTL
  }

  /** The stream holds exactly the arrived alarms of an event at a risk, and its key follows the posted ones. */
  predicate Tells(b: Broker, id: nat, risk: Risk, posted: seq<int>, arrived: seq<int>) {
    EntryTimes(b.log, AtRisk(id, risk)) == arrived && Tracks(b.keys, Key(AtRisk(id, risk)), posted)
  }

  ghost predicate StreamTells(s: Site, fates: seq<Fate>)
    requires |s.store.notices| == |fates|
  {
    forall id: nat, risk | Ours(s.store, id) ::
      Tells(s.broker, id, risk, NoticeTimes(s.store.notices, fates, id, risk, POSTED),
            NoticeTimes(s.store.notices, fates, id, risk, ARRIVED))
  }

  ghost predicate ResolutionsFollow(s: Site) {
    forall id: nat | Key(EventResolved(id)) in s.broker.keys ::
      id < |s.store.events| && s.store.events[id].status == Resolved
  }

  /** Notifications come in time order, and those the tasks announce are of the tasks' events. */
  ghost predicate NoticesFit(s: Store, fates: seq<Fate>, t: int) {
    && |s.notices| == |fates|
    && (forall j, k | 0 <= j < k < |s.notices| :: s.notices[j].at <= s.notices[k].at)
    && (forall k | 0 <= k < |s.notices| :: s.notices[k].at <= t && s.notices[k].event < |s.events|)
    && (forall k | 0 <= k < |s.notices| && fates[k] != Elsewhere :: Ours(s, s.notices[k].event))
  }

  ghost predicate Good(s: Site, fates: seq<Fate>, cooldown: int, t: int) {
    Runs.Inv(s.store, cooldown, t) && NoticesFit(s.store, fates, t) && StreamTells(s, fates) && ResolutionsFollow(s)
  }

  lemma NoticeTimesGrow(notices: seq<Notice>, fates: seq<Fate>, n: Notice, fate: Fate, id: nat, risk: Risk,
                        which: set<Fate>)
    requires |notices| == |fates|
    ensures NoticeTimes(notices + [n], fates + [fate], id, risk, which) ==
            NoticeTimes(notices, fates, id, risk, which) +
            (if n.event == id && n.risk == risk && fate in which then [n.at] else [])
  {
    assert (notices + [n])[..|notices|] == notices && (fates + [fate])[..|fates|] == fates;
  }

  lemma EntryTimesGrow(log: seq<Entry>, e: Entry, i: Identity)
    ensures EntryTimes(log + [e], i) ==
            EntryTimes(log, i) + (if e.data.Some? && Identify(e.data.value) == Some(i) then [e.at] else [])
  {
    assert (log + [e])[..|log|] == log;
  }

  /** The last of the times belongs to one of the notifications. */
  lemma {:induction false} LastTimeIsOf(notices: seq<Notice>, fates: seq<Fate>, id: nat, risk: Risk, which: set<Fate>)
    returns (k: nat)
    requires |notices| == |fates| && NoticeTimes(notices, fates, id, risk, which) != []
    ensures k < |notices| && notices[k].event == id && notices[k].risk == risk && fates[k] in which
    ensures var times := NoticeTimes(notices, fates, id, risk, which); notices[k].at == times[|times| - 1]
  {
    var last := |notices| - 1;
    if notices[last].event == id && notices[last].risk == risk && fates[last] in which {
      k := last;
    } else {
      k := LastTimeIsOf(notices[..last], fates[..last], id, risk, which);
    }
  }

  /** And none of these notifications is later. */
  lemma {:induction false} NoneIsLater(notices: seq<Notice>, fates: seq<Fate>, which: set<Fate>, k: nat)
    requires |notices| == |fates| && k < |notices| && fates[k] in which
    requires forall i, j | 0 <= i < j < |notices| :: notices[i].at <= notices[j].at
    ensures var times := NoticeTimes(notices, fates, notices[k].event, notices[k].risk, which);
            times != [] && notices[k].at <= times[|times| - 1]
  {
    var last := |notices| - 1;
    if k < last {
      NoneIsLater(notices[..last], fates[..last], which, k);
    }
  }

  // ---------------------------------------------------------------------------
  // What one push does to the stream
  // ---------------------------------------------------------------------------

  lemma PushEffect(b: Broker, p: Payload, at: int, x: XAdd, i: Identity)
    requires Identify(p) == Some(i)
    ensures var b' := Posted(b, p, at, Some(x));
            if Live(b.keys, Key(i), at) then b' == b
            else && b'.log == b.log + (if x.Adds? then [Entry(Some(p), at)] else [])
                 && b'.keys == b.keys[Key(i) := at + PUSH_DEDUP_TTL]
  {
    FingerprintOfIdentity(p);
  }

  lemma PushEffectAtMost(b: Broker, p: Payload, at: int, x: XAdd)
    ensures var b' := Posted(b, p, at, Some(x));
            && (b'.log == b.log || b'.log == b.log + [Entry(Some(p), at)])
            && (b'.keys == b.keys ||
                (Identify(p).Some? && b'.keys == b.keys[Key(Identify(p).value) := at + PUSH_DEDUP_TTL]))
  {
    FingerprintOfIdentity(p);
  }

  /** What another producer pushes is appended unless it is held back as a repetition or lost. */
  lemma ForeignIsAppendedUnless(s: Site, p: Payload, at: int, xadd: XAdd, cooldown: int)
    ensures Next(s, Foreign(p, at, xadd), cooldown).broker.log ==
            s.broker.log +
            if xadd.Adds? && (Identify(p).Some? ==> !Live(s.broker.keys, Key(Identify(p).value), at))
            then [Entry(Some(p), at)] else []
  {
    FingerprintOfIdentity(p);
    assert s.broker.log + [] == s.broker.log;
  }

  /** A push that bears another key leaves an alarm's entries and key alone. */
  lemma OtherPushTells(b: Broker, p: Payload, at: int, post: Option<XAdd>, id: nat, risk: Risk,
                       posted: seq<int>, arrived: seq<int>)
    requires Tells(b, id, risk, posted, arrived)
    requires Identify(p).Some? ==> Key(Identify(p).value) != Key(AtRisk(id, risk))
    ensures Tells(Posted(b, p, at, post), id, risk, posted, arrived)
  {
    if post.Some? {
      PushEffectAtMost(b, p, at, post.value);
      EntryTimesGrow(b.log, Entry(Some(p), at), AtRisk(id, risk));
    }
  }

  /** An alarm's own push, its key being gone. */
  lemma OwnPushTells(b: Broker, alarmType: string, at: int, post: Option<XAdd>, id: nat, risk: Risk,
                     posted: seq<int>, arrived: seq<int>)
    requires Tells(b, id, risk, posted, arrived) && !Live(b.keys, Key(AtRisk(id, risk)), at)
    ensures Tells(Posted(b, AlarmPayloadOf(id, alarmType, risk), at, post), id, risk,
                  posted + (if FateOf(post) in POSTED then [at] else []),
                  arrived + (if FateOf(post) in ARRIVED then [at] else []))
  {
    var p := AlarmPayloadOf(id, alarmType, risk);
    if post.Some? {
      PushEffect(b, p, at, post.value, AtRisk(id, risk));
      EntryTimesGrow(b.log, Entry(Some(p), at), AtRisk(id, risk));
    }
    assert b.log + [] == b.log && posted + [] == posted && arrived + [] == arrived;
  }

  lemma AlarmKeysDiffer(id: nat, risk: Risk, id': nat, risk': Risk)
    requires id != id' || risk != risk'
    ensures Key(AtRisk(id, risk)) != Key(AtRisk(id', risk'))
  {
    EventKeysCollideIff(AtRisk(id, risk), AtRisk(id', risk'));
    if RiskText(risk) == RiskText(risk') { RiskTextInjective(risk, risk'); }
  }

  /** What comes from outside bears neither an alarm's key nor a resolution's. */
  lemma OutsideKeysDiffer(s: Store, p: Payload, id: nat, risk: Risk)
    requires FromOutside(s, p) && Identify(p).Some?
    ensures Ours(s, id) ==> Key(Identify(p).value) != Key(AtRisk(id, risk))
    ensures Key(Identify(p).value) != Key(EventResolved(id))
  {
    var i := Identify(p).value;
    if i.EventAtRisk? {
      EventKeysCollideIff(i, AtRisk(id, risk));
      EventKeysCollideIff(i, EventResolved(id));
    } else {
      assert "ai" != "event" && "clear" != "event" && "cover" != "event" by {
        assert |"ai"| != |"event"| && "clear"[0] != "event"[0] && "cover"[0] != "event"[0];
      }
      KeysOfOtherKindDiffer(i, AtRisk(id, risk));
      KeysOfOtherKindDiffer(i, EventResolved(id));
    }
  }

  // ---------------------------------------------------------------------------
  // What one operation does to the store
  // ---------------------------------------------------------------------------

  lemma CreateNotices(s: Store, req: Request, now: int, cooldown: int)
    ensures var r := Create(s, req, now, cooldown);
            && r.event < |r.store.events| && r.store.events[r.event].eventType == req.alarmType
            && r.store.notices == s.notices + (if r.notified then [Notice(r.event, req.risk, now)] else [])
  {
  }

  lemma {:induction false} CloseAllNotices(s: Store, ids: seq<nat>, now: int)
    requires forall k | 0 <= k < |ids| :: ids[k] < |s.events|
    ensures CloseAll(s, ids, now).notices == s.notices
  {
    if ids != [] { CloseAllNotices(s, ids[..|ids| - 1], now); }
  }

  lemma QuietNotices(s: Store, step: Runs.Step, cooldown: int)
    requires !step.op.RaiseAlarm?
    ensures Runs.Apply(s, step, cooldown).notices == s.notices
  {
    if step.op.ClearEvents? {
      CloseAllNotices(s, ClearedIds(s, step.op.clearing, |s.events|), step.at);
    }
  }

  /** Types are for ever, so an event that is the tasks' own later was so before. */
  lemma OursBefore(s: Store, s': Store, id: nat)
    requires Theorems.Extends(s, s') && Ours(s', id)
    ensures Ours(s, id)
  {
  }

  lemma NoticesFitLater(s: Store, s': Store, fates: seq<Fate>, t: int, now: int)
    requires NoticesFit(s, fates, t) && t <= now && Theorems.Extends(s, s') && s'.notices == s.notices
    ensures NoticesFit(s', fates, now)
  {
  }

  lemma NoticesFitGrow(s: Store, s': Store, fates: seq<Fate>, n: Notice, fate: Fate, t: int)
    requires NoticesFit(s, fates, t) && t <= n.at && Theorems.Extends(s, s') && s'.notices == s.notices + [n]
    requires n.event < |s'.events| && (fate != Elsewhere ==> Ours(s', n.event))
    ensures NoticesFit(s', fates + [fate], n.at)
  {
  }

  /** A step of the store that neither notifies nor pushes. */
  lemma StoreOnlyIsGood(s: Site, fates: seq<Fate>, step: Runs.Step, cooldown: int, t: int)
    requires Good(s, fates, cooldown, t) && t <= step.at && cooldown > 0
    requires step.op.RaiseAlarm? ==> ValidRequest(step.op.req)
    requires Runs.Apply(s.store, step, cooldown).notices == s.store.notices
    ensures Good(s.(store := Runs.Apply(s.store, step, cooldown)), fates, cooldown, step.at)
  {
    var s' := s.(store := Runs.Apply(s.store, step, cooldown));
    Runs.ApplyKeepsInv(s.store, step, cooldown, t);
    Theorems.ApplyExtends(s.store, step, cooldown);
    NoticesFitLater(s.store, s'.store, fates, t, step.at);
    forall id: nat | Ours(s'.store, id) ensures Ours(s.store, id) {
      OursBefore(s.store, s'.store, id);
    }
  }

  // ---------------------------------------------------------------------------
  // Notifications and their pushes
  // ---------------------------------------------------------------------------

  /** A new notification comes a cooldown after any other of its event and risk. */
  lemma NoticeIsSpaced(s: Store, notices: seq<Notice>, n: Notice, cooldown: int, k: nat)
    requires Runs.Inv(s, cooldown, n.at) && s.notices == notices + [n] && n.event < |s.events|
    requires k < |notices| && notices[k].event == n.event && notices[k].risk == n.risk
    ensures notices[k].at + cooldown <= n.at
  {
    var before := Tables.Of(notices, OwnerOfNotice, n.event);
    Tables.OfAppend(notices, [n], OwnerOfNotice, n.event, n.event);
    Tables.OfKeeps(notices, OwnerOfNotice, notices[k]);
    assert Lawful(Runs.View(s, n.event), cooldown, n.at);
    var j :| 0 <= j < |before| && before[j] == notices[k];
    assert (before + [n])[j].risk == (before + [n])[|before|].risk;
  }

  /** So it finds its key expired. */
  lemma KeyHasExpired(s: Site, fates: seq<Fate>, store: Store, n: Notice, cooldown: int, t: int)
    requires Good(s, fates, cooldown, t) && cooldown >= PUSH_DEDUP_TTL && Ours(s.store, n.event)
    requires store.notices == s.store.notices + [n] && n.event < |store.events| && Runs.Inv(store, cooldown, n.at)
    ensures !Live(s.broker.keys, Key(AtRisk(n.event, n.risk)), n.at)
  {
    var times := NoticeTimes(s.store.notices, fates, n.event, n.risk, POSTED);
    assert Tracks(s.broker.keys, Key(AtRisk(n.event, n.risk)), times);
    if times != [] {
      var k := LastTimeIsOf(s.store.notices, fates, n.event, n.risk, POSTED);
      NoticeIsSpaced(store, s.store.notices, n, cooldown, k);
    }
  }

  /** The push of a new notification keeps stream and notifications in step. */
  lemma AnnouncedTells(s: Site, fates: seq<Fate>, store: Store, n: Notice, alarmType: string, post: Option<XAdd>)
    requires |s.store.notices| == |fates| && StreamTells(s, fates)
    requires store.notices == s.store.notices + [n] && Theorems.Extends(s.store, store)
    requires !Live(s.broker.keys, Key(AtRisk(n.event, n.risk)), n.at)
    ensures StreamTells(Site(store, Posted(s.broker, AlarmPayloadOf(n.event, alarmType, n.risk), n.at, post)),
                        fates + [FateOf(post)])
  {
    var p := AlarmPayloadOf(n.event, alarmType, n.risk);
    var b' := Posted(s.broker, p, n.at, post);
    forall id: nat, risk | Ours(store, id)
      ensures Tells(b', id, risk, NoticeTimes(store.notices, fates + [FateOf(post)], id, risk, POSTED),
                    NoticeTimes(store.notices, fates + [FateOf(post)], id, risk, ARRIVED))
    {
      OursBefore(s.store, store, id);
      var posted := NoticeTimes(s.store.notices, fates, id, risk, POSTED);
      var arrived := NoticeTimes(s.store.notices, fates, id, risk, ARRIVED);
      NoticeTimesGrow(s.store.notices, fates, n, FateOf(post), id, risk, POSTED);
      NoticeTimesGrow(s.store.notices, fates, n, FateOf(post), id, risk, ARRIVED);
      if id == n.event && risk == n.risk {
        OwnPushTells(s.broker, alarmType, n.at, post, id, risk, posted, arrived);
      } else {
        AlarmKeysDiffer(id, risk, n.event, n.risk);
        OtherPushTells(s.broker, p, n.at, post, id, risk, posted, arrived);
        assert posted + [] == posted && arrived + [] == arrived;
      }
    }
  }

  /** A notification that is announced elsewhere is none of the tasks' events'. */
  lemma ElsewhereTells(s: Site, fates: seq<Fate>, store: Store, n: Notice)
    requires |s.store.notices| == |fates| && StreamTells(s, fates)
    requires store.notices == s.store.notices + [n] && Theorems.Extends(s.store, store)
    requires n.event < |store.events| && !TaskType(store.events[n.event].eventType)
    ensures StreamTells(Site(store, s.broker), fates + [Elsewhere])
  {
    forall id: nat, risk, which | Ours(store, id)
      ensures Ours(s.store, id)
      ensures NoticeTimes(store.notices, fates + [Elsewhere], id, risk, which) ==
              NoticeTimes(s.store.notices, fates, id, risk, which)
    {
      OursBefore(s.store, store, id);
      NoticeTimesGrow(s.store.notices, fates, n, Elsewhere, id, risk, which);
    }
  }

  lemma PostedResolutions(s: Site, store: Store, p: Payload, at: int, post: Option<XAdd>)
    requires ResolutionsFollow(s) && Theorems.Extends(s.store, store)
    requires Identify(p).Some? ==>
               forall id: nat | Key(Identify(p).value) == Key(EventResolved(id)) ::
                 id < |store.events| && store.events[id].status == Resolved
    ensures ResolutionsFollow(Site(store, Posted(s.broker, p, at, post)))
  {
    if post.Some? { PushEffectAtMost(s.broker, p, at, post.value); }
  }

  lemma TaskIsGood(s: Site, fates: seq<Fate>, req: Request, at: int, post: Option<XAdd>, cooldown: int, t: int)
    requires Good(s, fates, cooldown, t) && t <= at && cooldown >= PUSH_DEDUP_TTL
    requires ValidRequest(req) && TaskType(req.alarmType)
    ensures var step := Task(req, at, post);
            Good(Next(s, step, cooldown), fates + NewFates(s, step, cooldown), cooldown, at)
  {
    var r := Create(s.store, req, at, cooldown);
    CreateNotices(s.store, req, at, cooldown);
    if r.notified {
      var n := Notice(r.event, req.risk, at);
      Runs.CreateKeepsInv(s.store, req, at, cooldown, t);
      Theorems.CreateExtends(s.store, req, at, cooldown);
      OursBefore(s.store, r.store, r.event);
      KeyHasExpired(s, fates, r.store, n, cooldown, t);
      NoticesFitGrow(s.store, r.store, fates, n, FateOf(post), t);
      AnnouncedTells(s, fates, r.store, n, req.alarmType, post);
      forall id: nat ensures Key(AtRisk(n.event, n.risk)) != Key(EventResolved(id)) {
        EventKeysCollideIff(AtRisk(n.event, n.risk), EventResolved(id));
      }
      PostedResolutions(s, r.store, AlarmPayloadOf(r.event, req.alarmType, req.risk), at, post);
    } else {
      assert fates + [] == fates && s.store.notices + [] == s.store.notices;
      StoreOnlyIsGood(s, fates, Runs.Step(Runs.RaiseAlarm(req), at), cooldown, t);
    }
  }

  lemma ElsewhereIsGood(s: Site, fates: seq<Fate>, store: Store, n: Notice, cooldown: int, t: int)
    requires Good(s, fates, cooldown, t) && t <= n.at && Runs.Inv(store, cooldown, n.at)
    requires store.notices == s.store.notices + [n] && Theorems.Extends(s.store, store)
    requires n.event < |store.events| && !TaskType(store.events[n.event].eventType)
    ensures Good(Site(store, s.broker), fates + [Elsewhere], cooldown, n.at)
  {
    NoticesFitGrow(s.store, store, fates, n, Elsewhere, t);
    ElsewhereTells(s, fates, store, n);
  }

  lemma OtherAlarmIsGood(s: Site, fates: seq<Fate>, req: Request, at: int, cooldown: int, t: int)
    requires Good(s, fates, cooldown, t) && t <= at && cooldown > 0
    requires ValidRequest(req) && !TaskType(req.alarmType)
    ensures var step := Other(Runs.RaiseAlarm(req), at);
            Good(Next(s, step, cooldown), fates + NewFates(s, step, cooldown), cooldown, at)
  {
    var r := Create(s.store, req, at, cooldown);
    CreateNotices(s.store, req, at, cooldown);
    if r.notified {
      var n := Notice(r.event, req.risk, at);
      Runs.CreateKeepsInv(s.store, req, at, cooldown, t);
      Theorems.CreateExtends(s.store, req, at, cooldown);
      ElsewhereIsGood(s, fates, r.store, n, cooldown, t);
    } else {
      assert fates + [] == fates && s.store.notices + [] == s.store.notices;
      StoreOnlyIsGood(s, fates, Runs.Step(Runs.RaiseAlarm(req), at), cooldown, t);
    }
  }

  /** A posted notification holds its key for a TTL. */
  lemma KeyIsHeld(s: Site, fates: seq<Fate>, k: nat, at: int, t: int)
    requires |s.store.notices| == |fates| && NoticesFit(s.store, fates, t) && StreamTells(s, fates)
    requires k < |fates| && fates[k] in POSTED && at < s.store.notices[k].at + PUSH_DEDUP_TTL
    ensures Live(s.broker.keys, Key(AtRisk(s.store.notices[k].event, s.store.notices[k].risk)), at)
  {
    var n := s.store.notices[k];
    var times := NoticeTimes(s.store.notices, fates, n.event, n.risk, POSTED);
    assert Ours(s.store, n.event);
    NoneIsLater(s.store.notices, fates, POSTED, k);
    assert Tells(s.broker, n.event, n.risk, times, NoticeTimes(s.store.notices, fates, n.event, n.risk, ARRIVED));
  }

  /** Sending a posted payload again within the TTL of its notification changes nothing. */
  lemma ResendIsDropped(s: Site, fates: seq<Fate>, k: nat, at: int, post: Option<XAdd>, cooldown: int, t: int)
    requires Good(s, fates, cooldown, t) && LegalStep(s, fates, Resend(k, at, post))
    ensures Next(s, Resend(k, at, post), cooldown) == s
  {
    if k < |s.store.notices| && post.Some? {
      var n := s.store.notices[k];
      KeyIsHeld(s, fates, k, at, t);
      PushEffect(s.broker, AlarmPayloadOf(n.event, s.store.events[n.event].eventType, n.risk), at, post.value,
                 AtRisk(n.event, n.risk));
    }
  }

  /** Resolving an event appends its signal to the stream, whenever the push and its XADD succeed. */
  lemma ResolutionIsAnnounced(s: Site, fates: seq<Fate>, id: nat, actor: nat, at: int, trimTo: nat, cooldown: int,
                              t: int)
    requires Good(s, fates, cooldown, t)
    requires UpdateStatus(s.store, id, actor, Some(Resolved), at).Ok?
    ensures var s' := Next(s, Status(id, actor, Some(Resolved), at, Some(Adds(trimTo))), cooldown);
            EntryTimes(s'.broker.log, EventResolved(id)) == EntryTimes(s.broker.log, EventResolved(id)) + [at]
  {
    var store := UpdateStatus(s.store, id, actor, Some(Resolved), at).value;
    var p := ResolvedPayloadOf(id, store.events[id]);
    PushEffect(s.broker, p, at, Adds(trimTo), EventResolved(id));
    EntryTimesGrow(s.broker.log, Entry(Some(p), at), EventResolved(id));
  }

  /** A push that bears no alarm's key, and a resolution's only when the event is resolved. */
  lemma HarmlessPushIsGood(s: Site, fates: seq<Fate>, p: Payload, at: int, post: Option<XAdd>, cooldown: int, t: int)
    requires Good(s, fates, cooldown, t)
    requires Identify(p).Some? ==>
               && (forall id: nat, risk | Ours(s.store, id) :: Key(Identify(p).value) != Key(AtRisk(id, risk)))
               && (forall id: nat | Key(Identify(p).value) == Key(EventResolved(id)) ::
                     id < |s.store.events| && s.store.events[id].status == Resolved)
    ensures Good(s.(broker := Posted(s.broker, p, at, post)), fates, cooldown, t)
  {
    forall id: nat, risk | Ours(s.store, id)
      ensures Tells(Posted(s.broker, p, at, post), id, risk, NoticeTimes(s.store.notices, fates, id, risk, POSTED),
                    NoticeTimes(s.store.notices, fates, id, risk, ARRIVED))
    {
      OtherPushTells(s.broker, p, at, post, id, risk, NoticeTimes(s.store.notices, fates, id, risk, POSTED),
                     NoticeTimes(s.store.notices, fates, id, risk, ARRIVED));
    }
    Theorems.ExtendsItself(s.store);
    PostedResolutions(s, s.store, p, at, post);
  }

  lemma ResolvedPushIsGood(s: Site, fates: seq<Fate>, id: nat, at: int, post: Option<XAdd>, cooldown: int, t: int)
    requires Good(s, fates, cooldown, t) && id < |s.store.events| && s.store.events[id].status == Resolved
    ensures var p := ResolvedPayloadOf(id, s.store.events[id]);
            Good(s.(broker := Posted(s.broker, p, at, post)), fates, cooldown, t)
  {
    forall i: nat, risk ensures Key(EventResolved(id)) != Key(AtRisk(i, risk)) {
      EventKeysCollideIff(EventResolved(id), AtRisk(i, risk));
    }
    forall i: nat ensures Key(EventResolved(id)) == Key(EventResolved(i)) ==> i == id {
      EventKeysCollideIff(EventResolved(id), EventResolved(i));
    }
    HarmlessPushIsGood(s, fates, ResolvedPayloadOf(id, s.store.events[id]), at, post, cooldown, t);
  }

  lemma ForeignIsGood(s: Site, fates: seq<Fate>, p: Payload, at: int, xadd: XAdd, cooldown: int, t: int)
    requires Good(s, fates, cooldown, t) && FromOutside(s.store, p)
    ensures Good(s.(broker := Posted(s.broker, p, at, Some(xadd))), fates, cooldown, t)
  {
    if Identify(p).Some? {
      forall id: nat, risk
        ensures Ours(s.store, id) ==> Key(Identify(p).value) != Key(AtRisk(id, risk))
      {
        OutsideKeysDiffer(s.store, p, id, risk);
      }
      forall id: nat ensures Key(Identify(p).value) != Key(EventResolved(id)) {
        OutsideKeysDiffer(s.store, p, id, Normal);
      }
    }
    HarmlessPushIsGood(s, fates, p, at, Some(xadd), cooldown, t);
  }

  lemma GarbageIsGood(s: Site, fates: seq<Fate>, at: int, trimTo: nat, cooldown: int, t: int)
    requires Good(s, fates, cooldown, t)
    ensures Good(s.(broker := Add(s.broker, Entry(None, at), trimTo)), fates, cooldown, t)
  {
    forall id: nat, risk
      ensures EntryTimes(s.broker.log + [Entry(None, at)], AtRisk(id, risk)) ==
              EntryTimes(s.broker.log, AtRisk(id, risk))
    {
      EntryTimesGrow(s.broker.log, Entry(None, at), AtRisk(id, risk));
    }
  }

  lemma GoodLater(s: Site, fates: seq<Fate>, cooldown: int, t: int, now: int)
    requires Good(s, fates, cooldown, t) && t <= now
    ensures Good(s, fates, cooldown, now)
  {
    Runs.InvLater(s.store, cooldown, t, now);
  }

  lemma StatusIsGood(s: Site, fates: seq<Fate>, id: nat, actor: nat, to: Option<EventModel.Status>, at: int,
                     post: Option<XAdd>, cooldown: int, t: int)
    requires Good(s, fates, cooldown, t) && t <= at && cooldown > 0
    ensures Good(Next(s, Status(id, actor, to, at, post), cooldown), fates, cooldown, at)
  {
    var step := Runs.Step(Runs.ChangeStatus(id, actor, to), at);
    QuietNotices(s.store, step, cooldown);
    StoreOnlyIsGood(s, fates, step, cooldown, t);
    if UpdateStatus(s.store, id, actor, to, at).Ok? && to == Some(Resolved) {
      var store := UpdateStatus(s.store, id, actor, to, at).value;
      ResolvedPushIsGood(s.(store := store), fates, id, at, post, cooldown, at);
    }
  }

  lemma StepIsGood(s: Site, fates: seq<Fate>, step: Step, cooldown: int, t: int)
    requires Good(s, fates, cooldown, t) && t <= step.at && cooldown >= PUSH_DEDUP_TTL
    requires LegalStep(s, fates, step)
    ensures Good(Next(s, step, cooldown), fates + NewFates(s, step, cooldown), cooldown, step.at)
  {
    assert fates + [] == fates;
    GoodLater(s, fates, cooldown, t, step.at);
    match step
    case Task(req, at, post) => TaskIsGood(s, fates, req, at, post, cooldown, t);
    case FailedWrite(_) =>
    case Resend(k, at, post) => ResendIsDropped(s, fates, k, at, post, cooldown, t);
    case Status(id, actor, to, at, post) => StatusIsGood(s, fates, id, actor, to, at, post, cooldown, t);
    case Foreign(p, at, xadd) => ForeignIsGood(s, fates, p, at, xadd, cooldown, at);
    case Garbage(at, trimTo) => GarbageIsGood(s, fates, at, trimTo, cooldown, at);
    case Other(op, at) =>
      if op.RaiseAlarm? {
        OtherAlarmIsGood(s, fates, op.req, at, cooldown, t);
      } else {
        QuietNotices(s.store, Runs.Step(op, at), cooldown);
        StoreOnlyIsGood(s, fates, Runs.Step(op, at), cooldown, t);
      }
  }

  lemma {:induction false} RunIsGood(steps: seq<Step>, cooldown: int, now: int)
    requires Legal(steps, cooldown) && cooldown >= PUSH_DEDUP_TTL
    requires steps != [] ==> steps[|steps| - 1].at <= now
    ensures Good(Run(steps, cooldown), Fates(steps, cooldown), cooldown, now)
  {
    if steps != [] {
      var init, last := steps[..|steps| - 1], steps[|steps| - 1];
      RunIsGood(init, cooldown, last.at);
      StepIsGood(Run(init, cooldown), Fates(init, cooldown), last, cooldown, last.at);
      GoodLater(Run(steps, cooldown), Fates(steps, cooldown), cooldown, last.at, now);
    }
  }

  // ---------------------------------------------------------------------------
  // Exactly once, exactly when the cooldown covers the TTL
  // ---------------------------------------------------------------------------

  /**
   For each event of the tasks and each risk, the stream's entries are the notifications, in order and at their
   times, without exactly those whose push was lost or never posted.
   */
  ghost predicate ExactlyOnce(steps: seq<Step>, cooldown: int) {
    var s, fates := Run(steps, cooldown), Fates(steps, cooldown);
    && |s.store.notices| == |fates|
    && forall id: nat, risk | Ours(s.store, id) ::
         EntryTimes(s.broker.log, AtRisk(id, risk)) == NoticeTimes(s.store.notices, fates, id, risk, ARRIVED)
  }

  /** Without failures these are all notifications. */
  lemma {:induction false} AllArrive(notices: seq<Notice>, fates: seq<Fate>, id: nat, risk: Risk)
    requires |notices| == |fates|
    ensures NoticeTimes(notices, fates, id, risk, ARRIVED) == Notified(notices, id, risk) <==>
            forall k | 0 <= k < |notices| && notices[k].event == id && notices[k].risk == risk :: fates[k] == Sent
    ensures |NoticeTimes(notices, fates, id, risk, ARRIVED)| <= |Notified(notices, id, risk)|
  {
    if notices != [] {
      var last := |notices| - 1;
      var n, notices', fates' := notices[last], notices[..last], fates[..last];
      AllArrive(notices', fates', id, risk);
      assert forall k | 0 <= k < last :: notices'[k] == notices[k] && fates'[k] == fates[k];
      var some, all := NoticeTimes(notices', fates', id, risk, ARRIVED), Notified(notices', id, risk);
      assert some + [n.at] == all + [n.at] <==> some == all by {
        assert (some + [n.at])[..|some|] == some && (all + [n.at])[..|all|] == all;
      }
    }
  }

  /** Every notification of the event at the risk reaches the stream exactly once iff each push was posted and added. */
  lemma AllReachStreamIff(steps: seq<Step>, cooldown: int, id: nat, risk: Risk)
    requires Legal(steps, cooldown) && cooldown >= PUSH_DEDUP_TTL && Ours(Run(steps, cooldown).store, id)
    ensures var s, fates := Run(steps, cooldown), Fates(steps, cooldown); var notices := s.store.notices;
            && |notices| == |fates|
            && (EntryTimes(s.broker.log, AtRisk(id, risk)) == Notified(notices, id, risk) <==>
                forall k | 0 <= k < |notices| && notices[k].event == id && notices[k].risk == risk :: fates[k] == Sent)
  {
    var s, fates := Run(steps, cooldown), Fates(steps, cooldown);
    RunIsGood(steps, cooldown, if steps == [] then 0 else steps[|steps| - 1].at);
    AllArrive(s.store.notices, fates, id, risk);
    assert Tells(s.broker, id, risk, NoticeTimes(s.store.notices, fates, id, risk, POSTED),
                 NoticeTimes(s.store.notices, fates, id, risk, ARRIVED));
  }

  function Leak(at: int): Step {
    Task(Request(1, "gas_threshold", Source(Some(1), None, None), None, "co", Warning, 0), at, Some(Adds(0)))
  }

  /** What two leak alarms make of the store, and of the stream when the second push is a duplicate. */
  lemma TwoLeaks(cooldown: int)
    requires 0 < cooldown < PUSH_DEDUP_TTL
    ensures var s1 := Next(IDLE_SITE, Leak(0), cooldown);
            var s2 := Next(s1, Leak(cooldown), cooldown);
            && s2.store.notices == [Notice(0, Warning, 0), Notice(0, Warning, cooldown)]
            && |s2.store.events| == 1 && TaskType(s2.store.events[0].eventType)
            && s2.broker.log == [Entry(Some(AlarmPayloadOf(0, "gas_threshold", Warning)), 0)]
            && NewFates(IDLE_SITE, Leak(0), cooldown) == [Sent] && NewFates(s1, Leak(cooldown), cooldown) == [Sent]
  {
    var req := Leak(0).req;
    var p := AlarmPayloadOf(0, "gas_threshold", Warning);
    PushEffect(NO_ALARMS, p, 0, Adds(0), AtRisk(0, Warning));
    var s1 := Next(IDLE_SITE, Leak(0), cooldown);
    assert s1.store == Insert(EMPTY, Fresh(req, 0, 0));
    assert s1.broker.log == [] + [Entry(Some(p), 0)];
    PushEffect(s1.broker, p, cooldown, Adds(0), AtRisk(0, Warning));
    var s2 := Next(s1, Leak(cooldown), cooldown);
    assert s2.store == Put(s1.store, 0, Merge(s1.store.events[0], 0, req, cooldown, cooldown));
  }

  lemma TwoLeaksCounted(cooldown: int)
    ensures |EntryTimes([Entry(Some(AlarmPayloadOf(0, "gas_threshold", Warning)), 0)], AtRisk(0, Warning))| == 1
    ensures |NoticeTimes([Notice(0, Warning, 0), Notice(0, Warning, cooldown)], [Sent, Sent], 0, Warning, ARRIVED)| == 2
  {
    var e := Entry(Some(AlarmPayloadOf(0, "gas_threshold", Warning)), 0);
    EntryTimesGrow([], e, AtRisk(0, Warning));
    assert [] + [e] == [e];
    var first, second := Notice(0, Warning, 0), Notice(0, Warning, cooldown);
    NoticeTimesGrow([], [], first, Sent, 0, Warning, ARRIVED);
    NoticeTimesGrow([first], [Sent], second, Sent, 0, Warning, ARRIVED);
    assert [] + [first] == [first] && [first] + [second] == [first, second];
    assert [] + [Sent] == [Sent] && [Sent] + [Sent] == [Sent, Sent];
  }

  lemma TwoLeaksAreLegal(cooldown: int)
    requires cooldown > 0
    ensures var steps := [Leak(0), Leak(cooldown)]; var s1 := Next(IDLE_SITE, Leak(0), cooldown);
            && Legal(steps, cooldown) && Run(steps, cooldown) == Next(s1, Leak(cooldown), cooldown)
            && Fates(steps, cooldown) == NewFates(IDLE_SITE, Leak(0), cooldown) + NewFates(s1, Leak(cooldown), cooldown)
  {
    var steps := [Leak(0), Leak(cooldown)];
    assert steps[..1] == [Leak(0)] && [Leak(0)][..0] == [];
    assert Run([Leak(0)], cooldown) == Next(IDLE_SITE, Leak(0), cooldown);
    assert Fates([Leak(0)], cooldown) == [] + NewFates(IDLE_SITE, Leak(0), cooldown);
  }

  /** With a shorter cooldown the first repeat is decided and posted, but its push is taken for a duplicate. */
  lemma ShortCooldownLosesARepeat(cooldown: int)
    requires 0 < cooldown < PUSH_DEDUP_TTL
    ensures var steps := [Leak(0), Leak(cooldown)]; Legal(steps, cooldown) && !ExactlyOnce(steps, cooldown)
  {
    TwoLeaks(cooldown);
    TwoLeaksAreLegal(cooldown);
    TwoLeaksCounted(cooldown);
    var s := Run([Leak(0), Leak(cooldown)], cooldown);
    assert Fates([Leak(0), Leak(cooldown)], cooldown) == [Sent, Sent];
    assert Ours(s.store, 0);
    assert EntryTimes(s.broker.log, AtRisk(0, Warning)) !=
           NoticeTimes(s.store.notices, [Sent, Sent], 0, Warning, ARRIVED);
  }

  lemma ExactlyOnceAlways(steps: seq<Step>, cooldown: int)
    requires Legal(steps, cooldown) && cooldown >= PUSH_DEDUP_TTL
    ensures ExactlyOnce(steps, cooldown)
  {
    RunIsGood(steps, cooldown, if steps == [] then 0 else steps[|steps| - 1].at);
  }

  /** In every run each posted and added notification is in the stream exactly once iff the cooldown covers the TTL. */
  lemma ExactlyOnceIffCooldownCoversTtl(cooldown: int)
    requires cooldown > 0
    ensures cooldown >= 30_000_000 <==>
            forall steps: seq<Step> | Legal(steps, cooldown) :: ExactlyOnce(steps, cooldown)
  {
    if cooldown >= PUSH_DEDUP_TTL {
      forall steps: seq<Step> | Legal(steps, cooldown) ensures ExactlyOnce(steps, cooldown) {
        ExactlyOnceAlways(steps, cooldown);
      }
    } else {
      ShortCooldownLosesARepeat(cooldown);
    }
  }
}
