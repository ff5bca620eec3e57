/**
 The AI alarms among the pipeline's pushes. They are dropped only on account of an event that another channel of
 their device, or an alarm task, has announced, and the rate limit then keeps their own channel silent.
 */
module PowerAiStream {
  import opened Wrappers
  import opened RiskLevels
  import opened AlarmPayload
  import opened AlarmQueue
  import opened PowerLabels
  import opened PowerRisk
  import opened PowerRuns
  import opened PowerStream
  import opened Statistics
  import P = PowerInference

  /** Nobody else sends an AI alarm of a power channel that names no event. */
  ghost predicate OthersSendNoAi(items: seq<Item>) {
    forall i <- items | i.FromOthers? && Identify(i.step.payload).Some? :: !Identify(i.step.payload).value.AiAlarm?
  }

  lemma AiItemsAreSpaced(items: seq<Item>, name: Naming, samples: seq<P.Sample>, places: iset<Place>,
                         sqrt: real -> real, j: nat, k: nat)
    requires IsRoot(sqrt) && LegalItems(items, name, samples, places, sqrt) && P.InTimeOrder(samples)
    requires j < k < |items| && AiItem(items[j]) && AiItem(items[k]) && items[j].push.sensor == items[k].push.sensor
    ensures items[j].push.at + P.RATE_LIMIT <= items[k].push.at
  {
    PushAt(items, j);
    PushAt(items, k);
    PushesAscend(items, j, k);
    P.AiPushesAreAMinuteApart(samples, sqrt, PushesBefore(items, j), PushesBefore(items, k));
  }

  /** What an AI push announces: the event it was answered with, or else device and channel, if there is a device. */
  lemma AiIdentity(i: Item, name: Naming)
    requires AiItem(i)
    ensures var risk := RiskText(i.push.decision.risk);
            Identify(StepOf(i, name).payload) ==
            if i.event.Some? then Some(EventAtRisk(i.event.value, risk))
            else if i.push.sensor.device.None? then None
            else Some(AiAlarm(i.push.sensor.device.value, i.push.sensor.channel.number, risk))
  {
  }

  lemma OtherTagThanAi(i: Identity, ai: Identity)
    requires ai.AiAlarm? && !i.AiAlarm?
    ensures Tag(i) != Tag(ai)
  {
    assert |"event"| == |"clear"| == |"cover"| == 5 && |"ai"| == 2;
  }

  lemma OtherTagThanEvent(i: Identity, event: Identity)
    requires event.EventAtRisk? && !i.EventAtRisk? && !i.EventResolved?
    ensures Tag(i) != Tag(event)
  {
    assert |"event"| == |"clear"| == |"cover"| == 5 && |"ai"| == 2;
    assert "event"[0] != "clear"[0] && "event"[0] != "cover"[0];
  }

  /** Whatever bears the key of an AI alarm without event is one of the same sensor. */
  lemma SameAiKeySameSensor(i: Item, item: Item, name: Naming)
    requires AiItem(item) && item.event.None? && item.push.sensor.device.Some?
    requires i.FromOthers? && Identify(i.step.payload).Some? ==> !Identify(i.step.payload).value.AiAlarm?
    requires Fingerprint(StepOf(i, name).payload) == Fingerprint(StepOf(item, name).payload)
    ensures AiItem(i) && i.push.sensor.device == item.push.sensor.device
    ensures i.push.sensor.channel.number == item.push.sensor.channel.number
  {
    AiIdentity(item, name);
    FingerprintOfIdentity(StepOf(i, name).payload);
    FingerprintOfIdentity(StepOf(item, name).payload);
    var ai, other := Identify(StepOf(item, name).payload).value, Identify(StepOf(i, name).payload).value;
    if !other.AiAlarm? {
      OtherTagThanAi(other, ai);
      KeysOfOtherKindDiffer(other, ai);
    } else {
      assert i.FromPipeline?;
      if AiItem(i) { AiIdentity(i, name); }
      KeyInjective(other, ai);
    }
  }

  /** Whatever bears the key of an AI alarm's event announces the same event at the same risk. */
  lemma SameEventKeySameIdentity(p: Payload, event: int, risk: Risk)
    requires Fingerprint(p) == Some(Key(EventAtRisk(event, RiskText(risk))))
    ensures Identify(p) == Some(EventAtRisk(event, RiskText(risk)))
  {
    FingerprintOfIdentity(p);
    var mine, other := EventAtRisk(event, RiskText(risk)), Identify(p).value;
    if !other.EventAtRisk? && !other.EventResolved? {
      OtherTagThanEvent(other, mine);
      KeysOfOtherKindDiffer(other, mine);
    } else {
      EventKeysCollideIff(other, mine);
    }
  }

  /** Item `j` announced the event at the risk, and was accepted less than a TTL before `now`. */
  predicate EventAnnounced(items: seq<Item>, name: Naming, ttl: int, j: nat, event: int, risk: Risk, now: int) {
    j < |items| && Announces(StepsOf(items, name), j, ttl, EventAtRisk(event, RiskText(risk)), now)
  }

  /** An announcement by the pipeline itself is that of another sensor. */
  lemma AnnouncedByAnother(items: seq<Item>, name: Naming, ttl: int, samples: seq<P.Sample>, places: iset<Place>,
                           sqrt: real -> real, j: nat, k: nat)
    requires IsRoot(sqrt) && LegalItems(items, name, samples, places, sqrt) && P.InTimeOrder(samples)
    requires ttl <= P.RATE_LIMIT && j < k < |items| && AiItem(items[k]) && items[k].event.Some?
    requires EventAnnounced(items, name, ttl, j, items[k].event.value, items[k].push.decision.risk, items[k].push.at)
    ensures items[j].FromPipeline? ==> AiItem(items[j]) && items[j].push.sensor != items[k].push.sensor
  {
    if items[j].FromPipeline? {
      if AiItem(items[j]) && items[j].push.sensor == items[k].push.sensor {
        AiItemsAreSpaced(items, name, samples, places, sqrt, j, k);
      }
    }
  }

  lemma NoEventNotDropped(items: seq<Item>, name: Naming, ttl: int, samples: seq<P.Sample>, places: iset<Place>,
                          sqrt: real -> real, k: nat)
    requires IsRoot(sqrt) && LegalItems(items, name, samples, places, sqrt) && P.InTimeOrder(samples)
    requires ttl <= P.RATE_LIMIT && OthersSendNoAi(items)
    requires k < |items| && AiItem(items[k]) && items[k].event.None?
    ensures OutcomeOf(StepsOf(items, name), k, ttl) != Suppressed
  {
    if OutcomeOf(StepsOf(items, name), k, ttl) == Suppressed {
      var j := Dropper(items, name, ttl, k);
      AiIdentity(items[k], name);
      FingerprintOfIdentity(StepOf(items[k], name).payload);
      assert items[j] in items;
      SameAiKeySameSensor(items[j], items[k], name);
      ItemBelongs(items, name, samples, places, sqrt, j);
      ItemBelongs(items, name, samples, places, sqrt, k);
      AiItemsAreSpaced(items, name, samples, places, sqrt, j, k);
    }
  }

  /**
   In every run, with a TTL no longer than the rate limit: an AI alarm is dropped iff it was answered with an event
   that was announced at the same risk less than a TTL before, which its own sensor never did.
   */
  lemma AiDroppedIffEventAnnounced(items: seq<Item>, name: Naming, ttl: int, samples: seq<P.Sample>,
                                   places: iset<Place>, sqrt: real -> real, k: nat)
    requires IsRoot(sqrt) && LegalItems(items, name, samples, places, sqrt) && P.InTimeOrder(samples)
    requires ttl <= P.RATE_LIMIT && OthersSendNoAi(items) && k < |items| && AiItem(items[k])
    ensures var (event, p) := (items[k].event, items[k].push);
            && (OutcomeOf(StepsOf(items, name), k, ttl) == Suppressed <==>
                && event.Some?
                && exists j: nat :: j < k && EventAnnounced(items, name, ttl, j, event.value, p.decision.risk, p.at))
            && (event.Some? ==>
                forall j: nat | j < k && EventAnnounced(items, name, ttl, j, event.value, p.decision.risk, p.at) ::
                  items[j].FromPipeline? ==> items[j].push.sensor != p.sensor)
  {
    var steps := StepsOf(items, name);
    var event, p := items[k].event, items[k].push;
    if event.None? {
      NoEventNotDropped(items, name, ttl, samples, places, sqrt, k);
    } else {
      AiIdentity(items[k], name);
      FingerprintOfIdentity(steps[k].payload);
      if OutcomeOf(steps, k, ttl) == Suppressed {
        var j := Dropper(items, name, ttl, k);
        SameEventKeySameIdentity(steps[j].payload, event.value, p.decision.risk);
        assert EventAnnounced(items, name, ttl, j, event.value, p.decision.risk, p.at);
      }
      forall j: nat | j < k && EventAnnounced(items, name, ttl, j, event.value, p.decision.risk, p.at)
        ensures OutcomeOf(steps, k, ttl) == Suppressed
        ensures items[j].FromPipeline? ==> items[j].push.sensor != p.sensor
      {
        AnnouncedDrops(steps, ttl, j, k);
        AnnouncedByAnother(items, name, ttl, samples, places, sqrt, j, k);
      }
    }
  }

  lemma AnnouncedDrops(steps: seq<PushStep>, ttl: int, j: nat, k: nat)
    requires j < k < |steps| && InTimeOrder(steps) && Identify(steps[k].payload).Some?
    requires Announces(steps, j, ttl, Identify(steps[k].payload).value, steps[k].at)
    ensures OutcomeOf(steps, k, ttl) == Suppressed
  {
    FingerprintOfIdentity(steps[j].payload);
    FingerprintOfIdentity(steps[k].payload);
    var fp := Fingerprint(steps[k].payload).value;
    EarlierPush(steps, j, k, ttl, fp, steps[k].at, Appended);
    EarlierPush(steps, j, k, ttl, fp, steps[k].at, Lost);
    assert RecentlyAccepted(steps[..k], j, ttl, fp, steps[k].at);
    SuppressedIffAccepted(steps[..k], ttl, steps[k].payload, steps[k].at, steps[k].xadd);
  }

  // ---------------------------------------------------------------------------
  // Two channels of one device
  // ---------------------------------------------------------------------------

  function Danger120(sensor: P.Sensor, at: int): P.Sample {
    Strike(sensor, at, 120.0, false, false, map["watt" := BuiltIn("watt")])
  }

  function DangerPush(sensor: P.Sensor, at: int): P.Push { P.Push(sensor, at, Decision(Ai, Danger), 0) }

  /** Both channels warm up; then each has a danger. */
  function TwoDangers(a: P.Sensor, b: P.Sensor, at: int): seq<P.Sample> {
    WarmAnd(at, Danger120(a, at)) + WarmAnd(at, Danger120(b, at))
  }

  lemma TwoDangersPush(a: P.Sensor, b: P.Sensor, at: int, sqrt: real -> real)
    requires IsRoot(sqrt) && at >= P.RATE_LIMIT && a.channel != b.channel
    requires P.InferenceEnabled(a.channel) && P.InferenceEnabled(b.channel)
    ensures var s := P.Run(TwoDangers(a, b, at), sqrt);
            && s.pushes == [DangerPush(a, at), DangerPush(b, at)]
            && b in s.lastFired && s.lastFired[b] == at
            && b.channel in s.windows && s.windows[b.channel] == CalmWindow(WARM_UP) + [120.0]
  {
    VeryFirstStrike(at, Danger120(a, at), 120.0, false, false, sqrt);
    FirstStrike(WarmAnd(at, Danger120(a, at)), at, Danger120(b, at), 120.0, false, false, sqrt);
  }

  lemma TwoDangersMeasured(a: P.Sensor, b: P.Sensor, at: int, places: iset<Place>)
    requires a.channel.dataType == b.channel.dataType == "watt" && PlaceOf(a) in places && PlaceOf(b) in places
    ensures Measured(TwoDangers(a, b, at), places) && P.InTimeOrder(TwoDangers(a, b, at))
  {
    assert forall x <- TwoDangers(a, b, at) :: (x.sensor == a || x.sensor == b) && x.at == at;
  }

  /**
   Dangers on two channels of one device that are answered with one event: the second is dropped, and for a minute
   nothing more is pushed for its channel, however often the danger recurs.
   */
  lemma SharedEventDropsAi(device: string, event: int, at: int, again: int, name: Naming, ttl: int, sqrt: real -> real)
    requires IsRoot(sqrt) && ttl > 0 && P.RATE_LIMIT <= at <= again < at + P.RATE_LIMIT
    ensures var a, b := SensorAt(Place(Some(device), 1)), SensorAt(Place(Some(device), 9));
            var samples := TwoDangers(a, b, at);
            var items := [FromPipeline(DangerPush(a, at), Some(event), Adds(0)),
                          FromPipeline(DangerPush(b, at), Some(event), Adds(0))];
            && LegalItems(items, name, samples, iset{PlaceOf(a), PlaceOf(b)}, sqrt) && P.InTimeOrder(samples)
            && OutcomeOf(StepsOf(items, name), 1, ttl) == Suppressed
            && P.StaticRiskOf(Danger120(b, again)) == Danger
            && P.Run(samples + [Danger120(b, again)], sqrt).pushes == P.Run(samples, sqrt).pushes
  {
    var a, b := SensorAt(Place(Some(device), 1)), SensorAt(Place(Some(device), 9));
    var samples, places := TwoDangers(a, b, at), iset{PlaceOf(a), PlaceOf(b)};
    var first, second := FromPipeline(DangerPush(a, at), Some(event), Adds(0)),
                         FromPipeline(DangerPush(b, at), Some(event), Adds(0));
    TwoDangersPush(a, b, at, sqrt);
    TwoDangersMeasured(a, b, at, places);
    TwoItems(first, second, name, samples, places, sqrt);
    AiIdentity(first, name);
    AiIdentity(second, name);
    FingerprintOfIdentity(StepOf(first, name).payload);
    FingerprintOfIdentity(StepOf(second, name).payload);
    SecondIsDropped(StepsOf([first, second], name), ttl);
    RepeatIsHeldBack(samples, b, at, again, sqrt);
  }

  lemma RepeatIsHeldBack(samples: seq<P.Sample>, b: P.Sensor, at: int, again: int, sqrt: real -> real)
    requires IsRoot(sqrt) && P.InferenceEnabled(b.channel) && again < at + P.RATE_LIMIT
    requires var s := P.Run(samples, sqrt);
             && b in s.lastFired && s.lastFired[b] == at
             && b.channel in s.windows && s.windows[b.channel] == CalmWindow(WARM_UP) + [120.0]
    ensures P.StaticRiskOf(Danger120(b, again)) == Danger
    ensures P.Run(samples + [Danger120(b, again)], sqrt).pushes == P.Run(samples, sqrt).pushes
  {
    assert Percent(120.0, 100.0) == 120.0;
    WarmIsFull(P.Run(samples, sqrt), Danger120(b, again));
    Strikes(P.Run(samples, sqrt), Danger120(b, again), 120.0, false, false, sqrt);
    RunOne(samples, Danger120(b, again), sqrt);
  }
}
