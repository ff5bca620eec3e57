/**
 The power pipeline's pushes on the shared stream. A static alarm's key holds its source, the label of its channel
 and its risk; an AI alarm's key holds the event it was answered with, if any, and otherwise device and channel.
 Samples are power samples, the only ones the pipeline is given.
 */
module PowerStream {
  import opened Wrappers
  import opened RiskLevels
  import opened AlarmPayload
  import opened AlarmQueue
  import opened ChangePoint
  import opened PowerLabels
  import opened PowerRisk
  import opened PowerRuns
  import opened Statistics
  import P = PowerInference
  import ZScore

  function SourceText(source: AlarmSource): (text: string)
    ensures ':' !in text
  {
    match source
    case Ai => "ai"
    case StaticCoverMiss => "static_cover_miss"
    case StaticCoverInferenceFail => "static_cover_inference_fail"
    case StaticCoverWarmup => "static_cover_warmup"
    case StaticNoAiAvailable => "static_no_ai_available"
  }

  lemma SourceTextInjective(s: AlarmSource, t: AlarmSource)
    requires SourceText(s) == SourceText(t)
    ensures s == t
  {
    assert "static_cover_miss"[13] != "static_cover_inference_fail"[13];
    assert "static_cover_miss"[13] != "static_cover_warmup"[13];
    assert "static_cover_inference_fail"[13] != "static_cover_warmup"[13];
    assert "static_no_ai_available"[7] != "static_cover_miss"[7];
    assert "static_no_ai_available"[7] != "static_cover_warmup"[7];
    assert "static_no_ai_available"[7] != "static_cover_inference_fail"[7];
    assert |"ai"| == 2;
  }

  function PlaceOf(sensor: P.Sensor): Place { Place(sensor.device, sensor.channel.number) }

  function SensorAt(place: Place): P.Sensor { P.Sensor(place.device, Channel(place.number, "watt")) }

  predicate IsStatic(p: P.Push) { p.decision.source != Ai }

  /** `event` is the id the forwarded AI alarm was answered with, if it came in time. */
  function PayloadOf(p: P.Push, event: Option<int>, text: string): Payload {
    var risk, source := Some(RiskText(p.decision.risk)), Some(SourceText(p.decision.source));
    if IsStatic(p) then Payload(None, risk, None, Some("power_overload"), Some(text), source, None)
    else
      Payload(event, risk, None, Some("power_anomaly_ai"), Some(text), source,
              Some(Meta(p.sensor.device, Some(p.sensor.channel.number))))
  }

  /** One push to the stream: by the pipeline, or by someone else, who sends no static alarms. */
  datatype Item = FromPipeline(push: P.Push, event: Option<int>, xadd: XAdd) | FromOthers(step: PushStep)

  function StepOf(i: Item, name: Naming): PushStep {
    match i
    case FromPipeline(p, event, xadd) => PushStep(PayloadOf(p, event, name(PlaceOf(p.sensor), p.at)), p.at, xadd)
    case FromOthers(step) => step
  }

  function StepsOf(items: seq<Item>, name: Naming): (steps: seq<PushStep>)
    ensures |steps| == |items| && forall k | 0 <= k < |items| :: steps[k] == StepOf(items[k], name)
  {
    seq(|items|, k requires 0 <= k < |items| => StepOf(items[k], name))
  }

  predicate StaticItem(i: Item) { i.FromPipeline? && IsStatic(i.push) }

  predicate AiItem(i: Item) { i.FromPipeline? && !IsStatic(i.push) }

  predicate Theirs(step: PushStep) {
    Identify(step.payload).Some? ==> !Identify(step.payload).value.StaticCover?
  }

  function PushesIn(items: seq<Item>): seq<P.Push> {
    if items == [] then []
    else
      var rest := PushesIn(items[..|items| - 1]);
      match items[|items| - 1] case FromPipeline(p, _, _) => rest + [p] case FromOthers(_) => rest
  }

  /** Power samples of channels in `places`. */
  ghost predicate Measured(samples: seq<P.Sample>, places: iset<Place>) {
    forall x <- samples :: x.sensor.channel.dataType == "watt" && PlaceOf(x.sensor) in places
  }

  /** What runs of the pipeline and of everybody else may put on the stream. */
  ghost predicate LegalItems(items: seq<Item>, name: Naming, samples: seq<P.Sample>, places: iset<Place>,
                             sqrt: real -> real)
    requires IsRoot(sqrt)
  {
    && Measured(samples, places)
    && PushesIn(items) == P.Run(samples, sqrt).pushes
    && InTimeOrder(StepsOf(items, name))
    && forall i <- items | i.FromOthers? :: Theirs(i.step)
  }

  // ---------------------------------------------------------------------------
  // Where pushes come from
  // ---------------------------------------------------------------------------

  /** Its place is one of `places`, and its source tells whether inference covers it. */
  ghost predicate Belongs(p: P.Push, places: iset<Place>) {
    && p.sensor.channel.dataType == "watt" && PlaceOf(p.sensor) in places
    && (p.decision.source == StaticNoAiAvailable <==> !Enabled(PlaceOf(p.sensor)))
  }

  lemma ConcludeUsesAi(s: P.State, x: P.Sample, combined: Combined)
    requires x.value.Some?
    ensures var s' := P.Conclude(s, x, combined);
            |s'.pushes| == |s.pushes| + 1 ==> s'.pushes[|s.pushes|].decision.source != StaticNoAiAvailable
  {
  }

  lemma InferUsesAi(s: P.State, x: P.Sample, window: seq<real>, sqrt: real -> real)
    requires IsRoot(sqrt) && P.Sane(s) && x.value.Some?
    ensures var s' := P.Infer(s, x, window, sqrt);
            |s'.pushes| == |s.pushes| + 1 ==> s'.pushes[|s.pushes|].decision.source != StaticNoAiAvailable
  {
    if x.models.Answers? {
      var key, v := x.sensor.channel, x.value.value;
      var zScore := ZScore.ZScoreCheck(window, v, P.ZSCORE_THRESHOLD, sqrt).0;
      var (machine, changePoint) := Detect(P.MachineAt(s, key), v, sqrt);
      var threshold := CalculatePowerRisk(v, key.dataType, x.entry);
      if threshold.Ok? {
        var axes := Combine5(threshold.value, x.models.anomaly, x.models.arima, zScore, changePoint).0;
        ConcludeUsesAi(s.(machines := s.machines[key := machine]), x,
                       if P.NightRaises(x) then NightEscalation(axes) else axes);
      }
    }
  }

  lemma SourceTellsEnabled(s: P.State, x: P.Sample, sqrt: real -> real)
    requires IsRoot(sqrt) && P.Sane(s)
    ensures var s' := P.Process(s, x, sqrt);
            |s'.pushes| == |s.pushes| + 1 ==>
              (s'.pushes[|s.pushes|].decision.source == StaticNoAiAvailable <==> !P.InferenceEnabled(x.sensor.channel))
  {
    if P.Usable(x.value, x.sensor.channel.dataType).Some? && P.InferenceEnabled(x.sensor.channel) {
      var window := P.WindowAfter(s, x);
      InferUsesAi(s.(windows := s.windows[x.sensor.channel := window]), x, window, sqrt);
    }
  }

  lemma {:induction false} PushesBelong(samples: seq<P.Sample>, places: iset<Place>, sqrt: real -> real)
    requires IsRoot(sqrt) && Measured(samples, places)
    ensures forall p <- P.Run(samples, sqrt).pushes :: Belongs(p, places)
  {
    if samples != [] {
      var init, x := samples[..|samples| - 1], samples[|samples| - 1];
      var s, s' := P.Run(init, sqrt), P.Run(samples, sqrt);
      PushesBelong(init, places, sqrt);
      P.AtMostOnePush(s, x, sqrt);
      SourceTellsEnabled(s, x, sqrt);
      if s'.pushes != s.pushes {
        assert s'.pushes == s.pushes + [s'.pushes[|s.pushes|]];
      }
    }
  }

  /** How many pushes of the pipeline come before item `k`. */
  function PushesBefore(items: seq<Item>, k: nat): nat
    requires k <= |items|
  {
    |PushesIn(items[..k])|
  }

  lemma {:induction false} PushAt(items: seq<Item>, k: nat)
    requires k < |items| && items[k].FromPipeline?
    ensures PushesBefore(items, k) < |PushesIn(items)| && PushesIn(items)[PushesBefore(items, k)] == items[k].push
  {
    var n := |items| - 1;
    if k == n {
      assert PushesIn(items) == PushesIn(items[..n]) + [items[n].push];
    } else {
      PushAt(items[..n], k);
      assert items[..n][..k] == items[..k];
    }
  }

  lemma PushesAscend(items: seq<Item>, j: nat, k: nat)
    requires j < k < |items| && items[j].FromPipeline?
    ensures PushesBefore(items, j) < PushesBefore(items, k)
  {
    PushAt(items[..k], j);
    assert items[..k][..j] == items[..j];
  }

  lemma ItemBelongs(items: seq<Item>, name: Naming, samples: seq<P.Sample>, places: iset<Place>, sqrt: real -> real,
                    k: nat)
    requires IsRoot(sqrt) && LegalItems(items, name, samples, places, sqrt) && k < |items| && items[k].FromPipeline?
    ensures Belongs(items[k].push, places)
  {
    PushesBelong(samples, places, sqrt);
    PushAt(items, k);
  }

  // ---------------------------------------------------------------------------
  // Static alarms: dropped for whom?
  // ---------------------------------------------------------------------------

  /** Item `j` is an alarm of the same sensor with the same decision, accepted less than a TTL before `now`. */
  predicate OwnAccepted(items: seq<Item>, name: Naming, ttl: int, p: P.Push, j: nat, now: int) {
    && j < |items| && items[j].FromPipeline?
    && items[j].push.sensor == p.sensor && items[j].push.decision == p.decision
    && OutcomeOf(StepsOf(items, name), j, ttl) != Suppressed && now < items[j].push.at + ttl
  }

  /** A static alarm is dropped only for one of its own sensor with the same source and risk. */
  ghost predicate DropsAreOwn(items: seq<Item>, name: Naming, ttl: int) {
    forall k | 0 <= k < |items| && StaticItem(items[k]) && OutcomeOf(StepsOf(items, name), k, ttl) == Suppressed ::
      exists j: nat :: j < k && OwnAccepted(items, name, ttl, items[k].push, j, items[k].push.at)
  }

  lemma StaticFingerprint(p: P.Push, event: Option<int>, text: string)
    requires IsStatic(p)
    ensures Fingerprint(PayloadOf(p, event, text)) ==
            if text == "" then None
            else Some(Key(StaticCover(SourceText(p.decision.source), text, RiskText(p.decision.risk))))
  {
    assert SourceText(p.decision.source) != "" by { assert |"static_cover_miss"| > 0; }
    FingerprintOfIdentity(PayloadOf(p, event, text));
  }

  /** Static alarms have the same key iff source, name and risk are the same. */
  lemma StaticKeyInjective(p: P.Push, text: string, q: P.Push, text': string)
    requires IsStatic(p) && IsStatic(q) && text != "" && text' != ""
    requires Fingerprint(PayloadOf(p, None, text)) == Fingerprint(PayloadOf(q, None, text'))
    ensures p.decision == q.decision && text == text'
  {
    var d, e := p.decision, q.decision;
    var mine := StaticCover(SourceText(d.source), text, RiskText(d.risk));
    var other := StaticCover(SourceText(e.source), text', RiskText(e.risk));
    StaticFingerprint(p, None, text);
    StaticFingerprint(q, None, text');
    KeyInjective(mine, other);
    SourceTextInjective(d.source, e.source);
    RiskTextInjective(d.risk, e.risk);
  }

  /** Whatever bears a static alarm's key is a static alarm of the same source, name and risk. */
  lemma SameKeySameAlarm(i: Item, p: P.Push, text: string, name: Naming)
    requires IsStatic(p) && text != "" && (i.FromOthers? ==> Theirs(i.step))
    requires Fingerprint(StepOf(i, name).payload) == Fingerprint(PayloadOf(p, None, text))
    ensures StaticItem(i) && i.push.decision == p.decision && name(PlaceOf(i.push.sensor), i.push.at) == text
  {
    var cover := StaticCover(SourceText(p.decision.source), text, RiskText(p.decision.risk));
    StaticFingerprint(p, None, text);
    FingerprintOfIdentity(StepOf(i, name).payload);
    if StaticItem(i) {
      StaticFingerprint(i.push, i.event, name(PlaceOf(i.push.sensor), i.push.at));
      StaticKeyInjective(i.push, name(PlaceOf(i.push.sensor), i.push.at), p, text);
    } else {
      var other := Identify(StepOf(i, name).payload).value;
      assert !other.StaticCover?;
      TagsDiffer(other, cover);
      KeysOfOtherKindDiffer(other, cover);
    }
  }

  lemma TagsDiffer(i: Identity, cover: Identity)
    requires cover.StaticCover? && !i.StaticCover?
    ensures Tag(i) != Tag(cover)
  {
    assert |"event"| == |"clear"| == |"cover"| && "event"[0] != "cover"[0] && "clear"[1] != "cover"[1] && |"ai"| == 2;
  }

  /** What made the stream drop item `k`. */
  lemma Dropper(items: seq<Item>, name: Naming, ttl: int, k: nat) returns (j: nat)
    requires k < |items| && InTimeOrder(StepsOf(items, name))
    requires OutcomeOf(StepsOf(items, name), k, ttl) == Suppressed
    ensures var steps := StepsOf(items, name);
            && j < k && OutcomeOf(steps, j, ttl) != Suppressed && steps[j].at <= steps[k].at < steps[j].at + ttl
            && Fingerprint(steps[k].payload).Some?
            && Fingerprint(steps[j].payload) == Fingerprint(steps[k].payload)
  {
    var steps := StepsOf(items, name);
    SuppressedIffAccepted(steps[..k], ttl, steps[k].payload, steps[k].at, steps[k].xadd);
    var fp := Fingerprint(steps[k].payload).value;
    j :| RecentlyAccepted(steps[..k], j, ttl, fp, steps[k].at);
    EarlierPush(steps, j, k, ttl, fp, steps[k].at, Appended);
    EarlierPush(steps, j, k, ttl, fp, steps[k].at, Lost);
  }

  lemma NamedApartDropsAreOwn(items: seq<Item>, name: Naming, ttl: int, samples: seq<P.Sample>, places: iset<Place>,
                              sqrt: real -> real)
    requires IsRoot(sqrt) && LegalItems(items, name, samples, places, sqrt) && NamesDistinguish(places, name, ttl)
    ensures DropsAreOwn(items, name, ttl)
  {
    forall k | 0 <= k < |items| && StaticItem(items[k]) && OutcomeOf(StepsOf(items, name), k, ttl) == Suppressed
      ensures exists j: nat :: j < k && OwnAccepted(items, name, ttl, items[k].push, j, items[k].push.at)
    {
      var p := items[k].push;
      var j := Dropper(items, name, ttl, k);
      var text := name(PlaceOf(p.sensor), p.at);
      StaticFingerprint(p, items[k].event, text);
      StaticFingerprint(p, None, text);
      assert items[j] in items;
      SameKeySameAlarm(items[j], p, text, name);
      ItemBelongs(items, name, samples, places, sqrt, j);
      ItemBelongs(items, name, samples, places, sqrt, k);
      var q := items[j].push;
      assert !Confused(name, ttl, PlaceOf(q.sensor), PlaceOf(p.sensor), q.at, p.at);
      assert OwnAccepted(items, name, ttl, p, j, p.at);
    }
  }

  // ---------------------------------------------------------------------------
  // Without distinct names
  // ---------------------------------------------------------------------------

  /** A sample far above its sensor's rating. */
  function Overload(place: Place, at: int): P.Sample {
    P.Sample(SensorAt(place), Some(120.0), at, None, P.NotLoaded, ChannelEntry(Some(100.0), None, None),
             map["watt" := BuiltIn("watt")], 0)
  }

  function OverloadPush(place: Place, at: int): P.Push {
    P.Push(SensorAt(place), at, Decision(if Enabled(place) then StaticCoverWarmup else StaticNoAiAvailable, Danger), 0)
  }

  lemma OverloadPushes(s: P.State, place: Place, at: int, sqrt: real -> real)
    requires IsRoot(sqrt) && P.Sane(s)
    requires |P.WindowAfter(s, Overload(place, at))| < 30
    ensures P.Process(s, Overload(place, at), sqrt).pushes == s.pushes + [OverloadPush(place, at)]
    ensures P.Process(s, Overload(place, at), sqrt).windows == s.windows ||
            P.Process(s, Overload(place, at), sqrt).windows ==
            s.windows[Channel(place.number, "watt") := P.WindowAfter(s, Overload(place, at))]
  {
    assert Percent(120.0, 100.0) == 120.0;
  }

  lemma TwoOverloads(p: Place, t: int, q: Place, u: int, sqrt: real -> real)
    requires IsRoot(sqrt)
    ensures P.Run([Overload(p, t), Overload(q, u)], sqrt).pushes == [OverloadPush(p, t), OverloadPush(q, u)]
  {
    RunOne([], Overload(p, t), sqrt);
    RunOne([Overload(p, t)], Overload(q, u), sqrt);
    assert [] + [Overload(p, t)] == [Overload(p, t)];
    assert [Overload(p, t)] + [Overload(q, u)] == [Overload(p, t), Overload(q, u)];
    var s := P.Run([Overload(p, t)], sqrt);
    assert |P.WindowAfter(P.START, Overload(p, t))| == 1;
    OverloadPushes(P.START, p, t, sqrt);
    assert |P.WindowAfter(s, Overload(q, u))| <= 2;
    OverloadPushes(s, q, u, sqrt);
    assert [] + [OverloadPush(p, t)] + [OverloadPush(q, u)] == [OverloadPush(p, t), OverloadPush(q, u)];
  }

  /** Two pushes of the pipeline with nothing else on the stream. */
  lemma TwoItems(first: Item, second: Item, name: Naming, samples: seq<P.Sample>, places: iset<Place>,
                 sqrt: real -> real)
    requires IsRoot(sqrt) && Measured(samples, places) && first.FromPipeline? && second.FromPipeline?
    requires P.Run(samples, sqrt).pushes == [first.push, second.push] && first.push.at <= second.push.at
    ensures LegalItems([first, second], name, samples, places, sqrt)
  {
    var items := [first, second];
    assert items[..1] == [first] && [first][..0] == [];
    assert PushesIn([first]) == [] + [first.push];
    assert PushesIn(items) == PushesIn([first]) + [second.push];
  }

  /** The second push of two with one key, less than a TTL apart, is dropped. */
  lemma SecondIsDropped(steps: seq<PushStep>, ttl: int)
    requires |steps| == 2 && InTimeOrder(steps) && steps[1].at < steps[0].at + ttl
    requires Fingerprint(steps[0].payload).Some? && Fingerprint(steps[0].payload) == Fingerprint(steps[1].payload)
    ensures OutcomeOf(steps, 0, ttl) != Suppressed && OutcomeOf(steps, 1, ttl) == Suppressed
  {
    var fp := Fingerprint(steps[0].payload).value;
    assert steps[..1][..0] == steps[..0] == [];
    assert RecentlyAccepted(steps[..1], 0, ttl, fp, steps[1].at);
    SuppressedIffAccepted(steps[..1], ttl, steps[1].payload, steps[1].at, steps[1].xadd);
  }

  /** Two overloaded channels whose names are confused: the alarm of the second is dropped as the first one's. */
  lemma SharedNameDrops(p: Place, t: int, q: Place, u: int, name: Naming, ttl: int, sqrt: real -> real)
    requires IsRoot(sqrt) && Confused(name, ttl, p, q, t, u)
    ensures var items := [FromPipeline(OverloadPush(p, t), None, Adds(0)),
                          FromPipeline(OverloadPush(q, u), None, Adds(0))];
            && LegalItems(items, name, [Overload(p, t), Overload(q, u)], iset{p, q}, sqrt)
            && OutcomeOf(StepsOf(items, name), 1, ttl) == Suppressed
  {
    var first := FromPipeline(OverloadPush(p, t), None, Adds(0));
    var second := FromPipeline(OverloadPush(q, u), None, Adds(0));
    TwoOverloads(p, t, q, u, sqrt);
    TwoItems(first, second, name, [Overload(p, t), Overload(q, u)], iset{p, q}, sqrt);
    StaticFingerprint(OverloadPush(p, t), None, name(p, t));
    StaticFingerprint(OverloadPush(q, u), None, name(q, u));
    SecondIsDropped(StepsOf([first, second], name), ttl);
  }

  lemma LegalInMorePlaces(items: seq<Item>, name: Naming, samples: seq<P.Sample>, some: iset<Place>,
                          places: iset<Place>, sqrt: real -> real)
    requires IsRoot(sqrt) && LegalItems(items, name, samples, some, sqrt) && some <= places
    ensures LegalItems(items, name, samples, places, sqrt)
  {
  }

  /**
   In every run of the pipeline on power samples of channels in `places`, whatever others push and whichever XADDs
   fail, static alarms are dropped only for static alarms of their own sensor, with the same source and risk, iff
   names distinguish `places`.
   */
  lemma DropsAreOwnIffNamesDistinguish(places: iset<Place>, name: Naming, ttl: int, sqrt: real -> real)
    requires IsRoot(sqrt)
    ensures NamesDistinguish(places, name, ttl) <==>
            forall items: seq<Item>, samples: seq<P.Sample> | LegalItems(items, name, samples, places, sqrt) ::
              DropsAreOwn(items, name, ttl)
  {
    if NamesDistinguish(places, name, ttl) {
      forall items: seq<Item>, samples: seq<P.Sample> | LegalItems(items, name, samples, places, sqrt)
        ensures DropsAreOwn(items, name, ttl)
      {
        NamedApartDropsAreOwn(items, name, ttl, samples, places, sqrt);
      }
    } else {
      var p, q, t, u :| p in places && q in places && Confused(name, ttl, p, q, t, u);
      SharedNameDrops(p, t, q, u, name, ttl, sqrt);
      var items := [FromPipeline(OverloadPush(p, t), None, Adds(0)), FromPipeline(OverloadPush(q, u), None, Adds(0))];
      LegalInMorePlaces(items, name, [Overload(p, t), Overload(q, u)], iset{p, q}, places, sqrt);
      assert StaticItem(items[1]);
      forall j: nat | j < 1 ensures !OwnAccepted(items, name, ttl, items[1].push, j, items[1].push.at) {
        assert items[j].push.sensor == SensorAt(p);
      }
      assert !DropsAreOwn(items, name, ttl);
    }
  }

  /** Where names distinguish, every static alarm was accepted, or one like it less than a TTL before. */
  lemma StaticAlarmWasAccepted(items: seq<Item>, name: Naming, ttl: int, samples: seq<P.Sample>, places: iset<Place>,
                               sqrt: real -> real, k: nat)
    requires IsRoot(sqrt) && ttl > 0 && LegalItems(items, name, samples, places, sqrt)
    requires NamesDistinguish(places, name, ttl) && k < |items| && StaticItem(items[k])
    ensures exists j: nat :: j <= k && OwnAccepted(items, name, ttl, items[k].push, j, items[k].push.at)
  {
    NamedApartDropsAreOwn(items, name, ttl, samples, places, sqrt);
    if OutcomeOf(StepsOf(items, name), k, ttl) != Suppressed {
      assert OwnAccepted(items, name, ttl, items[k].push, k, items[k].push.at);
    }
  }

  /** Two devices without names, known or not: a danger on a channel of the one hides that on the other's. */
  lemma UnnamedTwinsDrop(p: Place, q: Place, table: Table, t: int, u: int, ttl: int, sqrt: real -> real)
    requires IsRoot(sqrt) && t <= u < t + ttl && p != q && p.number == q.number
    requires !Filled(EntryName(table, p)) && !Filled(EntryName(table, q))
    ensures var items := [FromPipeline(OverloadPush(p, t), None, Adds(0)),
                          FromPipeline(OverloadPush(q, u), None, Adds(0))];
            && LegalItems(items, SteadyLabels(table), [Overload(p, t), Overload(q, u)], iset{p, q}, sqrt)
            && OutcomeOf(StepsOf(items, SteadyLabels(table)), 1, ttl) == Suppressed
  {
    SharedNameDrops(p, t, q, u, SteadyLabels(table), ttl, sqrt);
  }
}
