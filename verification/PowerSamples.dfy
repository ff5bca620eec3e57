/**
 What one sample does, said in numbers: which values count, which risk they have, and at what hours a quiet sample
 raises an alarm.
 */
module PowerSamples {
  import opened Wrappers
  import opened RiskLevels
  import opened ChangePoint
  import opened PowerInference
  import opened PowerRisk
  import opened PowerRuns
  import opened PowerService
  import opened PowerSeverity
  import opened Statistics
  import ZScore

  // ---------------------------------------------------------------------------
  // Which samples count
  // ---------------------------------------------------------------------------

  function LastThirty(values: seq<real>): seq<real> {
    if |values| <= 30 then values else values[|values| - 30..]
  }

  /** The largest value that counts, where there is one. */
  function Limit(dataType: string): Option<real> {
    match dataType
    case "watt" => Some(50000.0)
    case "current" => Some(200.0)
    case "voltage" => Some(600.0)
    case _ => None
  }

  /** A value that is missing, -1 or above the limit of its type. */
  predicate Ignored(value: Option<real>, dataType: string) {
    value == None || value == Some(-1.0) || (Limit(dataType).Some? && value.value > Limit(dataType).value)
  }

  /**
   An ignored value leaves no trace. Any other power value of a channel with a model becomes the newest of its window
   of 30; other channels have no window.
   */
  lemma SampleCounts(s: State, x: Sample, sqrt: real -> real)
    requires IsRoot(sqrt) && Sane(s)
    ensures var s', key := Process(s, x, sqrt), x.sensor.channel;
            && (Ignored(x.value, key.dataType) ==> s' == s)
            && s'.windows ==
               if !Ignored(x.value, key.dataType) && key.dataType == "watt" && key.number in {1, 9, 14, 15} then
                 s.windows[key := LastThirty((if key in s.windows then s.windows[key] else []) + [x.value.value])]
               else s.windows
  {
    var key := x.sensor.channel;
    UsableIff(x.value, key.dataType);
    if Usable(x.value, key.dataType).Some? && InferenceEnabled(key) {
      WindowIs(s, x);
      CountedSample(s, x, sqrt);
    }
  }

  lemma UsableIff(value: Option<real>, dataType: string)
    ensures Usable(value, dataType) == if Ignored(value, dataType) then None else value
  {
    assert |"watt"| == 4 && |"current"| == |"voltage"| == 7 && "current"[0] != "voltage"[0];
  }

  /** The pipeline is silent on a channel with a model when 30 values in a row are the same, or the model is missing. */
  lemma SilencedMeans(s: State, x: Sample)
    requires x.value.Some?
    ensures var w, key := WindowAfter(s, x), x.sensor.channel;
            Silenced(s, x) <==>
            && key.dataType == "watt" && key.number in {1, 9, 14, 15} && |w| >= 30
            && (x.models.NotLoaded? || forall j, k | 0 <= j < |w| && 0 <= k < |w| :: w[j] == w[k])
  {
    var w := WindowAfter(s, x);
    if Stuck(w) {
      forall j | 0 <= j < |w| ensures w[j] == w[0] { assert w[j] in w; }
    }
  }

  lemma WindowIs(s: State, x: Sample)
    requires x.value.Some?
    ensures var key := x.sensor.channel;
            WindowAfter(s, x) == LastThirty((if key in s.windows then s.windows[key] else []) + [x.value.value])
  {
  }

  lemma CountedSample(s: State, x: Sample, sqrt: real -> real)
    requires IsRoot(sqrt) && Sane(s) && InferenceEnabled(x.sensor.channel)
    requires Usable(x.value, x.sensor.channel.dataType).Some?
    ensures Process(s, x, sqrt).windows == s.windows[x.sensor.channel := WindowAfter(s, x)]
  {
    var window := WindowAfter(s, x);
    InferKeepsWindows(s.(windows := s.windows[x.sensor.channel := window]), x, window, sqrt);
  }

  lemma InferKeepsWindows(s: State, x: Sample, window: seq<real>, sqrt: real -> real)
    requires IsRoot(sqrt) && Sane(s) && x.value.Some?
    ensures Infer(s, x, window, sqrt).windows == s.windows
  {
  }

  // ---------------------------------------------------------------------------
  // Which risk they have
  // ---------------------------------------------------------------------------

  /** The value is at least this percentage of the rated one. */
  predicate Reaches(v: real, pct: real, rated: real) {
    if rated > 0.0 then 100.0 * v >= pct * rated else 100.0 * v <= pct * rated
  }

  lemma ReachesIff(v: real, pct: real, rated: real)
    requires rated != 0.0
    ensures Percent(v, rated) >= pct <==> Reaches(v, pct, rated)
  {
    var q := v / rated;
    assert q * rated == v;
    if rated > 0.0 {
      Ordered(q * 100.0, pct, rated);
    } else {
      Ordered(q * 100.0, pct, -rated);
    }
  }

  lemma Ordered(a: real, b: real, c: real)
    requires c > 0.0
    ensures a >= b <==> a * c >= b * c
  {
  }

  /** The rated value a data type is compared with. */
  function Rated(entry: ChannelEntry, dataType: string): Option<real> {
    match dataType
    case "watt" => entry.ratedW
    case "current" => entry.ratedA
    case "voltage" => entry.ratedV
    case _ => None
  }

  /** Power and current: the risk against synced maxima. */
  lemma StaticRiskIs(x: Sample)
    requires x.value.Some? && (x.sensor.channel.dataType == "watt" || x.sensor.channel.dataType == "current")
    ensures var dataType, v := x.sensor.channel.dataType, x.value.value; var rated := Rated(x.entry, dataType);
            StaticRiskOf(x) ==
            if rated == None || rated == Some(0.0) || dataType !in x.synced then Normal
            else
              var t := x.synced[dataType];
              if t.warningMax == None || t.dangerMax == None then Normal
              else if Reaches(v, t.dangerMax.value, rated.value) then Danger
              else if Reaches(v, t.warningMax.value, rated.value) then Warning
              else Normal
  {
    var dataType, v := x.sensor.channel.dataType, x.value.value;
    assert "watt" != "current" by { assert |"watt"| != |"current"|; }
    var rated := Rated(x.entry, dataType);
    if rated.Some? && rated.value != 0.0 && dataType in x.synced {
      var t := x.synced[dataType];
      if t.warningMax.Some? { ReachesIff(v, t.warningMax.value, rated.value); }
      if t.dangerMax.Some? { ReachesIff(v, t.dangerMax.value, rated.value); }
    }
  }

  /** The value is at most this percentage of the rated one. */
  predicate Stays(v: real, pct: real, rated: real) {
    if rated > 0.0 then 100.0 * v <= pct * rated else 100.0 * v >= pct * rated
  }

  lemma StaysIff(v: real, pct: real, rated: real)
    requires rated != 0.0
    ensures Percent(v, rated) <= pct <==> Stays(v, pct, rated)
  {
    ReachesIff(-v, -pct, rated);
    assert Percent(-v, rated) == -Percent(v, rated);
  }

  /** Voltage: the risk against synced bounds, of which any may be missing. */
  lemma StaticVoltageRiskIs(x: Sample)
    requires x.value.Some? && x.sensor.channel.dataType == "voltage"
    ensures var v := x.value.value;
            StaticRiskOf(x) ==
            if x.entry.ratedV == None || x.entry.ratedV == Some(0.0) || "voltage" !in x.synced then Normal
            else
              var (t, rated) := (x.synced["voltage"], x.entry.ratedV.value);
              if (t.dangerMin.Some? && Stays(v, t.dangerMin.value, rated))
                 || (t.dangerMax.Some? && Reaches(v, t.dangerMax.value, rated)) then Danger
              else if (t.warningMin.Some? && Stays(v, t.warningMin.value, rated))
                      || (t.warningMax.Some? && Reaches(v, t.warningMax.value, rated)) then Warning
              else Normal
  {
    assert "voltage" != "watt" && "voltage" != "current" by { assert |"watt"| == 4 && "voltage"[0] != "current"[0]; }
    var v := x.value.value;
    if x.entry.ratedV.Some? && x.entry.ratedV.value != 0.0 && "voltage" in x.synced {
      var t, rated := x.synced["voltage"], x.entry.ratedV.value;
      if t.dangerMin.Some? { StaysIff(v, t.dangerMin.value, rated); }
      if t.dangerMax.Some? { ReachesIff(v, t.dangerMax.value, rated); }
      if t.warningMin.Some? { StaysIff(v, t.warningMin.value, rated); }
      if t.warningMax.Some? { ReachesIff(v, t.warningMax.value, rated); }
    }
  }

  /** The threshold evaluator of the inference refuses all but the three quantities. */
  lemma ThresholdAxisFailsIff(v: real, dataType: string, entry: ChannelEntry)
    ensures CalculatePowerRisk(v, dataType, entry).Err? <==> dataType !in {"watt", "current", "voltage"}
  {
  }

  /** The threshold axis of the inference: 80 and 100 percent of the rated power, whatever was synced. */
  lemma ThresholdAxisIs(v: real, entry: ChannelEntry)
    ensures CalculatePowerRisk(v, "watt", entry) ==
            Ok(if entry.ratedW == None || entry.ratedW == Some(0.0) then Normal
               else if Reaches(v, 100.0, entry.ratedW.value) then Danger
               else if Reaches(v, 80.0, entry.ratedW.value) then Warning
               else Normal)
  {
    if entry.ratedW.Some? && entry.ratedW.value != 0.0 {
      ReachesIff(v, 100.0, entry.ratedW.value);
      ReachesIff(v, 80.0, entry.ratedW.value);
    }
  }

  // ---------------------------------------------------------------------------
  // Sources and the rate limit
  // ---------------------------------------------------------------------------

  lemma InferSource(s: State, x: Sample, sqrt: real -> real)
    requires IsRoot(sqrt) && Sane(s) && x.value.Some? && StaticRiskOf(x) != Normal
    requires InferenceEnabled(x.sensor.channel) && Full(s, x) && !x.models.NotLoaded? && !Overrules(s, x, sqrt)
    ensures var window := WindowAfter(s, x);
            var s' := Infer(s.(windows := s.windows[x.sensor.channel := window]), x, window, sqrt);
            var source := if Inferred(s, x, sqrt).None? then StaticCoverInferenceFail else StaticCoverMiss;
            s'.pushes == s.pushes + [Push(x.sensor, x.at, Decision(source, StaticRiskOf(x)), x.keys)]
  {
  }

  /** Where the AI has no alarm of its own the static alarm goes out, and its source says what the AI was doing. */
  lemma StaticSourceIs(s: State, x: Sample, sqrt: real -> real)
    requires IsRoot(sqrt) && Sane(s) && Usable(x.value, x.sensor.channel.dataType).Some?
    requires StaticRiskOf(x) != Normal && !Silenced(s, x) && !Overrules(s, x, sqrt)
    ensures var source :=
              if x.sensor.channel.dataType != "watt" || x.sensor.channel.number !in {1, 9, 14, 15}
              then StaticNoAiAvailable
              else if |WindowAfter(s, x)| < 30 then StaticCoverWarmup
              else if Inferred(s, x, sqrt).None? then StaticCoverInferenceFail
              else StaticCoverMiss;
            Process(s, x, sqrt).pushes ==
            s.pushes + [Push(x.sensor, x.at, Decision(source, StaticRiskOf(x)), x.keys)]
  {
    if InferenceEnabled(x.sensor.channel) && Full(s, x) { InferSource(s, x, sqrt); }
  }

  /** On every run a sample is rate limited iff the AI pushed for its sensor less than 60 seconds before. */
  lemma RateLimitedIff(samples: seq<Sample>, x: Sample, sqrt: real -> real)
    requires IsRoot(sqrt) && InTimeOrder(samples) && x.at >= 60_000_000
    ensures RateLimited(Run(samples, sqrt), x) <==>
            exists p <- Run(samples, sqrt).pushes ::
              p.sensor == x.sensor && p.decision.source == Ai && x.at - p.at < 60_000_000
  {
    var s := Run(samples, sqrt);
    RunStampsArePushes(samples, sqrt);
    if samples != [] { RunAiPushes(samples, sqrt, samples[|samples| - 1].at); }
    if x.sensor in s.lastFired {
      var p :| p in s.pushes && p.sensor == x.sensor && p.at == s.lastFired[x.sensor] && p.decision.source == Ai;
    }
  }

  // ---------------------------------------------------------------------------
  // The change-point axis in the pipeline
  // ---------------------------------------------------------------------------

  /** The sample gets as far as the change-point machine. */
  predicate Detects(s: State, x: Sample) {
    && Usable(x.value, x.sensor.channel.dataType).Some? && InferenceEnabled(x.sensor.channel) && Full(s, x)
    && (x.models.Answers? || x.models.ArimaRaises?)
  }

  /** The values of a channel that did. */
  function Detected(samples: seq<Sample>, key: Channel, sqrt: real -> real): seq<real>
    requires IsRoot(sqrt)
  {
    if samples == [] then []
    else
      var init, x := samples[..|samples| - 1], samples[|samples| - 1];
      var before := Detected(init, key, sqrt);
      if Detects(Run(init, sqrt), x) && x.sensor.channel == key then before + [x.value.value] else before
  }

  lemma InferMachines(s: State, x: Sample, window: seq<real>, sqrt: real -> real)
    requires IsRoot(sqrt) && Sane(s) && x.value.Some?
    ensures Infer(s, x, window, sqrt).machines ==
            if x.models.Answers? || x.models.ArimaRaises? then
              s.machines[x.sensor.channel := Detect(MachineAt(s, x.sensor.channel), x.value.value, sqrt).0]
            else s.machines
  {
  }

  lemma SampleMachines(s: State, x: Sample, sqrt: real -> real)
    requires IsRoot(sqrt) && Sane(s)
    ensures Process(s, x, sqrt).machines ==
            if Detects(s, x) then
              s.machines[x.sensor.channel := Detect(MachineAt(s, x.sensor.channel), x.value.value, sqrt).0]
            else s.machines
  {
    if Usable(x.value, x.sensor.channel.dataType).Some? && InferenceEnabled(x.sensor.channel) {
      var window := WindowAfter(s, x);
      InferMachines(s.(windows := s.windows[x.sensor.channel := window]), x, window, sqrt);
    }
  }

  /**
   In every run each channel's machine is where the values of that channel that reached it lead, whatever the other
   channels did; so the axis finds a change exactly on the rising edge of its test over those values.
   */
  lemma {:induction false} MachinesFollowTheirChannel(samples: seq<Sample>, key: Channel, sqrt: real -> real)
    requires IsRoot(sqrt)
    ensures var machines := Run(samples, sqrt).machines;
            (if key in machines then machines[key] else NEW_MACHINE) == After(Detected(samples, key, sqrt), sqrt)
  {
    if samples != [] {
      var init, x := samples[..|samples| - 1], samples[|samples| - 1];
      MachinesFollowTheirChannel(init, key, sqrt);
      SampleMachines(Run(init, sqrt), x, sqrt);
      if Detects(Run(init, sqrt), x) && x.sensor.channel == key {
        var before := Detected(init, key, sqrt);
        assert (before + [x.value.value])[..|before|] == before;
      }
    }
  }

  // ---------------------------------------------------------------------------
  // The night
  // ---------------------------------------------------------------------------

  /** The sample is inferred, and no axis finds anything. */
  ghost predicate Quiet(s: State, x: Sample, sqrt: real -> real)
    requires IsRoot(sqrt) && Sane(s)
  {
    && Usable(x.value, "watt").Some? && x.sensor.channel.dataType == "watt"
    && InferenceEnabled(x.sensor.channel) && Full(s, x) && x.models == Answers(false, false)
    && (x.entry.ratedW.Some? && x.entry.ratedW != Some(0.0) ==> !Reaches(x.value.value, 80.0, x.entry.ratedW.value))
    && !ZScore.ZScoreCheck(WindowAfter(s, x), x.value.value, 3.0, sqrt).0
    && !Detect(MachineAt(s, x.sensor.channel), x.value.value, sqrt).1
    && StaticRiskOf(x) == Normal && !RateLimited(s, x)
  }

  /**
   A quiet power sample is pushed iff its hour is known and lies between 13 and 20 o'clock UTC, the Korean night, and
   its value above 30 percent of the rated power; it goes out as a warning of the AI.
   */
  lemma QuietSampleAtNight(s: State, c: Call, r: Reading, sqrt: real -> real)
    requires IsRoot(sqrt) && Sane(s) && (c.utcHour.Some? ==> c.utcHour.value < 24)
    requires Quiet(s, Sample(Sensor(c.device, Channel(r.channel, c.dataType)), r.value, r.at, c.utcHour, r.models,
                             r.entry, c.synced, r.keys), sqrt)
    ensures ProcessAll(s, c, [r], sqrt).pushes ==
            s.pushes +
            if c.utcHour.Some? && 13 <= c.utcHour.value < 20
               && r.entry.ratedW.Some? && 10.0 * r.value.value > 3.0 * r.entry.ratedW.value
            then [Push(Sensor(c.device, Channel(r.channel, "watt")), r.at, Decision(Ai, Warning), r.keys)]
            else []
  {
    var x := Sample(Sensor(c.device, Channel(r.channel, c.dataType)), r.value, r.at, c.utcHour, r.models, r.entry,
                    c.synced, r.keys);
    OneReading(s, c, r, sqrt);
    QuietInference(s, x, sqrt);
    assert s.pushes + [] == s.pushes;
  }

  lemma OneReading(s: State, c: Call, r: Reading, sqrt: real -> real)
    requires IsRoot(sqrt) && Sane(s)
    ensures ProcessAll(s, c, [r], sqrt) == Process(s, SampleOf(c, r), sqrt)
  {
    assert [r][..0] == [];
    assert ProcessAll(s, c, [], sqrt) == s;
  }

  lemma QuietInference(s: State, x: Sample, sqrt: real -> real)
    requires IsRoot(sqrt) && Sane(s) && Quiet(s, x, sqrt)
    ensures Process(s, x, sqrt).pushes ==
            if NightRaises(x) then s.pushes + [Push(x.sensor, x.at, Decision(Ai, Warning), x.keys)] else s.pushes
  {
    ThresholdAxisIs(x.value.value, x.entry);
  }

  /** A sample of another quantity with no static risk is pushed at no hour, and neither is one the AI leaves out. */
  lemma OthersAreQuietAtNight(s: State, x: Sample, sqrt: real -> real)
    requires IsRoot(sqrt) && Sane(s) && x.value.Some? && StaticRiskOf(x) == Normal
    requires x.sensor.channel.dataType != "watt" || x.sensor.channel.number !in {1, 9, 14, 15}
    ensures Process(s, x, sqrt).pushes == s.pushes
  {
  }

  /** Between 13 and 20 o'clock UTC, and above 30 percent of the rated power. */
  predicate BusyAtNight(x: Sample)
    requires x.value.Some?
  {
    && x.utcHour.Some? && 13 <= x.utcHour.value < 20
    && x.entry.ratedW.Some? && 10.0 * x.value.value > 3.0 * x.entry.ratedW.value
  }

  lemma NightRaisesIff(x: Sample)
    requires x.value.Some? && x.sensor.channel.dataType == "watt" && (x.utcHour.Some? ==> x.utcHour.value < 24)
    ensures NightRaises(x) <==> BusyAtNight(x)
  {
  }

  /** The value is at least this percentage of a rated power that is known and not 0. */
  predicate ReachesRated(x: Sample, pct: real)
    requires x.value.Some?
  {
    x.entry.ratedW.Some? && x.entry.ratedW != Some(0.0) && Reaches(x.value.value, pct, x.entry.ratedW.value)
  }

  /** The value lies three deviations from the mean of its window. */
  ghost predicate FarOff(s: State, x: Sample, sqrt: real -> real)
    requires IsRoot(sqrt) && x.value.Some? && Full(s, x)
  {
    var w, v := WindowAfter(s, x), x.value.value;
    var far := 3.0 * (sqrt(Variance(w)) + 0.000000001);
    v - Mean(w) >= far || Mean(w) - v >= far
  }

  /**
   What inference makes of a sample that is not rate limited: an AI alarm at any sign of trouble, a danger from the
   rated power on or at 80 percent of it when both models agree; otherwise the static alarm, if there is one.
   */
  lemma InferredSampleIsPushedIff(s: State, x: Sample, sqrt: real -> real)
    requires IsRoot(sqrt) && Sane(s) && x.sensor.channel.dataType == "watt" && Usable(x.value, "watt").Some?
    requires InferenceEnabled(x.sensor.channel) && Full(s, x) && x.models.Answers? && !RateLimited(s, x)
    requires x.utcHour.Some? ==> x.utcHour.value < 24
    ensures var (anomaly, arima) := (x.models.anomaly, x.models.arima);
            var danger := ReachesRated(x, 100.0) || (ReachesRated(x, 80.0) && anomaly && arima);
            var changePoint := Detect(MachineAt(s, x.sensor.channel), x.value.value, sqrt).1;
            var trouble := || anomaly || arima || ReachesRated(x, 80.0) || ReachesRated(x, 100.0)
                           || FarOff(s, x, sqrt) || changePoint || BusyAtNight(x);
            Process(s, x, sqrt).pushes == s.pushes +
              if trouble then [Push(x.sensor, x.at, Decision(Ai, if danger then Danger else Warning), x.keys)]
              else if StaticRiskOf(x) != Normal then
                [Push(x.sensor, x.at, Decision(StaticCoverMiss, StaticRiskOf(x)), x.keys)]
              else []
  {
    ThresholdAxisIs(x.value.value, x.entry);
    NightRaisesIff(x);
    ZScore.ScoreMeans(WindowAfter(s, x), x.value.value, 3.0, sqrt);
    InferredVerdict(s, x, sqrt);
    var changePoint := Detect(MachineAt(s, x.sensor.channel), x.value.value, sqrt).1;
    VerdictInOneFormula(StaticRiskOf(x), CalculatePowerRisk(x.value.value, "watt", x.entry).value, x.models.anomaly,
                        x.models.arima, FarOff(s, x, sqrt), changePoint, BusyAtNight(x));
  }

  lemma InferredVerdict(s: State, x: Sample, sqrt: real -> real)
    requires IsRoot(sqrt) && Sane(s) && x.sensor.channel.dataType == "watt" && Usable(x.value, "watt").Some?
    requires InferenceEnabled(x.sensor.channel) && Full(s, x) && x.models.Answers? && !RateLimited(s, x)
    ensures var v := x.value.value;
            var zScore := ZScore.ZScoreCheck(WindowAfter(s, x), v, 3.0, sqrt).0;
            var changePoint := Detect(MachineAt(s, x.sensor.channel), v, sqrt).1;
            var verdict := Verdict(StaticRiskOf(x), CalculatePowerRisk(v, "watt", x.entry).value, x.models.anomaly,
                                   x.models.arima, zScore, changePoint, NightRaises(x));
            Process(s, x, sqrt).pushes == Emit(s, x, verdict).pushes
  {
  }

  lemma OneMore(w: seq<real>, x: real, m: real)
    ensures Sum(w + [x]) == Sum(w) + x
    ensures SquaredDeviations(w + [x], m) == SquaredDeviations(w, m) + (x - m) * (x - m)
  {
    assert (w + [x])[..|w|] == w;
  }

  lemma CalmPair(n: nat)
    ensures CalmWindow(2 * (n + 1)) == CalmWindow(2 * n) + [1.0] + [2.0]
  {
    assert CalmWindow(2 * n + 1) == CalmWindow(2 * n) + [CalmValue(2 * n)];
    assert CalmWindow(2 * n + 2) == CalmWindow(2 * n + 1) + [CalmValue(2 * n + 1)];
  }

  lemma {:induction false} CalmMoments(n: nat)
    ensures Sum(CalmWindow(2 * n)) == 3.0 * n as real
    ensures SquaredDeviations(CalmWindow(2 * n), 1.5) == 0.5 * n as real
  {
    if n == 0 {
      assert CalmWindow(0) == [];
    } else {
      CalmMoments(n - 1);
      var u := CalmWindow(2 * (n - 1));
      CalmPair(n - 1);
      OneMore(u, 1.0, 1.5);
      OneMore(u + [1.0], 2.0, 1.5);
    }
  }

  lemma CalmScore(sqrt: real -> real)
    requires IsRoot(sqrt)
    ensures !ZScore.ZScoreCheck(CalmWindow(30), 2.0, 3.0, sqrt).0
  {
    CalmMoments(15);
    var w := CalmWindow(30);
    assert Mean(w) == 1.5 && Variance(w) == 0.25;
    var root := sqrt(0.25);
    RootOfQuarter(root);
    SmallScore(0.5 / (root + ZScore.EPS), root + ZScore.EPS);
  }

  lemma RootOfQuarter(root: real)
    requires root >= 0.0 && root * root == 0.25
    ensures root == 0.5
  {
    ZScore.SquaresKeepOrder(root, 0.5);
    ZScore.SquaresKeepOrder(0.5, root);
  }

  lemma SmallScore(z: real, std: real)
    requires std > 0.5 && z == 0.5 / std
    ensures z < 3.0
  {
    assert z * std == 0.5;
    if z >= 3.0 { Ordered(z, 3.0, std); }
  }

  /** 2 W on a channel rated 4 W, after the warm-up: nothing but the hour is remarkable. */
  function NightSample(hour: nat): Sample {
    Sample(SENSOR, Some(2.0), RATE_LIMIT, Some(hour), Answers(false, false), ChannelEntry(Some(4.0), None, None),
           map["watt" := BuiltIn("watt")], 0)
  }

  lemma NightSampleIsQuiet(s: State, hour: nat, sqrt: real -> real)
    requires IsRoot(sqrt) && Sane(s) && s == Warmed(START, SENSOR.channel, WARM_UP)
    ensures Quiet(s, NightSample(hour), sqrt)
  {
    var x := NightSample(hour);
    WarmIsFull(s, x);
    assert WindowAfter(s, x) == CalmWindow(30);
    CalmScore(sqrt);
    StaticRiskIs(x);
  }

  lemma WarmFromStart(synced: Synced, sqrt: real -> real)
    requires IsRoot(sqrt)
    ensures Run(CalmSamples(SENSOR, WARM_UP, 0, synced), sqrt) == Warmed(START, SENSOR.channel, WARM_UP)
  {
    assert [] + CalmSamples(SENSOR, WARM_UP, 0, synced) == CalmSamples(SENSOR, WARM_UP, 0, synced);
    WarmsUp([], SENSOR, WARM_UP, 0, synced, sqrt);
  }

  lemma NightSampleRaisesIff(hour: nat)
    requires hour < 24
    ensures NightRaises(NightSample(hour)) <==> 13 <= hour < 20
  {
  }

  lemma NightSampleIsPushedIff(s: State, hour: nat, sqrt: real -> real)
    requires IsRoot(sqrt) && hour < 24 && s == Warmed(START, SENSOR.channel, WARM_UP)
    ensures Process(s, NightSample(hour), sqrt).pushes ==
            if 13 <= hour < 20 then [Push(SENSOR, RATE_LIMIT, Decision(Ai, Warning), 0)] else []
  {
    NightSampleIsQuiet(s, hour, sqrt);
    NightSampleRaisesIff(hour);
    QuietInference(s, NightSample(hour), sqrt);
    assert s.pushes == [];
  }

  /** Such a run exists: the sample is pushed at the hours of the Korean night and at no other. */
  lemma NightRun(hour: nat, sqrt: real -> real)
    requires IsRoot(sqrt) && hour < 24
    ensures var warm := CalmSamples(SENSOR, WARM_UP, 0, map["watt" := BuiltIn("watt")]);
            Run(warm + [NightSample(hour)], sqrt).pushes ==
            if 13 <= hour < 20 then [Push(SENSOR, RATE_LIMIT, Decision(Ai, Warning), 0)] else []
  {
    var warm := CalmSamples(SENSOR, WARM_UP, 0, map["watt" := BuiltIn("watt")]);
    WarmFromStart(map["watt" := BuiltIn("watt")], sqrt);
    RunOne(warm, NightSample(hour), sqrt);
    NightSampleIsPushedIff(Run(warm, sqrt), hour, sqrt);
  }
}
