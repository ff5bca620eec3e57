/**
 The power pipeline: what one channel's sample makes of windows, change-point
 machines, rate limits, pushes and mute marks. Model results are parameters.
 */
module PowerInference {
  import opened Wrappers
  import opened RiskLevels
  import opened PowerRisk
  import opened ChangePoint
  import opened Statistics
  import AiMute
  import Clock
  import ZScore

  const RATE_LIMIT := 60 * Clock.SECOND
  const ZSCORE_THRESHOLD := 3.0

  predicate InferenceEnabled(key: Channel) {
    key.dataType == "watt" && (key.number == 1 || key.number == 9 || key.number == 14 || key.number == 15)
  }

  // ---------------------------------------------------------------------------
  // Quality
  // ---------------------------------------------------------------------------

  /** The value, when inference may use it; missing, -1 and overflowing values are skipped. */
  function Usable(value: Option<real>, dataType: string): Option<real> {
    if value.None? || value.value == -1.0 then None
    else if dataType == "watt" && value.value > 50000.0 then None
    else if dataType == "current" && value.value > 200.0 then None
    else if dataType == "voltage" && value.value > 600.0 then None
    else value
  }

  /** A full window of one repeated value. */
  predicate Stuck(window: seq<real>) {
    |window| >= ZScore.INFERENCE_WINDOW && forall x <- window :: x == window[0]
  }

  // ---------------------------------------------------------------------------
  // State and samples
  // ---------------------------------------------------------------------------

  /** Rate limits are kept per sensor, windows and machines only per channel. */
  datatype Sensor = Sensor(device: Option<string>, channel: Channel)

  /** `keys` is how many keys were written of the mute mark, should the push leave one. */
  datatype Push = Push(sensor: Sensor, at: int, decision: Decision, keys: nat)

  datatype State = State(windows: map<Channel, seq<real>>, machines: map<Channel, Machine>, lastFired: map<Sensor, int>,
                         pushes: seq<Push>, marks: seq<AiMute.Mark>)

  const START := State(map[], map[], map[], [], [])

  /** What the models answer: the registry has none, a step raises, or all of them answer. */
  datatype Models = NotLoaded | ForestRaises | ArimaRaises(anomaly: bool) | Answers(anomaly: bool, arima: bool)

  /**
   One channel of one measurement; `at` is the clock when the rate limit is looked at, `keys` how many keys of a mute
   mark are written before Redis fails.
   */
  datatype Sample = Sample(sensor: Sensor, value: Option<real>, at: int, utcHour: Option<nat>, models: Models,
                           entry: ChannelEntry, synced: Synced, keys: nat)

  function StaticRiskOf(x: Sample): Risk
    requires x.value.Some?
  {
    EvaluateStaticRisk(x.value.value, x.sensor.channel.dataType, x.synced, x.entry)
  }

  function WindowAfter(s: State, x: Sample): seq<real>
    requires x.value.Some?
  {
    var key := x.sensor.channel;
    Slide(if key in s.windows then s.windows[key] else [], x.value.value, ZScore.INFERENCE_WINDOW)
  }

  function Emit(s: State, x: Sample, d: Option<Decision>): State {
    if d.Some? then s.(pushes := s.pushes + [Push(x.sensor, x.at, d.value, x.keys)]) else s
  }

  /** State marking, push of the static alarm if there is one. */
  function StaticOnly(s: State, x: Sample, why: AiState): State
    requires x.value.Some?
  {
    Emit(s, x, DecideAlarm(Some(why), AllNormal, StaticRiskOf(x)))
  }

  predicate NightRaises(x: Sample)
    requires x.value.Some?
  {
    && x.sensor.channel.dataType == "watt" && IsNight(x.utcHour)
    && x.entry.ratedW.Some? && x.value.value > x.entry.ratedW.value * NIGHT_THRESHOLD_RATIO
  }

  predicate RateLimited(s: State, x: Sample) {
    x.at - (if x.sensor in s.lastFired then s.lastFired[x.sensor] else 0) < RATE_LIMIT
  }

  /** The mark an AI alarm leaves: cut short by a failure it is that of a milder alarm, or none. */
  function MarkOf(x: Sample, risk: Risk): seq<AiMute.Mark> {
    var level := AiMute.Written(risk, x.keys);
    if x.sensor.device.Some? && level.Some? then
      [AiMute.Mark(x.sensor.device.value, x.sensor.channel.number, level.value, x.at)]
    else []
  }

  /** The alarm of an inference that succeeded, unless the rate limit holds it back. */
  function Conclude(s: State, x: Sample, combined: Combined): State
    requires x.value.Some?
  {
    if combined == AllNormal then Emit(s, x, DecideAlarm(Some(InferredNormal), AllNormal, StaticRiskOf(x)))
    else if RateLimited(s, x) then s
    else
      Emit(s.(lastFired := s.lastFired[x.sensor := x.at], marks := s.marks + MarkOf(x, RuleLevel(combined))), x,
           DecideAlarm(Some(Fired), combined, StaticRiskOf(x)))
  }

  /** A change-point machine's entry; it is created on first use. */
  function MachineAt(s: State, key: Channel): Machine {
    if key in s.machines then s.machines[key] else NEW_MACHINE
  }

  ghost predicate Sane(s: State) {
    forall key <- s.machines :: |s.machines[key].window| <= CP_WINDOW
  }

  /** Inference on a full window; any exception falls back to the static alarm. */
  function Infer(s: State, x: Sample, window: seq<real>, sqrt: real -> real): State
    requires IsRoot(sqrt) && Sane(s) && x.value.Some?
  {
    if x.models.NotLoaded? then s
    else if x.models.ForestRaises? then StaticOnly(s, x, InferredFailed)
    else
      var key, v := x.sensor.channel, x.value.value;
      var zScore := ZScore.ZScoreCheck(window, v, ZSCORE_THRESHOLD, sqrt).0;
      var (machine, changePoint) := Detect(MachineAt(s, key), v, sqrt);
      var s' := s.(machines := s.machines[key := machine]);
      var threshold := CalculatePowerRisk(v, key.dataType, x.entry);
      if x.models.ArimaRaises? || threshold.Err? then StaticOnly(s', x, InferredFailed)
      else
        var (axes, _) := Combine5(threshold.value, x.models.anomaly, x.models.arima, zScore, changePoint);
        Conclude(s', x, if NightRaises(x) then NightEscalation(axes) else axes)
  }

  function Process(s: State, x: Sample, sqrt: real -> real): State
    requires IsRoot(sqrt) && Sane(s)
  {
    if Usable(x.value, x.sensor.channel.dataType).None? then s
    else if !InferenceEnabled(x.sensor.channel) then StaticOnly(s, x, Disabled)
    else
      var window := WindowAfter(s, x);
      var s' := s.(windows := s.windows[x.sensor.channel := window]);
      if |window| < ZScore.INFERENCE_WINDOW then StaticOnly(s', x, WarmingUp)
      else if Stuck(window) then s'
      else Infer(s', x, window, sqrt)
  }

  function Run(samples: seq<Sample>, sqrt: real -> real): (s: State)
    requires IsRoot(sqrt)
    ensures Sane(s)
  {
    if samples == [] then START
    else
      var before := Run(samples[..|samples| - 1], sqrt);
      ProcessIsSane(before, samples[|samples| - 1], sqrt);
      Process(before, samples[|samples| - 1], sqrt)
  }

  lemma InferIsSane(s: State, x: Sample, window: seq<real>, sqrt: real -> real)
    requires IsRoot(sqrt) && Sane(s) && x.value.Some?
    ensures Sane(Infer(s, x, window, sqrt))
  {
    if !x.models.NotLoaded? && !x.models.ForestRaises? {
      var machine := Detect(MachineAt(s, x.sensor.channel), x.value.value, sqrt).0;
      assert Sane(s.(machines := s.machines[x.sensor.channel := machine]));
    }
  }

  lemma ProcessIsSane(s: State, x: Sample, sqrt: real -> real)
    requires IsRoot(sqrt) && Sane(s)
    ensures Sane(Process(s, x, sqrt))
  {
    if Usable(x.value, x.sensor.channel.dataType).Some? && InferenceEnabled(x.sensor.channel) {
      var window := WindowAfter(s, x);
      InferIsSane(s.(windows := s.windows[x.sensor.channel := window]), x, window, sqrt);
    }
  }

  // ---------------------------------------------------------------------------
  // No static alarm is silent
  // ---------------------------------------------------------------------------

  /** The two cases in which the pipeline says nothing about a sample, whatever its static risk. */
  ghost predicate Silenced(s: State, x: Sample)
    requires x.value.Some?
  {
    && InferenceEnabled(x.sensor.channel)
    && |WindowAfter(s, x)| >= ZScore.INFERENCE_WINDOW
    && (Stuck(WindowAfter(s, x)) || x.models.NotLoaded?)
  }

  /** Was something pushed for the sensor in the last 60 seconds up to `now`? */
  ghost predicate PushedRecently(s: State, sensor: Sensor, now: int) {
    exists p <- s.pushes :: p.sensor == sensor && now - 60_000_000 < p.at <= now
  }

  /** Every rate-limit stamp was set by an AI push of that sensor at that time. */
  ghost predicate StampsArePushes(s: State) {
    forall sensor <- s.lastFired ::
      exists p <- s.pushes :: p.sensor == sensor && p.at == s.lastFired[sensor] && p.decision.source == Ai
  }

  /** One sample causes at most one push, of itself. */
  lemma AtMostOnePush(s: State, x: Sample, sqrt: real -> real)
    requires IsRoot(sqrt) && Sane(s)
    ensures var s' := Process(s, x, sqrt);
            s'.pushes == s.pushes ||
            (|s'.pushes| == |s.pushes| + 1 && s'.pushes[..|s.pushes|] == s.pushes
             && s'.pushes[|s.pushes|].sensor == x.sensor && s'.pushes[|s.pushes|].at == x.at)
  {
    AiStep(s, x, sqrt);
  }

  /** A stamp changes only together with an AI push of the same sensor at the same time. */
  lemma StampComesWithPush(s: State, x: Sample, sqrt: real -> real)
    requires IsRoot(sqrt) && Sane(s)
    ensures var s' := Process(s, x, sqrt);
            s'.lastFired == s.lastFired ||
            (&& s'.lastFired == s.lastFired[x.sensor := x.at] && !RateLimited(s, x)
             && |s'.pushes| == |s.pushes| + 1
             && s'.pushes[|s.pushes|].decision.source == Ai)
  {
    AiStep(s, x, sqrt);
  }

  lemma {:induction false} RunStampsArePushes(samples: seq<Sample>, sqrt: real -> real)
    requires IsRoot(sqrt)
    ensures StampsArePushes(Run(samples, sqrt))
  {
    if samples != [] {
      var init, x := samples[..|samples| - 1], samples[|samples| - 1];
      var s := Run(init, sqrt);
      RunStampsArePushes(init, sqrt);
      AtMostOnePush(s, x, sqrt);
      StampComesWithPush(s, x, sqrt);
      var s' := Process(s, x, sqrt);
      forall sensor <- s'.lastFired
        ensures exists p <- s'.pushes :: p.sensor == sensor && p.at == s'.lastFired[sensor] && p.decision.source == Ai
      {
        if s'.lastFired != s.lastFired && sensor == x.sensor {
          assert s'.pushes[|s.pushes|] in s'.pushes;
        } else {
          var p :| p in s.pushes && p.sensor == sensor && p.at == s.lastFired[sensor] && p.decision.source == Ai;
          assert p in s'.pushes;
        }
      }
    }
  }

  lemma InferPushes(s: State, x: Sample, window: seq<real>, sqrt: real -> real)
    requires IsRoot(sqrt) && Sane(s) && x.value.Some? && StaticRiskOf(x) != Normal
    ensures |Infer(s, x, window, sqrt).pushes| == |s.pushes| ==> x.models.NotLoaded? || RateLimited(s, x)
  {
  }

  /** A usable sample with a static alarm pushes at once, unless it is silenced or an AI push holds it back. */
  lemma StaticAlarmPushesUnless(s: State, x: Sample, sqrt: real -> real)
    requires IsRoot(sqrt) && Sane(s)
    requires Usable(x.value, x.sensor.channel.dataType).Some? && StaticRiskOf(x) != Normal
    ensures |Process(s, x, sqrt).pushes| == |s.pushes| ==> Silenced(s, x) || RateLimited(s, x)
    ensures Silenced(s, x) ==> Process(s, x, sqrt).pushes == s.pushes
  {
    if InferenceEnabled(x.sensor.channel) {
      var window := WindowAfter(s, x);
      if |window| >= ZScore.INFERENCE_WINDOW && !Stuck(window) {
        InferPushes(s.(windows := s.windows[x.sensor.channel := window]), x, window, sqrt);
      }
    }
  }

  ghost predicate InTimeOrder(samples: seq<Sample>) {
    forall j, k | 0 <= j < k < |samples| :: samples[j].at <= samples[k].at
  }

  /** A stamp is the time of an earlier sample. */
  lemma {:induction false} StampsAreNotAhead(samples: seq<Sample>, sqrt: real -> real, now: int)
    requires IsRoot(sqrt) && InTimeOrder(samples) && (samples != [] ==> samples[|samples| - 1].at <= now)
    ensures forall sensor <- Run(samples, sqrt).lastFired :: Run(samples, sqrt).lastFired[sensor] <= now
  {
    if samples != [] {
      var init, x := samples[..|samples| - 1], samples[|samples| - 1];
      StampsAreNotAhead(init, sqrt, x.at);
      StampComesWithPush(Run(init, sqrt), x, sqrt);
    }
  }

  /**
   On every run: when a usable sample has a static alarm, something was pushed for its sensor within the last
   60 seconds, this sample included, unless the window is stuck or no model is loaded.
   */
  lemma NoSilentStaticAlarm(samples: seq<Sample>, x: Sample, sqrt: real -> real)
    requires IsRoot(sqrt) && InTimeOrder(samples + [x]) && x.at >= RATE_LIMIT
    requires Usable(x.value, x.sensor.channel.dataType).Some? && StaticRiskOf(x) != Normal
    ensures Silenced(Run(samples, sqrt), x) || PushedRecently(Run(samples + [x], sqrt), x.sensor, x.at)
  {
    var s := Run(samples, sqrt);
    assert (samples + [x])[..|samples|] == samples;
    var s' := Run(samples + [x], sqrt);
    assert s' == Process(s, x, sqrt);
    AtMostOnePush(s, x, sqrt);
    StaticAlarmPushesUnless(s, x, sqrt);
    if !Silenced(s, x) {
      if |s'.pushes| == |s.pushes| + 1 {
        assert s'.pushes[|s.pushes|] in s'.pushes;
      } else {
        RunStampsArePushes(samples, sqrt);
        assert InTimeOrder(samples) && (samples != [] ==> samples[|samples| - 1].at <= x.at) by {
          assert forall k | 0 <= k < |samples| :: (samples + [x])[k] == samples[k];
          assert (samples + [x])[|samples|] == x;
        }
        StampsAreNotAhead(samples, sqrt, x.at);
        var p :| p in s.pushes && p.sensor == x.sensor && p.at == s.lastFired[x.sensor] && p.decision.source == Ai;
        assert p in s'.pushes;
      }
    }
  }

  // ---------------------------------------------------------------------------
  // No push is weaker than the static alarm
  // ---------------------------------------------------------------------------

  /** When the built-in evaluator sees the danger the synced one sees, no push is below the static risk. */
  lemma PushIsNotWeaker(s: State, x: Sample, sqrt: real -> real)
    requires IsRoot(sqrt) && Sane(s) && Usable(x.value, x.sensor.channel.dataType).Some?
    requires StaticRiskOf(x) == Danger ==>
               CalculatePowerRisk(x.value.value, x.sensor.channel.dataType, x.entry) == Ok(Danger)
    ensures var s' := Process(s, x, sqrt);
            |s'.pushes| == |s.pushes| + 1 ==> Rank(s'.pushes[|s.pushes|].decision.risk) >= Rank(StaticRiskOf(x))
  {
    if InferenceEnabled(x.sensor.channel) {
      var window := WindowAfter(s, x);
      InferIsNotWeaker(s.(windows := s.windows[x.sensor.channel := window]), x, window, sqrt);
    }
  }

  lemma ConcludeIsNotWeaker(s: State, x: Sample, combined: Combined)
    requires x.value.Some? && (combined != AllNormal ==> Rank(RiskOf(combined)) >= Rank(StaticRiskOf(x)))
    ensures var s' := Conclude(s, x, combined);
            |s'.pushes| == |s.pushes| + 1 ==> Rank(s'.pushes[|s.pushes|].decision.risk) >= Rank(StaticRiskOf(x))
  {
  }

  lemma AxesAreNotWeaker(staticRisk: Risk, threshold: Risk, anomaly: bool, arima: bool, zScore: bool, changePoint: bool,
                         night: bool)
    requires staticRisk == Danger ==> threshold == Danger
    ensures var axes := Combine5(threshold, anomaly, arima, zScore, changePoint).0;
            var combined := if night then NightEscalation(axes) else axes;
            combined != AllNormal ==> Rank(RiskOf(combined)) >= Rank(staticRisk)
  {
  }

  lemma InferIsNotWeaker(s: State, x: Sample, window: seq<real>, sqrt: real -> real)
    requires IsRoot(sqrt) && Sane(s) && x.value.Some?
    requires StaticRiskOf(x) == Danger ==>
               CalculatePowerRisk(x.value.value, x.sensor.channel.dataType, x.entry) == Ok(Danger)
    ensures var s' := Infer(s, x, window, sqrt);
            |s'.pushes| == |s.pushes| + 1 ==> Rank(s'.pushes[|s.pushes|].decision.risk) >= Rank(StaticRiskOf(x))
  {
    var threshold := CalculatePowerRisk(x.value.value, x.sensor.channel.dataType, x.entry);
    if x.models.Answers? && threshold.Ok? {
      var key, v := x.sensor.channel, x.value.value;
      var zScore := ZScore.ZScoreCheck(window, v, ZSCORE_THRESHOLD, sqrt).0;
      var (machine, changePoint) := Detect(MachineAt(s, key), v, sqrt);
      AxesAreNotWeaker(StaticRiskOf(x), threshold.value, x.models.anomaly, x.models.arima, zScore, changePoint,
                       NightRaises(x));
      var axes := Combine5(threshold.value, x.models.anomaly, x.models.arima, zScore, changePoint).0;
      ConcludeIsNotWeaker(s.(machines := s.machines[key := machine]), x,
                          if NightRaises(x) then NightEscalation(axes) else axes);
    }
  }

  // ---------------------------------------------------------------------------
  // AI pushes are rate limited, and each of them mutes the rules
  // ---------------------------------------------------------------------------

  /** AI pushes of one sensor are at least one rate limit apart, and each left a mark of its own risk. */
  ghost predicate AiPushesAreSpaced(s: State) {
    && (forall j, k | 0 <= j < k < |s.pushes| && s.pushes[j].decision.source == Ai && s.pushes[k].decision.source == Ai
                      && s.pushes[j].sensor == s.pushes[k].sensor ::
          s.pushes[j].at + RATE_LIMIT <= s.pushes[k].at)
    && (forall p <- s.pushes | p.decision.source == Ai ::
          p.sensor in s.lastFired && p.at <= s.lastFired[p.sensor])
  }

  /** The push is an AI alarm that leaves this mark. */
  predicate Leaves(p: Push, m: AiMute.Mark) {
    && p.decision.source == Ai && p.sensor.device.Some? && p.keys > 0
    && m == AiMute.Mark(p.sensor.device.value, p.sensor.channel.number,
                        AiMute.Written(p.decision.risk, p.keys).value, p.at)
  }

  /** Every AI push has left its mark. */
  ghost predicate PushesAreMarked(s: State) {
    forall p <- s.pushes | p.decision.source == Ai && p.sensor.device.Some? && p.keys > 0 ::
      exists m <- s.marks :: Leaves(p, m)
  }

  /** There are no other marks. */
  ghost predicate MarksAreLeft(s: State) {
    forall m <- s.marks :: exists p <- s.pushes :: Leaves(p, m)
  }

  /** What one sample adds: nothing from the AI, or one AI push with its stamp and its mark. */
  ghost predicate AddsAtMostOneAiPush(s: State, s': State, x: Sample) {
    (s'.lastFired == s.lastFired && s'.marks == s.marks
     && (s'.pushes == s.pushes
         || exists p: Push :: p.decision.source != Ai && p.sensor == x.sensor && p.at == x.at
                        && s'.pushes == s.pushes + [p]))
    || (!RateLimited(s, x) && s'.lastFired == s.lastFired[x.sensor := x.at]
        && exists p: Push :: p.decision.source == Ai && p.sensor == x.sensor && p.at == x.at && p.keys == x.keys
                       && s'.pushes == s.pushes + [p] && s'.marks == s.marks + MarkOf(x, p.decision.risk))
  }

  lemma EmitAdds(s: State, x: Sample, d: Option<Decision>)
    requires d.Some? ==> d.value.source != Ai
    ensures AddsAtMostOneAiPush(s, Emit(s, x, d), x)
  {
  }

  lemma ConcludeAdds(s: State, x: Sample, combined: Combined)
    requires x.value.Some?
    ensures AddsAtMostOneAiPush(s, Conclude(s, x, combined), x)
  {
  }

  lemma InferAdds(s: State, x: Sample, window: seq<real>, sqrt: real -> real)
    requires IsRoot(sqrt) && Sane(s) && x.value.Some?
    ensures AddsAtMostOneAiPush(s, Infer(s, x, window, sqrt), x)
  {
    if x.models.ForestRaises? {
      EmitAdds(s, x, DecideAlarm(Some(InferredFailed), AllNormal, StaticRiskOf(x)));
    } else if !x.models.NotLoaded? {
      var key, v := x.sensor.channel, x.value.value;
      var zScore := ZScore.ZScoreCheck(window, v, ZSCORE_THRESHOLD, sqrt).0;
      var (machine, changePoint) := Detect(MachineAt(s, key), v, sqrt);
      var s' := s.(machines := s.machines[key := machine]);
      var threshold := CalculatePowerRisk(v, key.dataType, x.entry);
      if x.models.ArimaRaises? || threshold.Err? {
        EmitAdds(s', x, DecideAlarm(Some(InferredFailed), AllNormal, StaticRiskOf(x)));
      } else {
        var axes := Combine5(threshold.value, x.models.anomaly, x.models.arima, zScore, changePoint).0;
        ConcludeAdds(s', x, if NightRaises(x) then NightEscalation(axes) else axes);
      }
    }
  }

  lemma AiStep(s: State, x: Sample, sqrt: real -> real)
    requires IsRoot(sqrt) && Sane(s)
    ensures AddsAtMostOneAiPush(s, Process(s, x, sqrt), x)
  {
    if Usable(x.value, x.sensor.channel.dataType).Some? {
      var window := WindowAfter(s, x);
      var s' := s.(windows := s.windows[x.sensor.channel := window]);
      if !InferenceEnabled(x.sensor.channel) {
        EmitAdds(s, x, DecideAlarm(Some(Disabled), AllNormal, StaticRiskOf(x)));
      } else if |window| < ZScore.INFERENCE_WINDOW {
        EmitAdds(s', x, DecideAlarm(Some(WarmingUp), AllNormal, StaticRiskOf(x)));
      } else if !Stuck(window) {
        InferAdds(s', x, window, sqrt);
      }
    }
  }

  lemma {:induction false} RunAiPushes(samples: seq<Sample>, sqrt: real -> real, now: int)
    requires IsRoot(sqrt) && InTimeOrder(samples) && (samples != [] ==> samples[|samples| - 1].at <= now)
    ensures AiPushesAreSpaced(Run(samples, sqrt)) && PushesAreMarked(Run(samples, sqrt))
    ensures MarksAreLeft(Run(samples, sqrt))
  {
    if samples != [] {
      var init, x := samples[..|samples| - 1], samples[|samples| - 1];
      var s, s' := Run(init, sqrt), Run(samples, sqrt);
      RunAiPushes(init, sqrt, x.at);
      StampsAreNotAhead(init, sqrt, x.at);
      AiStep(s, x, sqrt);
      SpacingStep(s, s', x);
      PushIsMarked(s, s', x);
      MarkIsLeft(s, s', x);
    }
  }

  lemma SpacingStep(s: State, s': State, x: Sample)
    requires AiPushesAreSpaced(s) && AddsAtMostOneAiPush(s, s', x)
    requires forall sensor <- s.lastFired :: s.lastFired[sensor] <= x.at
    ensures AiPushesAreSpaced(s')
  {
  }

  lemma PushIsMarked(s: State, s': State, x: Sample)
    requires PushesAreMarked(s) && AddsAtMostOneAiPush(s, s', x)
    ensures PushesAreMarked(s')
  {
    forall p <- s'.pushes | p.decision.source == Ai && p.sensor.device.Some? && p.keys > 0
      ensures exists m <- s'.marks :: Leaves(p, m)
    {
      if p in s.pushes {
        var m :| m in s.marks && Leaves(p, m);
        assert m in s'.marks;
      } else {
        assert Leaves(p, MarkOf(x, p.decision.risk)[0]) && MarkOf(x, p.decision.risk)[0] in s'.marks;
      }
    }
  }

  lemma MarkIsLeft(s: State, s': State, x: Sample)
    requires MarksAreLeft(s) && AddsAtMostOneAiPush(s, s', x)
    ensures MarksAreLeft(s')
  {
    forall m <- s'.marks ensures exists p <- s'.pushes :: Leaves(p, m) {
      if m in s.marks {
        var p :| p in s.pushes && Leaves(p, m);
        assert p in s'.pushes;
      } else {
        assert s'.pushes[|s.pushes|] in s'.pushes;
        assert Leaves(s'.pushes[|s.pushes|], m);
      }
    }
  }

  /** The mark as it was written, by a task of its own and up to `delay` later. */
  predicate Delayed(m: AiMute.Mark, written: AiMute.Mark, delay: int) {
    written.(at := m.at) == m && m.at <= written.at <= m.at + delay
  }

  /** By `now` all but the youngest marks are written. */
  ghost predicate AllWritten(marks: seq<AiMute.Mark>, written: seq<AiMute.Mark>, delay: int, now: int) {
    forall m <- marks | m.at + delay <= now :: exists w <- written :: Delayed(m, w, delay)
  }

  /** Nothing else is written. */
  ghost predicate OnlyWritten(marks: seq<AiMute.Mark>, written: seq<AiMute.Mark>, delay: int) {
    forall w <- written :: exists m <- marks :: Delayed(m, w, delay)
  }

  /** What has been written by `now`, in the order of writing. */
  ghost predicate WrittenBy(marks: seq<AiMute.Mark>, written: seq<AiMute.Mark>, delay: int, now: int) {
    && AiMute.InTimeOrder(written) && (forall w <- written :: w.at <= now)
    && AllWritten(marks, written, delay, now) && OnlyWritten(marks, written, delay)
  }

  /** An AI alarm of the device and channel at the level or above, as far as its mark was written. */
  predicate Mutes(p: Push, device: string, channel: nat, level: Risk) {
    && p.decision.source == Ai && p.sensor.device == Some(device) && p.sensor.channel.number == channel
    && Rank(level) <= Rank(p.decision.risk) && Rank(level) < p.keys
  }

  lemma MutesIffCovers(p: Push, m: AiMute.Mark, device: string, channel: nat, level: Risk)
    requires Leaves(p, m)
    ensures Mutes(p, device, channel, level) <==> AiMute.Covers(m, device, channel, level)
  {
  }

  lemma MutedByPush(s: State, written: seq<AiMute.Mark>, delay: int, device: string, channel: nat, level: Risk, t: int,
                    p: Push)
    requires PushesAreMarked(s) && AiMute.InTimeOrder(written) && AllWritten(s.marks, written, delay, t)
    requires p in s.pushes && Mutes(p, device, channel, level) && p.at + delay <= t < p.at + AiMute.AI_MUTE_TTL
    ensures AiMute.IsMuteActive(AiMute.MarkAll(written, AiMute.AI_MUTE_TTL), device, channel, level, t)
  {
    var m :| m in s.marks && Leaves(p, m);
    var w :| w in written && Delayed(m, w, delay);
    MutesIffCovers(p, m, device, channel, level);
    assert AiMute.Covers(w, device, channel, level);
    AiMute.MutedIffRecentlyMarked(written, AiMute.AI_MUTE_TTL, device, channel, level, t);
  }

  lemma PushThatMutes(s: State, written: seq<AiMute.Mark>, delay: int, device: string, channel: nat, level: Risk,
                      t: int) returns (p: Push)
    requires MarksAreLeft(s) && AiMute.InTimeOrder(written) && OnlyWritten(s.marks, written, delay)
    requires forall w <- written :: w.at <= t
    requires AiMute.IsMuteActive(AiMute.MarkAll(written, AiMute.AI_MUTE_TTL), device, channel, level, t)
    ensures p in s.pushes && Mutes(p, device, channel, level) && p.at <= t < p.at + delay + AiMute.AI_MUTE_TTL
  {
    AiMute.MutedIffRecentlyMarked(written, AiMute.AI_MUTE_TTL, device, channel, level, t);
    var w :| w in written && AiMute.Covers(w, device, channel, level) && t < w.at + AiMute.AI_MUTE_TTL;
    var m :| m in s.marks && Delayed(m, w, delay);
    p :| p in s.pushes && Leaves(p, m);
    MutesIffCovers(p, m, device, channel, level);
  }

  /**
   When marks are written at most `delay` after their push: rule alarms of a device and channel are muted at a level
   if an AI alarm of it was pushed at least `delay` and less than a TTL ago, and only if one was less than a TTL and
   a `delay` ago. Without delay this is an iff.
   */
  lemma AiAlarmMutesRules(samples: seq<Sample>, sqrt: real -> real, written: seq<AiMute.Mark>, delay: int,
                          device: string, channel: nat, level: Risk, t: int)
    requires IsRoot(sqrt) && InTimeOrder(samples) && WrittenBy(Run(samples, sqrt).marks, written, delay, t)
    ensures var muted := AiMute.IsMuteActive(AiMute.MarkAll(written, AiMute.AI_MUTE_TTL), device, channel, level, t);
            var pushes := Run(samples, sqrt).pushes;
            && ((exists p <- pushes ::
                   Mutes(p, device, channel, level) && p.at + delay <= t < p.at + 60_000_000) ==> muted)
            && (muted ==>
                exists p <- pushes ::
                  Mutes(p, device, channel, level) && p.at <= t < p.at + delay + 60_000_000)
  {
    var s := Run(samples, sqrt);
    if samples != [] { RunAiPushes(samples, sqrt, samples[|samples| - 1].at); }
    forall p <- s.pushes | Mutes(p, device, channel, level) && p.at + delay <= t < p.at + AiMute.AI_MUTE_TTL
      ensures AiMute.IsMuteActive(AiMute.MarkAll(written, AiMute.AI_MUTE_TTL), device, channel, level, t)
    {
      MutedByPush(s, written, delay, device, channel, level, t, p);
    }
    if AiMute.IsMuteActive(AiMute.MarkAll(written, AiMute.AI_MUTE_TTL), device, channel, level, t) {
      var p := PushThatMutes(s, written, delay, device, channel, level, t);
    }
  }

  lemma AiPushesAreAMinuteApart(samples: seq<Sample>, sqrt: real -> real, j: nat, k: nat)
    requires IsRoot(sqrt) && InTimeOrder(samples) && j < k < |Run(samples, sqrt).pushes|
    ensures var pushes := Run(samples, sqrt).pushes;
            pushes[j].sensor == pushes[k].sensor
            && pushes[j].decision.source == Ai && pushes[k].decision.source == Ai ==>
              pushes[j].at + 60_000_000 <= pushes[k].at
  {
    if samples != [] { RunAiPushes(samples, sqrt, samples[|samples| - 1].at); }
  }
}
