/**
 How severe the power pipeline's pushes are: a static danger may be answered by a mere warning, and the rate limit
 may hold it back behind one.
 */
module PowerSeverity {
  import opened Wrappers
  import opened RiskLevels
  import opened ChangePoint
  import opened PowerInference
  import opened PowerRisk
  import opened PowerRuns
  import opened Statistics
  import ZScore

  // ---------------------------------------------------------------------------
  // Pushes below the static risk
  // ---------------------------------------------------------------------------

  /** What `x` adds is not below its static risk. */
  ghost predicate NotDowngraded(s: State, x: Sample, sqrt: real -> real)
    requires IsRoot(sqrt) && Sane(s)
  {
    var s' := Process(s, x, sqrt);
    x.value.Some? && |s'.pushes| == |s.pushes| + 1 ==>
      Rank(s'.pushes[|s.pushes|].decision.risk) >= Rank(StaticRiskOf(x))
  }

  /** Power samples in time order under one set of synced thresholds. */
  ghost predicate PowerSamples(samples: seq<Sample>, t: Thresholds) {
    InTimeOrder(samples) && forall x <- samples :: x.sensor.channel.dataType == "watt" && x.synced == map["watt" := t]
  }

  /** Synced maxima by which a static danger is a danger by the built-in percentages too, or there is none. */
  predicate DangerIsDanger(t: Thresholds) {
    t.warningMax.Some? && t.dangerMax.Some? ==> t.dangerMax.value >= 100.0
  }

  lemma BuiltInSeesDanger(x: Sample, t: Thresholds)
    requires x.value.Some? && x.sensor.channel.dataType == "watt" && x.synced == map["watt" := t] && DangerIsDanger(t)
    requires StaticRiskOf(x) == Danger
    ensures CalculatePowerRisk(x.value.value, "watt", x.entry) == Ok(Danger)
  {
  }

  /** A value between the synced danger bound and the built-in one. */
  function Between(t: Thresholds): real
    requires t.dangerMax.Some?
  {
    if t.dangerMax.value > 50.0 then t.dangerMax.value else 50.0
  }

  const SENSOR := Sensor(Some("pm-1"), Channel(1, "watt"))

  lemma OneMoreSample(samples: seq<Sample>, x: Sample, t: Thresholds)
    requires PowerSamples(samples, t) && x.sensor.channel.dataType == "watt" && x.synced == map["watt" := t]
    requires forall y <- samples :: y.at <= x.at
    ensures PowerSamples(samples + [x], t)
  {
  }

  lemma StrikeRisk(sensor: Sensor, at: int, v: real, anomaly: bool, arima: bool, t: Thresholds)
    requires sensor.channel.dataType == "watt" && t.warningMax.Some? && t.dangerMax.Some?
    ensures StaticRiskOf(Strike(sensor, at, v, anomaly, arima, map["watt" := t])) ==
            Unidirectional(v, t.warningMax.value, t.dangerMax.value)
  {
    assert Percent(v, 100.0) == v;
  }

  /** At the first alarm after the warm-up one model sees something, and the static danger goes out as a warning. */
  lemma DangerGoesOutAsWarning(t: Thresholds, sqrt: real -> real)
    requires IsRoot(sqrt) && !DangerIsDanger(t)
    ensures var synced := map["watt" := t];
            var samples := CalmSamples(SENSOR, WARM_UP, 0, synced);
            var x := Strike(SENSOR, RATE_LIMIT, Between(t), true, false, synced);
            && PowerSamples(samples + [x], t) && StaticRiskOf(x) == Danger
            && Run(samples + [x], sqrt).pushes == [Push(SENSOR, RATE_LIMIT, Decision(Ai, Warning), 0)]
            && Run(samples, sqrt).pushes == []
  {
    var synced, v := map["watt" := t], Between(t);
    var samples, x := CalmSamples(SENSOR, WARM_UP, 0, synced), Strike(SENSOR, RATE_LIMIT, v, true, false, synced);
    OneMoreSample(samples, x, t);
    StrikeRisk(SENSOR, RATE_LIMIT, v, true, false, t);
    VeryFirstStrike(0, x, v, true, false, sqrt);
  }

  /**
   In every run on power samples no push is below the static risk of its sample iff the synced danger bound is not
   below the built-in 100 %, or no static alarm is possible.
   */
  lemma RunNeverDowngradesIff(t: Thresholds, sqrt: real -> real)
    requires IsRoot(sqrt)
    ensures (forall samples: seq<Sample>, x: Sample | PowerSamples(samples + [x], t) ::
               NotDowngraded(Run(samples, sqrt), x, sqrt))
            <==> DangerIsDanger(t)
  {
    if DangerIsDanger(t) {
      forall samples: seq<Sample>, x: Sample | PowerSamples(samples + [x], t)
        ensures NotDowngraded(Run(samples, sqrt), x, sqrt)
      {
        assert x in samples + [x];
        if Usable(x.value, x.sensor.channel.dataType).Some? {
          if StaticRiskOf(x) == Danger { BuiltInSeesDanger(x, t); }
          PushIsNotWeaker(Run(samples, sqrt), x, sqrt);
        }
      }
    } else {
      var synced := map["watt" := t];
      var samples := CalmSamples(SENSOR, WARM_UP, 0, synced);
      var x := Strike(SENSOR, RATE_LIMIT, Between(t), true, false, synced);
      DangerGoesOutAsWarning(t, sqrt);
      RunOne(samples, x, sqrt);
      assert !NotDowngraded(Run(samples, sqrt), x, sqrt);
    }
  }

  // ---------------------------------------------------------------------------
  // Dangers behind the rate limit
  // ---------------------------------------------------------------------------

  /** In the last 60 seconds up to `now` something at least as severe was pushed for the sensor. */
  ghost predicate Answered(s: State, sensor: Sensor, risk: Risk, now: int) {
    exists p <- s.pushes :: p.sensor == sensor && now - 60_000_000 < p.at <= now && Rank(p.decision.risk) >= Rank(risk)
  }

  /** What inference makes of the sample on a full window; None when it fails. */
  function Inferred(s: State, x: Sample, sqrt: real -> real): Option<Combined>
    requires IsRoot(sqrt) && Sane(s) && x.value.Some?
  {
    var v := x.value.value;
    var threshold := CalculatePowerRisk(v, x.sensor.channel.dataType, x.entry);
    if !x.models.Answers? || threshold.Err? then None
    else
      var zScore := ZScore.ZScoreCheck(WindowAfter(s, x), v, ZSCORE_THRESHOLD, sqrt).0;
      var changePoint := Detect(MachineAt(s, x.sensor.channel), v, sqrt).1;
      var (axes, _) := Combine5(threshold.value, x.models.anomaly, x.models.arima, zScore, changePoint);
      Some(if NightRaises(x) then NightEscalation(axes) else axes)
  }

  /** The AI has an alarm of its own, which takes the place of the static one. */
  predicate Overrules(s: State, x: Sample, sqrt: real -> real)
    requires IsRoot(sqrt) && Sane(s) && x.value.Some?
  {
    && InferenceEnabled(x.sensor.channel) && Full(s, x)
    && Inferred(s, x, sqrt).Some? && Inferred(s, x, sqrt).value != AllNormal
  }

  lemma InferOutcome(s: State, x: Sample, sqrt: real -> real)
    requires IsRoot(sqrt) && Sane(s) && x.value.Some? && StaticRiskOf(x) != Normal
    requires InferenceEnabled(x.sensor.channel) && Full(s, x) && !x.models.NotLoaded?
    ensures var window := WindowAfter(s, x);
            var s' := Infer(s.(windows := s.windows[x.sensor.channel := window]), x, window, sqrt);
            if Overrules(s, x, sqrt) && RateLimited(s, x) then s'.pushes == s.pushes
            else
              && |s'.pushes| == |s.pushes| + 1
              && s'.pushes[|s.pushes|].decision.risk ==
                 if Overrules(s, x, sqrt) then RiskOf(Inferred(s, x, sqrt).value) else StaticRiskOf(x)
  {
  }

  /** What becomes of a usable sample with a static alarm that is not silenced. */
  lemma StaticAlarmOutcome(s: State, x: Sample, sqrt: real -> real)
    requires IsRoot(sqrt) && Sane(s) && Usable(x.value, x.sensor.channel.dataType).Some?
    requires StaticRiskOf(x) != Normal && !Silenced(s, x)
    ensures var s' := Process(s, x, sqrt);
            if Overrules(s, x, sqrt) && RateLimited(s, x) then s'.pushes == s.pushes
            else
              && |s'.pushes| == |s.pushes| + 1
              && s'.pushes[|s.pushes|].decision.risk ==
                 if Overrules(s, x, sqrt) then RiskOf(Inferred(s, x, sqrt).value) else StaticRiskOf(x)
  {
    if InferenceEnabled(x.sensor.channel) && Full(s, x) {
      InferOutcome(s, x, sqrt);
    }
  }

  /** Nothing is pushed as normal. */
  ghost predicate PushesAreAlarms(s: State) {
    forall p <- s.pushes :: p.decision.risk != Normal
  }

  lemma ConcludesAlarm(s: State, x: Sample, combined: Combined)
    requires x.value.Some? && PushesAreAlarms(s)
    ensures PushesAreAlarms(Conclude(s, x, combined))
  {
  }

  lemma InfersAlarm(s: State, x: Sample, window: seq<real>, sqrt: real -> real)
    requires IsRoot(sqrt) && Sane(s) && x.value.Some? && PushesAreAlarms(s)
    ensures PushesAreAlarms(Infer(s, x, window, sqrt))
  {
    if x.models.Answers? || x.models.ArimaRaises? {
      var key, v := x.sensor.channel, x.value.value;
      var zScore := ZScore.ZScoreCheck(window, v, ZSCORE_THRESHOLD, sqrt).0;
      var (machine, changePoint) := Detect(MachineAt(s, key), v, sqrt);
      var threshold := CalculatePowerRisk(v, key.dataType, x.entry);
      if x.models.Answers? && threshold.Ok? {
        var axes := Combine5(threshold.value, x.models.anomaly, x.models.arima, zScore, changePoint).0;
        ConcludesAlarm(s.(machines := s.machines[key := machine]), x,
                       if NightRaises(x) then NightEscalation(axes) else axes);
      }
    }
  }

  lemma PushIsAlarm(s: State, x: Sample, sqrt: real -> real)
    requires IsRoot(sqrt) && Sane(s) && PushesAreAlarms(s)
    ensures PushesAreAlarms(Process(s, x, sqrt))
  {
    if Usable(x.value, x.sensor.channel.dataType).Some? && InferenceEnabled(x.sensor.channel) {
      var window := WindowAfter(s, x);
      InfersAlarm(s.(windows := s.windows[x.sensor.channel := window]), x, window, sqrt);
    }
  }

  lemma {:induction false} RunPushesAlarms(samples: seq<Sample>, sqrt: real -> real)
    requires IsRoot(sqrt)
    ensures PushesAreAlarms(Run(samples, sqrt))
  {
    if samples != [] {
      RunPushesAlarms(samples[..|samples| - 1], sqrt);
      PushIsAlarm(Run(samples[..|samples| - 1], sqrt), samples[|samples| - 1], sqrt);
    }
  }

  /**
   On every run: a usable sample with a static alarm that is not silenced is left without an answer of its severity
   in the last minute iff there was none before and the AI's own alarm takes its place but is milder, or held back by
   the rate limit.
   */
  lemma UnansweredIffOverruled(samples: seq<Sample>, x: Sample, sqrt: real -> real)
    requires IsRoot(sqrt) && Usable(x.value, x.sensor.channel.dataType).Some? && StaticRiskOf(x) != Normal
    requires !Silenced(Run(samples, sqrt), x)
    ensures var s := Run(samples, sqrt);
            !Answered(Run(samples + [x], sqrt), x.sensor, StaticRiskOf(x), x.at) <==>
            && !Answered(s, x.sensor, StaticRiskOf(x), x.at) && Overrules(s, x, sqrt)
            && (RateLimited(s, x) || Rank(RiskOf(Inferred(s, x, sqrt).value)) < Rank(StaticRiskOf(x)))
  {
    var s, s' := Run(samples, sqrt), Run(samples + [x], sqrt);
    RunOne(samples, x, sqrt);
    AtMostOnePush(s, x, sqrt);
    StaticAlarmOutcome(s, x, sqrt);
    if |s'.pushes| == |s.pushes| + 1 {
      assert s'.pushes[|s.pushes|] in s'.pushes;
      assert s'.pushes == s.pushes + [s'.pushes[|s.pushes|]];
    }
  }

  /** So only dangers go unanswered, and what holds one back is a warning of less than a minute before. */
  lemma OnlyDangersAreUnanswered(samples: seq<Sample>, x: Sample, sqrt: real -> real)
    requires IsRoot(sqrt) && InTimeOrder(samples + [x]) && x.at >= RATE_LIMIT
    requires Usable(x.value, x.sensor.channel.dataType).Some? && StaticRiskOf(x) != Normal
    requires !Silenced(Run(samples, sqrt), x) && !Answered(Run(samples + [x], sqrt), x.sensor, StaticRiskOf(x), x.at)
    ensures StaticRiskOf(x) == Danger
    ensures RateLimited(Run(samples, sqrt), x) ==>
              exists p <- Run(samples, sqrt).pushes ::
                p.sensor == x.sensor && p.decision == Decision(Ai, Warning) && x.at - RATE_LIMIT < p.at <= x.at
  {
    var s := Run(samples, sqrt);
    UnansweredIffOverruled(samples, x, sqrt);
    if RateLimited(s, x) {
      RunStampsArePushes(samples, sqrt);
      RunPushesAlarms(samples, sqrt);
      assert InTimeOrder(samples) && (samples != [] ==> samples[|samples| - 1].at <= x.at) by {
        assert forall k | 0 <= k < |samples| :: (samples + [x])[k] == samples[k];
        assert (samples + [x])[|samples|] == x;
      }
      StampsAreNotAhead(samples, sqrt, x.at);
      var p :| p in s.pushes && p.sensor == x.sensor && p.at == s.lastFired[x.sensor] && p.decision.source == Ai;
      assert Rank(p.decision.risk) < Rank(StaticRiskOf(x));
    }
  }

  lemma WarningThenDanger(at: int, t: Thresholds)
    requires RATE_LIMIT <= at
    ensures var warning := Strike(SENSOR, RATE_LIMIT, 90.0, false, false, map["watt" := t]);
            var danger := Strike(SENSOR, at, 120.0, false, false, map["watt" := t]);
            PowerSamples(WarmAnd(0, warning) + [danger], t)
  {
    var warning := Strike(SENSOR, RATE_LIMIT, 90.0, false, false, map["watt" := t]);
    OneMoreSample(CalmSamples(SENSOR, WARM_UP, 0, map["watt" := t]), warning, t);
    OneMoreSample(WarmAnd(0, warning), Strike(SENSOR, at, 120.0, false, false, map["watt" := t]), t);
  }

  /** A danger within a minute after the first warning: nothing is pushed for it. */
  lemma DangerBehindWarningIsSilent(at: int, sqrt: real -> real)
    requires IsRoot(sqrt) && RATE_LIMIT <= at < 2 * RATE_LIMIT
    ensures var synced := map["watt" := BuiltIn("watt")];
            var warning := Strike(SENSOR, RATE_LIMIT, 90.0, false, false, synced);
            var danger := Strike(SENSOR, at, 120.0, false, false, synced);
            && PowerSamples(WarmAnd(0, warning) + [danger], BuiltIn("watt"))
            && StaticRiskOf(danger) == Danger && !Silenced(Run(WarmAnd(0, warning), sqrt), danger)
            && Run(WarmAnd(0, warning) + [danger], sqrt).pushes == [Push(SENSOR, RATE_LIMIT, Decision(Ai, Warning), 0)]
  {
    var synced := map["watt" := BuiltIn("watt")];
    var warning := Strike(SENSOR, RATE_LIMIT, 90.0, false, false, synced);
    var danger := Strike(SENSOR, at, 120.0, false, false, synced);
    WarningThenDanger(at, BuiltIn("watt"));
    StrikeRisk(SENSOR, at, 120.0, false, false, BuiltIn("watt"));
    VeryFirstStrike(0, warning, 90.0, false, false, sqrt);
    var s := Run(WarmAnd(0, warning), sqrt);
    WarmIsFull(s, danger);
    Strikes(s, danger, 120.0, false, false, sqrt);
    RunOne(WarmAnd(0, warning), danger, sqrt);
  }
}
