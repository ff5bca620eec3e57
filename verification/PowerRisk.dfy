/**
 From a measured value to the risk of a pushed alarm: the two threshold
 evaluators, the five-axis combination, the night escalation and the decision.
 */
module PowerRisk {
  import opened Wrappers
  import opened RiskLevels

  // ---------------------------------------------------------------------------
  // Threshold evaluation
  // ---------------------------------------------------------------------------

  /** A channel's rated values; None when the channel is not known. */
  datatype ChannelEntry = ChannelEntry(ratedW: Option<real>, ratedA: Option<real>, ratedV: Option<real>)

  /** Thresholds in percent of the rated value. */
  datatype Thresholds = Thresholds(warningMin: Option<real>, warningMax: Option<real>,
                                   dangerMin: Option<real>, dangerMax: Option<real>)

  /** The thresholds last synced, by data type; None when none were. */
  type Synced = map<string, Thresholds>

  const WATT_WARNING_PCT := 80.0
  const WATT_DANGER_PCT := 100.0

  function BuiltIn(dataType: string): Thresholds {
    if dataType == "voltage" then Thresholds(Some(95.0), Some(105.0), Some(90.0), Some(110.0))
    else Thresholds(None, Some(WATT_WARNING_PCT), None, Some(WATT_DANGER_PCT))
  }

  function RatedOf(entry: ChannelEntry, dataType: string): Option<real> {
    if dataType == "watt" then entry.ratedW
    else if dataType == "current" then entry.ratedA
    else if dataType == "voltage" then entry.ratedV
    else None
  }

  predicate Known(dataType: string) {
    dataType == "watt" || dataType == "current" || dataType == "voltage"
  }

  function Percent(value: real, rated: real): real
    requires rated != 0.0
  {
    value / rated * 100.0
  }

  function Unidirectional(pct: real, warning: real, danger: real): Risk {
    if pct >= danger then Danger else if pct >= warning then Warning else Normal
  }

  function Bidirectional(pct: real, warningMin: real, warningMax: real, dangerMin: real, dangerMax: real): Risk {
    if pct <= dangerMin || pct >= dangerMax then Danger
    else if pct <= warningMin || pct >= warningMax then Warning
    else Normal
  }

  /** Against the built-in percentages; an unknown data type is an error. */
  function CalculatePowerRisk(value: real, dataType: string, entry: ChannelEntry): Result<Risk, string> {
    if !Known(dataType) then Err("Unknown data_type")
    else
      var rated := RatedOf(entry, dataType);
      if rated.None? || rated.value == 0.0 then Ok(Normal)
      else
        var pct := Percent(value, rated.value);
        if dataType == "voltage" then Ok(Bidirectional(pct, 95.0, 105.0, 90.0, 110.0))
        else Ok(Unidirectional(pct, WATT_WARNING_PCT, WATT_DANGER_PCT))
  }

  predicate AtMost(pct: real, bound: Option<real>) { bound.Some? && pct <= bound.value }

  predicate AtLeast(pct: real, bound: Option<real>) { bound.Some? && pct >= bound.value }

  /** Against the synced thresholds; whatever is missing reads as normal. A missing voltage bound never fires. */
  function EvaluateStaticRisk(value: real, dataType: string, synced: Synced, entry: ChannelEntry): Risk {
    if !Known(dataType) || dataType !in synced then Normal
    else
      var rated := RatedOf(entry, dataType);
      if rated.None? || rated.value == 0.0 then Normal
      else
        var pct, t := Percent(value, rated.value), synced[dataType];
        if dataType == "voltage" then
          if AtMost(pct, t.dangerMin) || AtLeast(pct, t.dangerMax) then Danger
          else if AtMost(pct, t.warningMin) || AtLeast(pct, t.warningMax) then Warning
          else Normal
        else if t.warningMax.None? || t.dangerMax.None? then Normal
        else Unidirectional(pct, t.warningMax.value, t.dangerMax.value)
  }

  /** When the synced thresholds are the built-in ones the two evaluators agree on every value. */
  lemma EvaluatorsAgree(value: real, dataType: string, synced: Synced, entry: ChannelEntry)
    requires Known(dataType) && dataType in synced && synced[dataType] == BuiltIn(dataType)
    ensures CalculatePowerRisk(value, dataType, entry) == Ok(EvaluateStaticRisk(value, dataType, synced, entry))
  {
  }

  /** Every percentage is reached by some value. */
  lemma ValueAt(pct: real, rated: real)
    requires rated != 0.0
    ensures Percent(pct * rated / 100.0, rated) == pct
  {
  }

  /** Both evaluators look at a power value only through its percentage. */
  lemma WattRisks(v: real, pct: real, t: Thresholds, rated: real)
    requires rated != 0.0 && Percent(v, rated) == pct
    ensures var entry := ChannelEntry(Some(rated), None, None);
            && CalculatePowerRisk(v, "watt", entry) == Ok(Unidirectional(pct, WATT_WARNING_PCT, WATT_DANGER_PCT))
            && EvaluateStaticRisk(v, "watt", map["watt" := t], entry) ==
               if t.warningMax.None? || t.dangerMax.None? then Normal
               else Unidirectional(pct, t.warningMax.value, t.dangerMax.value)
  {
  }

  /** A percentage on which synced maxima that differ from the built-in ones show the difference. */
  function Telling(t: Thresholds): real {
    if t.warningMax.None? || t.dangerMax.None? || t.dangerMax.value > WATT_DANGER_PCT then WATT_DANGER_PCT
    else if t.dangerMax.value < WATT_DANGER_PCT then t.dangerMax.value
    else if t.warningMax.value < WATT_WARNING_PCT then t.warningMax.value
    else WATT_WARNING_PCT
  }

  /** For power the evaluators agree on every value iff the synced maxima are the built-in ones. */
  lemma WattEvaluatorsAgreeIff(t: Thresholds, rated: real)
    requires rated != 0.0
    ensures var entry := ChannelEntry(Some(rated), None, None); var synced := map["watt" := t];
            (forall v: real :: CalculatePowerRisk(v, "watt", entry) == Ok(EvaluateStaticRisk(v, "watt", synced, entry)))
            <==> t.warningMax == Some(80.0) && t.dangerMax == Some(100.0)
  {
    var entry := ChannelEntry(Some(rated), None, None);
    var synced := map["watt" := t];
    if t.warningMax != Some(WATT_WARNING_PCT) || t.dangerMax != Some(WATT_DANGER_PCT) {
      var v := Telling(t) * rated / 100.0;
      ValueAt(Telling(t), rated);
      WattRisks(v, Telling(t), t, rated);
      assert CalculatePowerRisk(v, "watt", entry) != Ok(EvaluateStaticRisk(v, "watt", synced, entry));
    } else {
      forall v: real ensures CalculatePowerRisk(v, "watt", entry) == Ok(EvaluateStaticRisk(v, "watt", synced, entry)) {
        WattRisks(v, Percent(v, rated), t, rated);
      }
    }
  }

  // ---------------------------------------------------------------------------
  // Combination, night, decision
  // ---------------------------------------------------------------------------

  datatype Combined = AllNormal | Caution | PredictWarn | Warned | Critical

  /** threshold x IsolationForest x ARIMA */
  function Combine3(threshold: Risk, anomaly: bool, arima: bool): Combined {
    match (threshold, anomaly, arima)
    case (Normal, false, false) => AllNormal
    case (Normal, false, true) => PredictWarn
    case (Normal, true, false) => PredictWarn
    case (Normal, true, true) => Warned
    case (Warning, false, false) => Caution
    case (Warning, false, true) => Warned
    case (Warning, true, false) => Warned
    case (Warning, true, true) => Critical
    case (Danger, _, _) => Critical
  }

  datatype Escalation = NoEscalation | ByZScore | ByChangePoint

  function Combine5(threshold: Risk, anomaly: bool, arima: bool, zScore: bool, changePoint: bool)
    : (Combined, Escalation)
  {
    var base := Combine3(threshold, anomaly, arima);
    if base != AllNormal then (base, NoEscalation)
    else if changePoint then (PredictWarn, ByChangePoint)
    else if zScore then (PredictWarn, ByZScore)
    else (AllNormal, NoEscalation)
  }

  const NIGHT_THRESHOLD_RATIO := 0.30

  /** 22:00 to 05:00 in Korea, from the UTC hour; an unreadable timestamp is not night. */
  predicate IsNight(utcHour: Option<nat>) {
    utcHour.Some? && var kst := (utcHour.value + 9) % 24; kst >= 22 || kst < 5
  }

  function NightEscalation(c: Combined): Combined {
    match c
    case AllNormal => Caution
    case Caution => Warned
    case PredictWarn => Warned
    case _ => c
  }

  /** Every combined level but normal may raise an alarm; the alarm's risk level. */
  function RiskOf(c: Combined): Risk {
    match c
    case AllNormal => Normal
    case Critical => Danger
    case _ => Warning
  }

  datatype AiState = Fired | InferredNormal | InferredFailed | WarmingUp | Disabled

  datatype AlarmSource = Ai | StaticCoverMiss | StaticCoverInferenceFail | StaticCoverWarmup | StaticNoAiAvailable

  datatype Decision = Decision(source: AlarmSource, risk: Risk)

  /** `state` is None when it is not known. */
  function DecideAlarm(state: Option<AiState>, combined: Combined, staticRisk: Risk): Option<Decision> {
    if state == Some(Fired) then Some(Decision(Ai, RiskOf(combined)))
    else if staticRisk == Normal then None
    else
      var source := match state
        case Some(InferredNormal) => StaticCoverMiss
        case Some(InferredFailed) => StaticCoverInferenceFail
        case Some(WarmingUp) => StaticCoverWarmup
        case _ => StaticNoAiAvailable;
      Some(Decision(source, staticRisk))
  }

  /** The level of the mute mark an AI alarm leaves for the rule alarms. */
  function RuleLevel(c: Combined): Risk {
    match c
    case Caution => Warning
    case PredictWarn => Warning
    case Warned => Warning
    case Critical => Danger
    case AllNormal => Normal
  }

  /** What an inference that succeeds and is not rate limited decides. */
  function Verdict(staticRisk: Risk, threshold: Risk, anomaly: bool, arima: bool, zScore: bool, changePoint: bool,
                   night: bool): Option<Decision>
  {
    var (axes, _) := Combine5(threshold, anomaly, arima, zScore, changePoint);
    var combined := if night then NightEscalation(axes) else axes;
    if combined != AllNormal then DecideAlarm(Some(Fired), combined, staticRisk)
    else DecideAlarm(Some(InferredNormal), AllNormal, staticRisk)
  }

  /**
   The tables and branches in one formula: any sign of trouble raises an AI alarm, and it is a danger iff the
   threshold says danger, or says warning and both models agree. Otherwise a static alarm goes out as it is.
   */
  lemma VerdictInOneFormula(staticRisk: Risk, threshold: Risk, anomaly: bool, arima: bool, zScore: bool,
                            changePoint: bool, night: bool)
    ensures Verdict(staticRisk, threshold, anomaly, arima, zScore, changePoint, night) ==
            if threshold != Normal || anomaly || arima || zScore || changePoint || night then
              var danger := threshold == Danger || (threshold == Warning && anomaly && arima);
              Some(Decision(Ai, if danger then Danger else Warning))
            else if staticRisk != Normal then Some(Decision(StaticCoverMiss, staticRisk))
            else None
  {
  }

  predicate NotBelow(d: Option<Decision>, staticRisk: Risk) {
    staticRisk != Normal ==> d.Some? && Rank(d.value.risk) >= Rank(staticRisk)
  }

  /** An inference never weakens a static alarm iff the built-in evaluator sees every danger the synced one sees. */
  lemma NoDowngradeIff(staticRisk: Risk, threshold: Risk)
    ensures (forall anomaly, arima, zScore, changePoint, night ::
               NotBelow(Verdict(staticRisk, threshold, anomaly, arima, zScore, changePoint, night), staticRisk))
            <==> (staticRisk == Danger ==> threshold == Danger)
  {
    if staticRisk == Danger && threshold != Danger {
      assert !NotBelow(Verdict(staticRisk, threshold, false, false, true, false, false), staticRisk);
    }
  }
}
