/** Runs of the power pipeline that lead up to AI alarms: a quiet warm-up, then samples whose verdict is known. */
module PowerRuns {
  import opened Wrappers
  import opened ChangePoint
  import opened PowerInference
  import opened PowerRisk
  import opened Statistics
  import ZScore

  const WARM_UP: nat := ZScore.INFERENCE_WINDOW - 1

  function CalmValue(k: nat): real { if k % 2 == 0 then 1.0 else 2.0 }

  /** A sample of a channel whose rated values are not known: it has no static risk. */
  function Calm(sensor: Sensor, k: nat, at: int, synced: Synced): Sample {
    Sample(sensor, Some(CalmValue(k)), at, None, NotLoaded, ChannelEntry(None, None, None), synced, 0)
  }

  function CalmSamples(sensor: Sensor, n: nat, at: int, synced: Synced): (samples: seq<Sample>)
    ensures |samples| == n && forall x <- samples :: x.sensor == sensor && x.at == at && x.synced == synced
  {
    if n == 0 then [] else CalmSamples(sensor, n - 1, at, synced) + [Calm(sensor, n - 1, at, synced)]
  }

  function CalmWindow(n: nat): (window: seq<real>)
    ensures |window| == n && forall k | 0 <= k < n :: window[k] == CalmValue(k)
  {
    if n == 0 then [] else CalmWindow(n - 1) + [CalmValue(n - 1)]
  }

  lemma RunOne(samples: seq<Sample>, x: Sample, sqrt: real -> real)
    requires IsRoot(sqrt)
    ensures Run(samples + [x], sqrt) == Process(Run(samples, sqrt), x, sqrt)
  {
    assert (samples + [x])[..|samples|] == samples;
  }

  /** A calm sample extends the window of a channel that warms up. */
  lemma CalmOnlyFills(s: State, sensor: Sensor, k: nat, at: int, synced: Synced, sqrt: real -> real)
    requires IsRoot(sqrt) && Sane(s) && InferenceEnabled(sensor.channel) && k < WARM_UP
    requires if k == 0 then sensor.channel !in s.windows
             else sensor.channel in s.windows && s.windows[sensor.channel] == CalmWindow(k)
    ensures Process(s, Calm(sensor, k, at, synced), sqrt) ==
            s.(windows := s.windows[sensor.channel := CalmWindow(k + 1)])
  {
    assert CalmWindow(0) == [];
    assert WindowAfter(s, Calm(sensor, k, at, synced)) == CalmWindow(k + 1);
  }

  /** The state once a new channel has seen `k` calm samples. */
  function Warmed(s: State, key: Channel, k: nat): State {
    if k == 0 then s else s.(windows := s.windows[key := CalmWindow(k)])
  }

  lemma WarmsOn(s: State, sensor: Sensor, k: nat, at: int, synced: Synced, sqrt: real -> real)
    requires IsRoot(sqrt) && Sane(s) && InferenceEnabled(sensor.channel) && k < WARM_UP
    requires sensor.channel !in s.windows
    ensures Process(Warmed(s, sensor.channel, k), Calm(sensor, k, at, synced), sqrt) == Warmed(s, sensor.channel, k + 1)
  {
    SetTwice(s.windows, sensor.channel, CalmWindow(k), CalmWindow(k + 1));
    CalmOnlyFills(Warmed(s, sensor.channel, k), sensor, k, at, synced, sqrt);
  }

  lemma OneMore(samples: seq<Sample>, sensor: Sensor, k: nat, at: int, synced: Synced, s: State, sqrt: real -> real)
    requires IsRoot(sqrt) && Sane(Warmed(s, sensor.channel, k))
    requires Run(samples + CalmSamples(sensor, k, at, synced), sqrt) == Warmed(s, sensor.channel, k)
    ensures Run(samples + CalmSamples(sensor, k + 1, at, synced), sqrt) ==
            Process(Warmed(s, sensor.channel, k), Calm(sensor, k, at, synced), sqrt)
  {
    var before := samples + CalmSamples(sensor, k, at, synced);
    assert samples + CalmSamples(sensor, k + 1, at, synced) == before + [Calm(sensor, k, at, synced)];
    RunOne(before, Calm(sensor, k, at, synced), sqrt);
  }

  /** While a new channel warms up on calm samples its window fills, and nothing else happens. */
  lemma {:induction false} WarmsUp(samples: seq<Sample>, sensor: Sensor, n: nat, at: int, synced: Synced,
                                   sqrt: real -> real)
    requires IsRoot(sqrt) && InferenceEnabled(sensor.channel) && n <= WARM_UP
    requires sensor.channel !in Run(samples, sqrt).windows
    ensures Run(samples + CalmSamples(sensor, n, at, synced), sqrt) == Warmed(Run(samples, sqrt), sensor.channel, n)
  {
    if n == 0 {
      assert samples + [] == samples;
    } else {
      WarmsUp(samples, sensor, n - 1, at, synced, sqrt);
      WarmsOn(Run(samples, sqrt), sensor, n - 1, at, synced, sqrt);
      OneMore(samples, sensor, n - 1, at, synced, Run(samples, sqrt), sqrt);
    }
  }

  lemma SetTwice<K, V>(m: map<K, V>, key: K, v: V, w: V)
    ensures m[key := v][key := w] == m[key := w]
  {
  }

  /** A sample on a channel rated 100 W that all models answer. */
  function Strike(sensor: Sensor, at: int, v: real, anomaly: bool, arima: bool, synced: Synced): Sample {
    Sample(sensor, Some(v), at, None, Answers(anomaly, arima), ChannelEntry(Some(100.0), None, None), synced, 0)
  }

  /** What threshold and models make of it; z-score and change point matter only where this is normal. */
  function BaseOf(v: real, anomaly: bool, arima: bool): Combined {
    Combine3(Unidirectional(v, WATT_WARNING_PCT, WATT_DANGER_PCT), anomaly, arima)
  }

  predicate Full(s: State, x: Sample)
    requires x.value.Some?
  {
    |WindowAfter(s, x)| >= ZScore.INFERENCE_WINDOW && !Stuck(WindowAfter(s, x))
  }

  /** On a full window such a sample raises the AI alarm of its base, unless the rate limit holds it back. */
  lemma Strikes(s: State, x: Sample, v: real, anomaly: bool, arima: bool, sqrt: real -> real)
    requires IsRoot(sqrt) && Sane(s) && InferenceEnabled(x.sensor.channel) && 0.0 <= v <= 50000.0
    requires x == Strike(x.sensor, x.at, v, anomaly, arima, x.synced) && Full(s, x)
    requires BaseOf(v, anomaly, arima) != AllNormal
    ensures var s' := Process(s, x, sqrt);
            && s'.windows == s.windows[x.sensor.channel := WindowAfter(s, x)]
            && (RateLimited(s, x) ==> s'.pushes == s.pushes && s'.lastFired == s.lastFired)
            && (!RateLimited(s, x) ==>
                  && s'.pushes == s.pushes + [Push(x.sensor, x.at, Decision(Ai, RiskOf(BaseOf(v, anomaly, arima))), 0)]
                  && s'.lastFired == s.lastFired[x.sensor := x.at])
  {
    assert Percent(v, 100.0) == v;
  }

  /** The window of a warmed-up channel, and of the sample after it, is not stuck. */
  lemma WarmIsFull(s: State, x: Sample)
    requires x.value.Some? && x.sensor.channel in s.windows
    requires CalmWindow(WARM_UP) <= s.windows[x.sensor.channel]
    requires |s.windows[x.sensor.channel]| <= ZScore.INFERENCE_WINDOW
    ensures Full(s, x)
  {
    var w, calm := s.windows[x.sensor.channel], CalmWindow(WARM_UP);
    assert w[0] == calm[0] == 1.0 && w[1] == calm[1] == 2.0 && w[2] == calm[2] == 1.0;
    var w' := WindowAfter(s, x);
    assert w' == Slide(w, x.value.value, ZScore.INFERENCE_WINDOW);
    assert w'[0] != w'[1] && w'[1] in w';
  }

  /** The samples of a channel that warms up at `start` and then has sample `x`. */
  function WarmAnd(start: int, x: Sample): seq<Sample> {
    CalmSamples(x.sensor, WARM_UP, start, x.synced) + [x]
  }

  /** From a state that has not seen the channel: its first alarm. */
  lemma FirstStrike(samples: seq<Sample>, start: int, x: Sample, v: real, anomaly: bool, arima: bool,
                    sqrt: real -> real)
    requires IsRoot(sqrt) && InferenceEnabled(x.sensor.channel) && 0.0 <= v <= 50000.0 && x.at >= RATE_LIMIT
    requires x == Strike(x.sensor, x.at, v, anomaly, arima, x.synced) && BaseOf(v, anomaly, arima) != AllNormal
    requires x.sensor.channel !in Run(samples, sqrt).windows && x.sensor !in Run(samples, sqrt).lastFired
    ensures var s, s' := Run(samples, sqrt), Run(samples + WarmAnd(start, x), sqrt);
            && s'.pushes == s.pushes + [Push(x.sensor, x.at, Decision(Ai, RiskOf(BaseOf(v, anomaly, arima))), 0)]
            && s'.lastFired == s.lastFired[x.sensor := x.at]
            && s'.windows == s.windows[x.sensor.channel := CalmWindow(WARM_UP) + [v]]
  {
    var s, before := Run(samples, sqrt), samples + CalmSamples(x.sensor, WARM_UP, start, x.synced);
    WarmsUp(samples, x.sensor, WARM_UP, start, x.synced, sqrt);
    var warm := Run(before, sqrt);
    assert samples + WarmAnd(start, x) == before + [x];
    RunOne(before, x, sqrt);
    WarmIsFull(warm, x);
    Strikes(warm, x, v, anomaly, arima, sqrt);
    SetTwice(s.windows, x.sensor.channel, CalmWindow(WARM_UP), CalmWindow(WARM_UP) + [v]);
  }

  /** The first alarm of the first channel. */
  lemma VeryFirstStrike(start: int, x: Sample, v: real, anomaly: bool, arima: bool, sqrt: real -> real)
    requires IsRoot(sqrt) && InferenceEnabled(x.sensor.channel) && 0.0 <= v <= 50000.0 && x.at >= RATE_LIMIT
    requires x == Strike(x.sensor, x.at, v, anomaly, arima, x.synced) && BaseOf(v, anomaly, arima) != AllNormal
    ensures Run(CalmSamples(x.sensor, WARM_UP, start, x.synced), sqrt).pushes == []
    ensures var s := Run(WarmAnd(start, x), sqrt);
            && s.pushes == [Push(x.sensor, x.at, Decision(Ai, RiskOf(BaseOf(v, anomaly, arima))), 0)]
            && s.lastFired == map[x.sensor := x.at]
            && s.windows == map[x.sensor.channel := CalmWindow(WARM_UP) + [v]]
  {
    var calm := CalmSamples(x.sensor, WARM_UP, start, x.synced);
    assert [] + calm == calm && [] + WarmAnd(start, x) == WarmAnd(start, x);
    WarmsUp([], x.sensor, WARM_UP, start, x.synced, sqrt);
    FirstStrike([], start, x, v, anomaly, arima, sqrt);
  }
}
