/** The pipeline as it runs: module-level dictionaries updated channel by channel. */
module PowerService {
  import opened Wrappers
  import opened RiskLevels
  import opened PowerRisk
  import opened ChangePoint
  import opened Statistics
  import opened PowerInference
  import AiMute
  import ZScore

  /** What one call of process_anomaly_inference is told about one channel. */
  datatype Reading = Reading(channel: nat, value: Option<real>, at: int, models: Models, entry: ChannelEntry,
                             keys: nat)

  datatype Call = Call(device: Option<string>, dataType: string, utcHour: Option<nat>, synced: Synced)

  function SampleOf(c: Call, r: Reading): Sample {
    Sample(Sensor(c.device, Channel(r.channel, c.dataType)),
           r.value, r.at, c.utcHour, r.models, r.entry, c.synced, r.keys)
  }

  function ProcessAll(s: State, c: Call, readings: seq<Reading>, sqrt: real -> real): (s': State)
    requires IsRoot(sqrt) && Sane(s)
    ensures Sane(s')
  {
    if readings == [] then s
    else
      var before := ProcessAll(s, c, readings[..|readings| - 1], sqrt);
      var x := SampleOf(c, readings[|readings| - 1]);
      ProcessIsSane(before, x, sqrt);
      Process(before, x, sqrt)
  }

  lemma ProcessAllOneMore(s: State, c: Call, readings: seq<Reading>, i: nat, sqrt: real -> real)
    requires IsRoot(sqrt) && Sane(s) && i < |readings|
    ensures var before := ProcessAll(s, c, readings[..i], sqrt);
            && ProcessAll(s, c, readings[..i + 1], sqrt) == Process(before, SampleOf(c, readings[i]), sqrt)
            && Sane(ProcessAll(s, c, readings[..i + 1], sqrt))
  {
    assert readings[..i + 1][..i] == readings[..i];
  }

  class Pipeline {
    var windows: map<Channel, seq<real>>
    var machines: map<Channel, Machine>
    var lastFired: map<Sensor, int>
    var pushes: seq<Push>
    var marks: seq<AiMute.Mark>

    ghost function Model(): State
      reads this
    {
      State(windows, machines, lastFired, pushes, marks)
    }

    constructor ()
      ensures Model() == START
    {
      windows, machines, lastFired, pushes, marks := map[], map[], map[], [], [];
    }

    method PushDecision(x: Sample, d: Option<Decision>)
      modifies this`pushes
      ensures Model() == Emit(old(Model()), x, d)
    {
      if d.Some? {
        pushes := pushes + [Push(x.sensor, x.at, d.value, x.keys)];
      }
    }

    /** Rate limit, stamp, mute mark and push of an alarm the AI raises. */
    method RaiseAiAlarm(x: Sample, combined: Combined, staticRisk: Risk)
      requires x.value.Some? && staticRisk == StaticRiskOf(x) && combined != AllNormal
      modifies this
      ensures Model() == Conclude(old(Model()), x, combined)
    {
      var last := if x.sensor in lastFired then lastFired[x.sensor] else 0;
      if x.at - last < RATE_LIMIT {
        return;
      }
      lastFired := lastFired[x.sensor := x.at];
      marks := marks + MarkOf(x, RuleLevel(combined));
      PushDecision(x, DecideAlarm(Some(Fired), combined, staticRisk));
    }

    /** The five axes on a full window; `failed` asks the caller for the static fallback. */
    method InferAxes(x: Sample, window: seq<real>, sqrt: real -> real) returns (failed: bool, combined: Combined)
      requires IsRoot(sqrt) && Sane(Model()) && x.value.Some? && (x.models.ArimaRaises? || x.models.Answers?)
      modifies this`machines
      ensures var (machine, changePoint) := Detect(MachineAt(old(Model()), x.sensor.channel), x.value.value, sqrt);
              var threshold := CalculatePowerRisk(x.value.value, x.sensor.channel.dataType, x.entry);
              && machines == old(machines)[x.sensor.channel := machine]
              && (failed <==> x.models.ArimaRaises? || threshold.Err?)
              && (!failed ==>
                    var zScore := ZScore.ZScoreCheck(window, x.value.value, ZSCORE_THRESHOLD, sqrt).0;
                    var axes := Combine5(threshold.value, x.models.anomaly, x.models.arima, zScore, changePoint).0;
                    combined == if NightRaises(x) then NightEscalation(axes) else axes)
    {
      var key, value := x.sensor.channel, x.value.value;
      combined := AllNormal;
      var (zScore, _) := ZScore.ZScoreCheck(window, value, ZSCORE_THRESHOLD, sqrt);
      var (machine, changePoint) := Detect(if key in machines then machines[key] else NEW_MACHINE, value, sqrt);
      machines := machines[key := machine];
      if x.models.ArimaRaises? {
        return true, combined;
      }
      var threshold := CalculatePowerRisk(value, key.dataType, x.entry);
      if threshold.Err? {
        return true, combined;
      }
      var (axes, _) := Combine5(threshold.value, x.models.anomaly, x.models.arima, zScore, changePoint);
      combined := axes;
      if NightRaises(x) {
        combined := NightEscalation(axes);
      }
      return false, combined;
    }

    method InferChannel(x: Sample, window: seq<real>, staticRisk: Risk, sqrt: real -> real)
      requires IsRoot(sqrt) && Sane(Model()) && x.value.Some? && staticRisk == StaticRiskOf(x)
      modifies this
      ensures Model() == Infer(old(Model()), x, window, sqrt)
    {
      if x.models.NotLoaded? {
        return;
      }
      var failed, combined := true, AllNormal;
      if !x.models.ForestRaises? {
        failed, combined := InferAxes(x, window, sqrt);
      }
      if failed {
        PushDecision(x, DecideAlarm(Some(InferredFailed), AllNormal, staticRisk));
      } else if combined != AllNormal {
        RaiseAiAlarm(x, combined, staticRisk);
      } else {
        PushDecision(x, DecideAlarm(Some(InferredNormal), AllNormal, staticRisk));
      }
    }

    method ProcessChannel(x: Sample, sqrt: real -> real)
      requires IsRoot(sqrt) && Sane(Model())
      modifies this
      ensures Model() == Process(old(Model()), x, sqrt)
    {
      var key := x.sensor.channel;
      if Usable(x.value, key.dataType).None? {
        return;
      }
      var staticRisk := StaticRiskOf(x);
      if !InferenceEnabled(key) {
        PushDecision(x, DecideAlarm(Some(Disabled), AllNormal, staticRisk));
        return;
      }
      var window := Slide(if key in windows then windows[key] else [], x.value.value, ZScore.INFERENCE_WINDOW);
      windows := windows[key := window];
      if |window| < ZScore.INFERENCE_WINDOW {
        PushDecision(x, DecideAlarm(Some(WarmingUp), AllNormal, staticRisk));
        return;
      }
      if Stuck(window) {
        return;
      }
      InferChannel(x, window, staticRisk, sqrt);
    }

    method ProcessAnomalyInference(c: Call, readings: seq<Reading>, sqrt: real -> real)
      requires IsRoot(sqrt) && Sane(Model())
      modifies this
      ensures Sane(Model()) && Model() == ProcessAll(old(Model()), c, readings, sqrt)
    {
      for i := 0 to |readings|
        invariant Sane(Model()) && Model() == ProcessAll(old(Model()), c, readings[..i], sqrt)
      {
        ProcessAllOneMore(old(Model()), c, readings, i, sqrt);
        ProcessChannel(SampleOf(c, readings[i]), sqrt);
      }
      assert readings[..|readings|] == readings;
    }
  }
}
