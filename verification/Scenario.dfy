/** The simulators' scenario machine: a channel ramps up, holds, ramps down and is normal again. */
module Scenario {
  import opened Wrappers

  datatype Phase = Normal | RampUp | Hold | RampDown

  datatype Channel = Channel(phase: Phase, scenario: Option<string>, ticks: nat, up: nat, hold: nat, down: nat)

  datatype Output = Output(weight: real, anomaly: bool, kind: Option<string>)

  /** The arguments of a scenario entry. */
  datatype Plan = Plan(scenario: string, up: int, hold: int, down: int)

  const NEW_CHANNEL := Channel(Normal, None, 0, 5, 10, 10)
  const QUIET := Output(0.0, false, None)

  /** The larger of the two. */
  function AtLeastOne(n: int): (r: nat)
    ensures r >= 1 && r >= n && (r == 1 || r == n)
  {
    if n < 1 then 1 else n
  }

  function Length(p: Plan): nat { AtLeastOne(p.up) + AtLeastOne(p.hold) + AtLeastOne(p.down) }

  function Ratio(part: int, whole: int): real
    requires whole > 0
  {
    part as real / whole as real
  }

  function Enter(c: Channel, p: Plan): Channel {
    if c.phase != Normal then c
    else Channel(RampUp, Some(p.scenario), 0, AtLeastOne(p.up), AtLeastOne(p.hold), AtLeastOne(p.down))
  }

  /** One tick: the channel after it, and its output. */
  function Tick(c: Channel): (Channel, Output)
    requires c.up > 0 && c.down > 0
  {
    var t := c.ticks + 1;
    var next := c.(ticks := t);
    match c.phase
    case Normal => (next, QUIET)
    case RampUp =>
      var ratio := Ratio(t, c.up);
      var out := Output(if ratio < 1.0 then ratio else 1.0, true, c.scenario);
      if t >= c.up then (next.(phase := Hold, ticks := 0), out) else (next, out)
    case Hold =>
      var out := Output(1.0, true, c.scenario);
      if t >= c.hold then (next.(phase := RampDown, ticks := 0), out) else (next, out)
    case RampDown =>
      if t >= c.down then (next.(phase := Normal, scenario := None, ticks := 0), QUIET)
      else (next, Output(Ratio(c.down - t, c.down), true, c.scenario))
  }

  // ---------------------------------------------------------------------------
  // Closed form
  // ---------------------------------------------------------------------------

  /** The channel `k` ticks after it entered the scenario. */
  function After(p: Plan, k: nat): Channel
    requires k <= Length(p)
  {
    var (u, h, d) := (AtLeastOne(p.up), AtLeastOne(p.hold), AtLeastOne(p.down));
    if k < u then Channel(RampUp, Some(p.scenario), k, u, h, d)
    else if k < u + h then Channel(Hold, Some(p.scenario), k - u, u, h, d)
    else if k < u + h + d then Channel(RampDown, Some(p.scenario), k - u - h, u, h, d)
    else Channel(Normal, None, 0, u, h, d)
  }

  /** The weight of the k-th tick; 0 before the first. */
  function Weight(p: Plan, k: nat): real
    requires k <= Length(p)
  {
    var (u, h, d) := (AtLeastOne(p.up), AtLeastOne(p.hold), AtLeastOne(p.down));
    if k <= u then Ratio(k, u)
    else if k <= u + h then 1.0
    else Ratio(Length(p) - k, d)
  }

  function OutputAt(p: Plan, k: nat): Output
    requires k <= Length(p)
  {
    if k == Length(p) then QUIET else Output(Weight(p, k), true, Some(p.scenario))
  }

  lemma RatioBounds(part: int, whole: int)
    requires 0 <= part <= whole && whole > 0
    ensures 0.0 <= Ratio(part, whole) <= 1.0
    ensures part == whole ==> Ratio(part, whole) == 1.0
    ensures part == 0 ==> Ratio(part, whole) == 0.0
    ensures part < whole ==> Ratio(part, whole) < 1.0
  {
  }

  /** What a tick puts out weighs what the closed form says, also at the end, and a normal channel puts out nothing. */
  lemma OutputWeighs(p: Plan, k: nat, c: Channel)
    requires k <= Length(p) && c.phase == Normal && c.up > 0 && c.down > 0
    ensures OutputAt(p, k).weight == Weight(p, k) && (OutputAt(p, k).anomaly <==> k < Length(p))
    ensures Tick(c).1 == Output(0.0, false, None)
  {
    if k == Length(p) { RatioBounds(0, AtLeastOne(p.down)); }
  }

  /** One tick moves the closed form one step on and puts out the next weight. */
  lemma TickAdvances(p: Plan, k: nat)
    requires k < Length(p)
    ensures Tick(After(p, k)) == (After(p, k + 1), OutputAt(p, k + 1))
  {
    var u := AtLeastOne(p.up);
    if k < u {
      RatioBounds(k + 1, u);
    }
  }

  // ---------------------------------------------------------------------------
  // Whole runs: ticks with entries in between
  // ---------------------------------------------------------------------------

  datatype Move = EnterScenario(plan: Plan) | Step

  function Do(c: Channel, m: Move): (r: Channel)
    requires c.up > 0 && c.down > 0
    ensures r.up > 0 && r.down > 0
  {
    match m case EnterScenario(p) => Enter(c, p) case Step => Tick(c).0
  }

  function Run(c: Channel, moves: seq<Move>): (r: Channel)
    requires c.up > 0 && c.down > 0
    ensures r.up > 0 && r.down > 0
  {
    if moves == [] then c else Do(Run(c, moves[..|moves| - 1]), moves[|moves| - 1])
  }

  function Ticks(moves: seq<Move>): nat {
    if moves == [] then 0 else Ticks(moves[..|moves| - 1]) + (if moves[|moves| - 1].Step? then 1 else 0)
  }

  /**
   Until the scenario ends its state depends on the number of ticks alone: entering again on the way changes
   nothing. It ends after exactly `Length(p)` ticks.
   */
  lemma {:induction false} ScenarioRunsItsCourse(c: Channel, p: Plan, moves: seq<Move>)
    requires c.phase == Normal && c.up > 0 && c.down > 0
    requires Ticks(moves) <= Length(p)
    requires Ticks(moves) == Length(p) ==> moves[|moves| - 1].Step?
    ensures Run(Enter(c, p), moves) == After(p, Ticks(moves))
    ensures Run(Enter(c, p), moves).phase == Normal <==> Ticks(moves) == Length(p)
  {
    if moves != [] {
      var init, last := moves[..|moves| - 1], moves[|moves| - 1];
      if last.Step? {
        ScenarioRunsItsCourse(c, p, init);
        TickAdvances(p, Ticks(init));
      } else {
        ScenarioRunsItsCourse(c, p, init);
      }
    }
  }

  /** A forced mode enters before every tick. */
  function Forced(c: Channel, p: Plan, n: nat): (r: Channel)
    requires c.up > 0 && c.down > 0
    ensures r.up > 0 && r.down > 0
  {
    if n == 0 then c else Tick(Enter(Forced(c, p, n - 1), p)).0
  }

  /** The output of the n-th tick of a forced mode, counting from 0. */
  function ForcedOutput(c: Channel, p: Plan, n: nat): Output
    requires c.up > 0 && c.down > 0
  {
    Tick(Enter(Forced(c, p, n), p)).1
  }

  /** How far the n-th tick of a forced mode finds the scenario. */
  function Slot(p: Plan, n: nat): (k: nat)
    ensures k < Length(p)
  {
    if n == 0 || Slot(p, n - 1) + 1 == Length(p) then 0 else Slot(p, n - 1) + 1
  }

  /** The plan of the scenario a channel is in. */
  function PlanOf(c: Channel): Plan
    requires c.scenario.Some?
  {
    Plan(c.scenario.value, c.up, c.hold, c.down)
  }

  /** How many ticks of it are over. */
  function Elapsed(c: Channel): nat {
    match c.phase
    case Normal => 0
    case RampUp => c.ticks
    case Hold => c.up + c.ticks
    case RampDown => c.up + c.hold + c.ticks
  }

  /** A channel is normal, or where the closed form of its scenario says. */
  predicate OnCourse(c: Channel) {
    && c.up > 0 && c.hold > 0 && c.down > 0
    && (c.phase != Normal ==>
          c.scenario.Some? && Elapsed(c) < Length(PlanOf(c)) && c == After(PlanOf(c), Elapsed(c)))
  }

  lemma TickStaysOnCourse(c: Channel)
    requires OnCourse(c)
    ensures OnCourse(Tick(c).0)
  {
    if c.phase != Normal { TickAdvances(PlanOf(c), Elapsed(c)); }
  }

  lemma {:induction false} RunIsOnCourse(moves: seq<Move>)
    ensures OnCourse(Run(NEW_CHANNEL, moves))
  {
    if moves != [] {
      var init, last := moves[..|moves| - 1], moves[|moves| - 1];
      RunIsOnCourse(init);
      if last.Step? { TickStaysOnCourse(Run(NEW_CHANNEL, init)); }
    }
  }

  /** How many ticks a channel still needs until it is normal. */
  function Rest(c: Channel): nat
    requires OnCourse(c)
  {
    if c.phase == Normal then 0 else Length(PlanOf(c)) - Elapsed(c)
  }

  /** Where the n-th tick of a forced mode finds the channel: a scenario under way runs its course, then `p` cycles. */
  function Position(c: Channel, p: Plan, n: nat): Channel
    requires OnCourse(c)
  {
    if n < Rest(c) then After(PlanOf(c), Elapsed(c) + n) else After(p, Slot(p, n - Rest(c)))
  }

  function OutputThere(c: Channel, p: Plan, n: nat): Output
    requires OnCourse(c)
  {
    if n < Rest(c) then OutputAt(PlanOf(c), Elapsed(c) + n + 1) else OutputAt(p, Slot(p, n - Rest(c)) + 1)
  }

  lemma PositionAdvances(c: Channel, p: Plan, n: nat)
    requires OnCourse(c)
    ensures Position(c, p, n).up > 0 && Position(c, p, n).down > 0
    ensures Tick(Position(c, p, n)).1 == OutputThere(c, p, n)
    ensures Enter(Tick(Position(c, p, n)).0, p) == Position(c, p, n + 1)
  {
    if n < Rest(c) {
      TickAdvances(PlanOf(c), Elapsed(c) + n);
    } else {
      TickAdvances(p, Slot(p, n - Rest(c)));
    }
  }

  lemma ForcedStart(c: Channel, p: Plan)
    requires OnCourse(c)
    ensures Enter(c, p) == Position(c, p, 0)
  {
  }

  /** In a forced mode a scenario under way runs its course; then `Length(p)` ticks make a cycle that starts at once. */
  lemma {:induction false} ForcedCycle(c: Channel, p: Plan, n: nat)
    requires OnCourse(c)
    ensures Enter(Forced(c, p, n), p) == Position(c, p, n)
    ensures ForcedOutput(c, p, n) == OutputThere(c, p, n)
  {
    if n == 0 {
      ForcedStart(c, p);
    } else {
      ForcedCycle(c, p, n - 1);
      PositionAdvances(c, p, n - 1);
    }
    PositionAdvances(c, p, n);
  }

  lemma OutputOnceOver(c: Channel, p: Plan, n: nat)
    requires OnCourse(c)
    ensures ForcedOutput(c, p, Rest(c) + n) == OutputAt(p, Slot(p, n) + 1)
  {
    ForcedCycle(c, p, Rest(c) + n);
  }

  lemma {:induction false} SlotCountsUp(p: Plan, k: nat)
    requires k < Length(p)
    ensures Slot(p, k) == k
  {
    if k > 0 { SlotCountsUp(p, k - 1); }
  }

  lemma {:induction false} SlotRepeats(p: Plan, n: nat)
    ensures Slot(p, n + Length(p)) == Slot(p, n)
  {
    if n == 0 {
      SlotCountsUp(p, Length(p) - 1);
    } else {
      SlotRepeats(p, n - 1);
    }
  }

  /** Once the scenario under way is over, a forced mode repeats its outputs. */
  lemma ForcedIsPeriodic(c: Channel, p: Plan, n: nat)
    requires OnCourse(c)
    ensures ForcedOutput(c, p, Rest(c) + (n + Length(p))) == ForcedOutput(c, p, Rest(c) + n)
    ensures n < Length(p) ==> ForcedOutput(c, p, Rest(c) + n) == OutputAt(p, n + 1)
  {
    OutputOnceOver(c, p, n);
    OutputOnceOver(c, p, n + Length(p));
    SlotRepeats(p, n);
    if n < Length(p) { SlotCountsUp(p, n); }
  }

  // ---------------------------------------------------------------------------
  // The weights
  // ---------------------------------------------------------------------------

  /** The sum of the first `k` weights. */
  function Total(p: Plan, k: nat): real
    requires k <= Length(p)
  {
    if k == 0 then 0.0 else Total(p, k - 1) + Weight(p, k)
  }

  lemma RatioSum(a: int, b: int, whole: int)
    requires whole > 0
    ensures Ratio(a, whole) + Ratio(b, whole) == Ratio(a + b, whole)
  {
  }

  /** 1 + 2 + ... + n. */
  function Triangle(n: int): nat {
    if n <= 0 then 0 else Triangle(n - 1) + n
  }

  lemma {:induction false} RampUpTotal(p: Plan, k: nat)
    requires k <= AtLeastOne(p.up)
    ensures Total(p, k) == Ratio(Triangle(k), AtLeastOne(p.up))
  {
    if k == 0 {
      RatioBounds(0, AtLeastOne(p.up));
    } else {
      RampUpTotal(p, k - 1);
      RatioSum(Triangle(k - 1), k, AtLeastOne(p.up));
    }
  }

  lemma {:induction false} HoldTotal(p: Plan, k: nat)
    requires k <= AtLeastOne(p.hold)
    ensures Total(p, AtLeastOne(p.up) + k) == Total(p, AtLeastOne(p.up)) + k as real
  {
    if k > 0 { HoldTotal(p, k - 1); }
  }

  lemma {:induction false} RampDownTotal(p: Plan, k: nat)
    requires k <= AtLeastOne(p.down)
    ensures var start, d := AtLeastOne(p.up) + AtLeastOne(p.hold), AtLeastOne(p.down);
            Total(p, start + k) == Total(p, start) + Ratio(Triangle(d - 1) - Triangle(d - 1 - k), d)
  {
    var d := AtLeastOne(p.down);
    if k == 0 {
      RatioBounds(0, d);
    } else {
      RampDownTotal(p, k - 1);
      RatioSum(Triangle(d - 1) - Triangle(d - k), d - k, d);
    }
  }

  lemma {:induction false} TwiceTriangle(n: nat)
    ensures 2 * Triangle(n) == n * (n + 1)
  {
    if n > 0 { TwiceTriangle(n - 1); }
  }

  lemma HalfRatio(part: nat, n: nat, m: int)
    requires n > 0 && 2 * part == n * m
    ensures Ratio(part, n) == m as real / 2.0
  {
  }

  lemma TriangleRatios(n: nat)
    requires n > 0
    ensures Ratio(Triangle(n), n) == (n as real + 1.0) / 2.0
    ensures Ratio(Triangle(n - 1), n) == (n as real - 1.0) / 2.0
  {
    TwiceTriangle(n);
    HalfRatio(Triangle(n), n, n + 1);
    TwiceTriangle(n - 1);
    HalfRatio(Triangle(n - 1), n, n - 1);
  }

  /** All weights of a scenario together: the hold counts full, each ramp half. */
  lemma WeightsSum(p: Plan)
    ensures Total(p, Length(p)) ==
            AtLeastOne(p.hold) as real + (AtLeastOne(p.up) + AtLeastOne(p.down)) as real / 2.0
  {
    var u, h, d := AtLeastOne(p.up), AtLeastOne(p.hold), AtLeastOne(p.down);
    RampUpTotal(p, u);
    HoldTotal(p, h);
    RampDownTotal(p, d);
    TriangleRatios(u);
    TriangleRatios(d);
  }

  /** The largest change of weight a tick may make. */
  function Steepest(p: Plan): real {
    var (up, down) := (Ratio(1, AtLeastOne(p.up)), Ratio(1, AtLeastOne(p.down)));
    if up < down then down else up
  }

  lemma WeightsAreSmooth(p: Plan, k: nat)
    requires k < Length(p)
    ensures -Steepest(p) <= Weight(p, k + 1) - Weight(p, k) <= Steepest(p)
    ensures 0.0 <= Weight(p, k) <= 1.0
  {
    var u, h, d := AtLeastOne(p.up), AtLeastOne(p.hold), AtLeastOne(p.down);
    RatioBounds(1, u);
    RatioBounds(1, d);
    if k < u {
      RatioSum(k, 1, u);
      RatioBounds(k, u);
    } else if k < u + h {
      RatioBounds(u, u);
    } else {
      RatioSum(Length(p) - k - 1, 1, d);
      RatioBounds(Length(p) - k, d);
      RatioBounds(u, u);
      RatioBounds(d, d);
    }
  }

  function Mix(normal: real, scenario: real, weight: real): real {
    normal * (1.0 - weight) + scenario * weight
  }

  function Distance(a: real, b: real): real { if a < b then b - a else a - b }

  lemma Product(gap: real, x: real, bound: real)
    requires -bound <= x <= bound
    ensures -(bound * Distance(gap, 0.0)) <= gap * x <= bound * Distance(gap, 0.0)
  {
  }

  /**
   The mixed value stays between normal and scenario, and when the weight moves by at most `steep` (see
   WeightsAreSmooth) it moves by at most that part of the way.
   */
  lemma MixFollowsWeight(normal: real, scenario: real, w: real, w': real, steep: real)
    requires 0.0 <= w <= 1.0 && -steep <= w' - w <= steep
    ensures Mix(normal, scenario, 0.0) == normal && Mix(normal, scenario, 1.0) == scenario
    ensures Distance(normal, Mix(normal, scenario, w)) <= Distance(normal, scenario)
    ensures Distance(Mix(normal, scenario, w), Mix(normal, scenario, w')) <= steep * Distance(normal, scenario)
  {
    var gap := scenario - normal;
    assert Mix(normal, scenario, w) == normal + gap * w;
    assert Mix(normal, scenario, w') == normal + gap * w';
    Product(gap, w, 1.0);
    Product(gap, w' - w, steep);
    assert gap * w' - gap * w == gap * (w' - w);
  }

  // ---------------------------------------------------------------------------
  // The machine as it runs
  // ---------------------------------------------------------------------------

  class ChannelState {
    var phase: Phase
    var scenario: Option<string>
    var ticks: nat
    var up: nat
    var hold: nat
    var down: nat

    ghost function Model(): Channel
      reads this
    {
      Channel(phase, scenario, ticks, up, hold, down)
    }

    constructor ()
      ensures Model() == NEW_CHANNEL
    {
      phase, scenario, ticks, up, hold, down := Normal, None, 0, 5, 10, 10;
    }

    method EnterPlan(p: Plan)
      modifies this
      ensures Model() == Enter(old(Model()), p)
    {
      if phase != Normal {
        return;
      }
      phase, scenario, ticks := RampUp, Some(p.scenario), 0;
      up := AtLeastOne(p.up);
      hold := AtLeastOne(p.hold);
      down := AtLeastOne(p.down);
    }

    method StepOnce() returns (out: Output)
      requires up > 0 && down > 0
      modifies this
      ensures (Model(), out) == Tick(old(Model()))
    {
      ticks := ticks + 1;
      if phase == Normal {
        return QUIET;
      }
      if phase == RampUp {
        var weight := Ratio(ticks, up);
        if !(weight < 1.0) {
          weight := 1.0;
        }
        if ticks >= up {
          phase, ticks := Hold, 0;
        }
        return Output(weight, true, scenario);
      }
      if phase == Hold {
        if ticks >= hold {
          phase, ticks := RampDown, 0;
        }
        return Output(1.0, true, scenario);
      }
      var remaining := if down - ticks > 0 then down - ticks else 0;
      var weight := Ratio(remaining, down);
      if ticks >= down {
        phase, scenario, ticks := Normal, None, 0;
        return QUIET;
      }
      return Output(weight, true, scenario);
    }

    /** `draw` is the random number of this tick, `picked` what the weighted choice would pick. */
    method MaybeTrigger(draw: real, probability: real, picked: Plan)
      modifies this
      ensures Model() == if draw < probability then Enter(old(Model()), picked) else old(Model())
    {
      if phase != Normal {
        return;
      }
      if draw >= probability {
        return;
      }
      EnterPlan(picked);
    }
  }
}
