/**
 The change-point axis: the newest 30 values of a channel against the 30 before,
 and a STABLE/SHIFT machine that fires on the way into SHIFT.
 */
module ChangePoint {
  import opened Statistics

  const W := 30
  const CP_WINDOW := 2 * W
  const MEAN_K := 3.0
  const STD_K := 2.0
  const EPS := 0.000000001

  datatype Channel = Channel(number: nat, dataType: string)

  /** Has the distribution changed between the two halves? */
  predicate Changed(window: seq<real>, sqrt: real -> real)
    requires |window| == CP_WINDOW && IsRoot(sqrt)
  {
    var prev, curr := window[..W], window[W..];
    SquaredNonNegative(prev, Mean(prev));
    SquaredNonNegative(curr, Mean(curr));
    var prevStd, currStd := sqrt(Variance(prev)), sqrt(Variance(curr));
    var meanShift := Abs(Mean(curr) - Mean(prev)) / (prevStd + EPS);
    var stdRatio := (currStd + EPS) / (prevStd + EPS);
    meanShift >= MEAN_K || stdRatio >= STD_K || stdRatio <= 1.0 / STD_K
  }

  lemma QuotientAtLeast(x: real, y: real, k: real)
    requires y > 0.0
    ensures x / y >= k <==> x >= k * y
    ensures x / y <= k <==> x <= k * y
  {
    assert x / y * y == x;
    if x / y >= k { assert (x / y - k) * y >= 0.0; } else { assert (k - x / y) * y > 0.0; }
    if x / y <= k { assert (k - x / y) * y >= 0.0; } else { assert (x / y - k) * y > 0.0; }
  }

  /** The test without quotients: three deviations between the means, or a deviation twice or half the other. */
  lemma ChangedMeans(window: seq<real>, sqrt: real -> real)
    requires |window| == CP_WINDOW && IsRoot(sqrt)
    ensures |window| == 60
    ensures var (prev, curr) := (window[..30], window[30..]);
            var (s, t) := (sqrt(Variance(prev)) + 0.000000001, sqrt(Variance(curr)) + 0.000000001);
            Changed(window, sqrt) <==>
            Mean(curr) - Mean(prev) >= 3.0 * s || Mean(prev) - Mean(curr) >= 3.0 * s || t >= 2.0 * s || 2.0 * t <= s
  {
    var prev, curr := window[..30], window[30..];
    SquaredNonNegative(prev, Mean(prev));
    SquaredNonNegative(curr, Mean(curr));
    var s, t := sqrt(Variance(prev)) + EPS, sqrt(Variance(curr)) + EPS;
    QuotientAtLeast(Abs(Mean(curr) - Mean(prev)), s, 3.0);
    QuotientAtLeast(t, s, 2.0);
    QuotientAtLeast(t, s, 0.5);
  }

  /** One channel's window and machine; `shifted` is the state SHIFT. */
  datatype Machine = Machine(window: seq<real>, shifted: bool)

  const NEW_MACHINE := Machine([], false)

  function Detect(m: Machine, value: real, sqrt: real -> real): (r: (Machine, bool))
    requires IsRoot(sqrt) && |m.window| <= CP_WINDOW
    ensures |r.0.window| <= CP_WINDOW
  {
    var window := Slide(m.window, value, CP_WINDOW);
    if |window| < CP_WINDOW then (Machine(window, m.shifted), false)
    else
      var change := Changed(window, sqrt);
      if !m.shifted && change then (Machine(window, true), true)
      else if m.shifted && !change then (Machine(window, false), false)
      else (Machine(window, m.shifted), false)
  }

  /** One step in one formula: the machine follows the test on full windows and fires when the test starts to hold. */
  lemma DetectFollowsTest(m: Machine, value: real, sqrt: real -> real, change: bool)
    requires IsRoot(sqrt) && |m.window| <= CP_WINDOW
    requires var window := Slide(m.window, value, CP_WINDOW);
             |window| == CP_WINDOW ==> change == Changed(window, sqrt)
    ensures var window := Slide(m.window, value, CP_WINDOW);
            Detect(m, value, sqrt) == if |window| < CP_WINDOW then (Machine(window, m.shifted), false)
                                      else (Machine(window, change), change && !m.shifted)
  {
  }

  // ---------------------------------------------------------------------------
  // The machine is a rising-edge detector
  // ---------------------------------------------------------------------------

  function Newest(history: seq<real>): seq<real> {
    if |history| <= CP_WINDOW then history else history[|history| - CP_WINDOW..]
  }

  /** The test, once a full window has been seen. */
  predicate Level(history: seq<real>, sqrt: real -> real)
    requires IsRoot(sqrt)
  {
    |history| >= CP_WINDOW && Changed(Newest(history), sqrt)
  }

  function After(history: seq<real>, sqrt: real -> real): (m: Machine)
    requires IsRoot(sqrt)
    ensures |m.window| <= CP_WINDOW
  {
    if history == [] then NEW_MACHINE
    else Detect(After(history[..|history| - 1], sqrt), history[|history| - 1], sqrt).0
  }

  /** Does the machine fire on the last value of the history? */
  predicate Fires(history: seq<real>, sqrt: real -> real)
    requires IsRoot(sqrt)
  {
    history != [] && Detect(After(history[..|history| - 1], sqrt), history[|history| - 1], sqrt).1
  }

  lemma SlideKeepsNewest(history: seq<real>)
    requires history != []
    ensures var init, value := history[..|history| - 1], history[|history| - 1];
            Slide(Newest(init), value, CP_WINDOW) == Newest(history)
  {
  }

  /** The machine remembers the newest values and whether they pass the test. */
  lemma {:induction false} MachineRemembers(history: seq<real>, sqrt: real -> real)
    requires IsRoot(sqrt)
    ensures After(history, sqrt) == Machine(Newest(history), Level(history, sqrt))
  {
    if history != [] {
      var init, value := history[..|history| - 1], history[|history| - 1];
      MachineRemembers(init, sqrt);
      SlideKeepsNewest(history);
      DetectFollowsTest(After(init, sqrt), value, sqrt, Level(history, sqrt));
    }
  }

  /** It fires exactly when the test holds on the newest full window but did not one value earlier. */
  lemma FiresOnRisingEdge(history: seq<real>, sqrt: real -> real)
    requires IsRoot(sqrt) && history != []
    ensures Fires(history, sqrt) <==> Level(history, sqrt) && !Level(history[..|history| - 1], sqrt)
  {
    var init, value := history[..|history| - 1], history[|history| - 1];
    MachineRemembers(init, sqrt);
    SlideKeepsNewest(history);
    DetectFollowsTest(After(init, sqrt), value, sqrt, Level(history, sqrt));
  }

  // ---------------------------------------------------------------------------
  // Verdicts do not depend on the zero point or the sign of the measurement
  // ---------------------------------------------------------------------------

  /** The test sees only the two variances and the distance of the two means. */
  lemma ChangedDependsOn(v: seq<real>, w: seq<real>, sqrt: real -> real)
    requires IsRoot(sqrt) && |v| == |w| == CP_WINDOW
    requires Variance(v[..W]) == Variance(w[..W]) && Variance(v[W..]) == Variance(w[W..])
    requires Abs(Mean(v[W..]) - Mean(v[..W])) == Abs(Mean(w[W..]) - Mean(w[..W]))
    ensures Changed(v, sqrt) == Changed(w, sqrt)
  {
  }

  lemma LevelUnderShift(history: seq<real>, c: real, sqrt: real -> real)
    requires IsRoot(sqrt)
    ensures Level(Shift(history, c), sqrt) == Level(history, sqrt)
  {
    if |history| >= CP_WINDOW {
      var window := Newest(history);
      assert Newest(Shift(history, c)) == Shift(window, c);
      assert Shift(window, c)[..W] == Shift(window[..W], c) && Shift(window, c)[W..] == Shift(window[W..], c);
      ShiftMovesMeanOnly(window[..W], c);
      ShiftMovesMeanOnly(window[W..], c);
      ChangedDependsOn(Shift(window, c), window, sqrt);
    }
  }

  lemma LevelUnderNegation(history: seq<real>, sqrt: real -> real)
    requires IsRoot(sqrt)
    ensures Level(Negate(history), sqrt) == Level(history, sqrt)
  {
    if |history| >= CP_WINDOW {
      var window := Newest(history);
      assert Newest(Negate(history)) == Negate(window);
      assert Negate(window)[..W] == Negate(window[..W]) && Negate(window)[W..] == Negate(window[W..]);
      NegationFlipsMeanOnly(window[..W]);
      NegationFlipsMeanOnly(window[W..]);
      ChangedDependsOn(Negate(window), window, sqrt);
    }
  }

  lemma VerdictsIgnoreShift(history: seq<real>, c: real, sqrt: real -> real)
    requires IsRoot(sqrt) && history != []
    ensures Fires(Shift(history, c), sqrt) == Fires(history, sqrt)
  {
    FiresOnRisingEdge(history, sqrt);
    FiresOnRisingEdge(Shift(history, c), sqrt);
    LevelUnderShift(history, c, sqrt);
    LevelUnderShift(history[..|history| - 1], c, sqrt);
    ShiftInit(history, c);
  }

  lemma VerdictsIgnoreSign(history: seq<real>, sqrt: real -> real)
    requires IsRoot(sqrt) && history != []
    ensures Fires(Negate(history), sqrt) == Fires(history, sqrt)
  {
    FiresOnRisingEdge(history, sqrt);
    FiresOnRisingEdge(Negate(history), sqrt);
    LevelUnderNegation(history, sqrt);
    LevelUnderNegation(history[..|history| - 1], sqrt);
    NegateInit(history);
  }

  // ---------------------------------------------------------------------------
  // All channels
  // ---------------------------------------------------------------------------

  /** The values of one channel in a mixed run. */
  function Own(run: seq<(Channel, real)>, key: Channel): seq<real> {
    if run == [] then []
    else
      var rest := Own(run[..|run| - 1], key);
      if run[|run| - 1].0 == key then rest + [run[|run| - 1].1] else rest
  }

  lemma OwnGrows(run: seq<(Channel, real)>, key: Channel, value: real, other: Channel)
    ensures Own(run + [(key, value)], other) == if other == key then Own(run, other) + [value] else Own(run, other)
  {
  }

  lemma AfterGrows(history: seq<real>, value: real, sqrt: real -> real)
    requires IsRoot(sqrt)
    ensures (After(history + [value], sqrt), Fires(history + [value], sqrt)) ==
            Detect(After(history, sqrt), value, sqrt)
  {
  }

  class Detector {
    var windows: map<Channel, seq<real>>
    var shifted: map<Channel, bool>
    ghost var run: seq<(Channel, real)>

    /** What a channel's entries stand for; a missing entry is created empty and STABLE on first use. */
    ghost function MachineOf(key: Channel): Machine
      reads this
    {
      Machine(if key in windows then windows[key] else [], if key in shifted then shifted[key] else false)
    }

    ghost predicate Valid(sqrt: real -> real)
      requires IsRoot(sqrt)
      reads this
    {
      forall key: Channel :: MachineOf(key) == After(Own(run, key), sqrt)
    }

    constructor (sqrt: real -> real)
      requires IsRoot(sqrt)
      ensures Valid(sqrt) && run == []
    {
      windows, shifted, run := map[], map[], [];
    }

    /** One sample: only its own channel's machine moves. */
    method Feed(key: Channel, value: real, sqrt: real -> real) returns (changePoint: bool)
      requires IsRoot(sqrt) && |MachineOf(key).window| <= CP_WINDOW
      modifies this`windows, this`shifted
      ensures (MachineOf(key), changePoint) == Detect(old(MachineOf(key)), value, sqrt)
      ensures forall other: Channel | other != key :: MachineOf(other) == old(MachineOf(other))
    {
      var window := Slide(if key in windows then windows[key] else [], value, CP_WINDOW);
      windows := windows[key := window];
      if |window| < CP_WINDOW {
        return false;
      }
      var change := Changed(window, sqrt);
      var state := if key in shifted then shifted[key] else false;
      changePoint := false;
      if !state && change {
        shifted := shifted[key := true];
        changePoint := true;
      } else if state && !change {
        shifted := shifted[key := false];
      }
    }

    /** Fires iff the channel's own values have just passed the test, whatever the other channels do. */
    method DetectChangePoint(key: Channel, value: real, sqrt: real -> real) returns (changePoint: bool)
      requires IsRoot(sqrt) && Valid(sqrt)
      modifies this
      ensures Valid(sqrt) && run == old(run) + [(key, value)]
      ensures changePoint == Fires(Own(run, key), sqrt)
    {
      ghost var before := run;
      assert MachineOf(key) == After(Own(run, key), sqrt);
      changePoint := Feed(key, value, sqrt);
      run := run + [(key, value)];
      AfterGrows(Own(before, key), value, sqrt);
      forall other: Channel ensures MachineOf(other) == After(Own(run, other), sqrt) {
        OwnGrows(before, key, value, other);
      }
    }
  }
}
