/** The z-score axis. The current value is already in the window when it is checked. */
module ZScore {
  import opened Statistics

  const INFERENCE_WINDOW := 30
  const EPS := 0.000000001

  function ZScoreCheck(window: seq<real>, value: real, threshold: real, sqrt: real -> real): (bool, real)
    requires IsRoot(sqrt)
  {
    if |window| < INFERENCE_WINDOW then (false, 0.0)
    else
      SquaredNonNegative(window, Mean(window));
      var std := sqrt(Variance(window));
      var z := Abs(value - Mean(window)) / (std + EPS);
      (z >= threshold, z)
  }

  /** The check in one comparison: on a full window of 30, is the value so many deviations away from the mean? */
  lemma ScoreMeans(window: seq<real>, value: real, threshold: real, sqrt: real -> real)
    requires IsRoot(sqrt)
    ensures ZScoreCheck(window, value, threshold, sqrt).0 <==>
            && |window| >= 30
            && var std := sqrt(Variance(window)) + 0.000000001;
               (value - Mean(window) >= threshold * std || Mean(window) - value >= threshold * std)
    ensures |window| < 30 ==> ZScoreCheck(window, value, threshold, sqrt).1 == 0.0
  {
    if |window| >= 30 {
      SquaredNonNegative(window, Mean(window));
      var std := sqrt(Variance(window)) + EPS;
      var z := Abs(value - Mean(window)) / std;
      assert z * std == Abs(value - Mean(window));
      AtLeastScaled(z, threshold, std);
      if threshold * std <= 0.0 { assert Abs(value - Mean(window)) >= 0.0; }
    }
  }

  lemma AtLeastScaled(x: real, y: real, c: real)
    requires c > 0.0
    ensures x >= y <==> x * c >= y * c
  {
  }

  lemma SquaresKeepOrder(x: real, y: real)
    requires 0.0 <= x && 0.0 <= y
    ensures x <= y <==> x * x <= y * y
  {
    if x <= y {
      assert (y - x) * x >= 0.0 && (y - x) * y >= 0.0;
    } else {
      assert (x - y) * x > 0.0 && (x - y) * y >= 0.0;
    }
  }

  lemma Scale(x: real, y: real, c: real)
    requires c > 0.0
    ensures x < y <==> x * c < y * c
  {
  }

  lemma QuotientBound(d: real, std: real, v: real, n: real, z: real)
    requires std >= 0.0 && std * std == v && n > 1.0 && d >= 0.0
    requires d * d <= (n - 1.0) * v && z == d / (std + EPS)
    ensures 0.0 <= z && z * z < n - 1.0
  {
    var e := std + EPS;
    assert z * e == d;
    Product(z, e);
    SquaresKeepOrder(e, std);
    Scale(v, e * e, n - 1.0);
    Scale(z * z, n - 1.0, e * e);
  }

  lemma Product(z: real, e: real)
    ensures (z * e) * (z * e) == (z * z) * (e * e)
  {
  }

  lemma AbsSquare(x: real)
    ensures Abs(x) * Abs(x) == x * x && Abs(x) >= 0.0
  {
  }

  lemma DeviationIsBounded(window: seq<real>, k: nat, std: real, z: real)
    requires |window| >= INFERENCE_WINDOW && k < |window| && std >= 0.0 && std * std == Variance(window)
    requires z == Abs(window[k] - Mean(window)) / (std + EPS)
    ensures 0.0 <= z && z * z < |window| as real - 1.0
  {
    var x := window[k] - Mean(window);
    Samuelson(window, k);
    AbsSquare(x);
    QuotientBound(Abs(x), std, Variance(window), |window| as real, z);
  }

  /** The score of a value of the window stays below sqrt(n - 1), however extreme the value is. */
  lemma ZScoreIsBounded(window: seq<real>, k: nat, threshold: real, sqrt: real -> real)
    requires IsRoot(sqrt) && k < |window|
    ensures var z := ZScoreCheck(window, window[k], threshold, sqrt).1;
            0.0 <= z && (|window| >= INFERENCE_WINDOW ==> z * z < |window| as real - 1.0)
  {
    if |window| >= INFERENCE_WINDOW {
      SquaredNonNegative(window, Mean(window));
      var std := sqrt(Variance(window));
      DeviationIsBounded(window, k, std, Abs(window[k] - Mean(window)) / (std + EPS));
    }
  }

  // ---------------------------------------------------------------------------
  // Which thresholds can fire at all
  // ---------------------------------------------------------------------------

  function Zeros(n: nat): (w: seq<real>)
    ensures |w| == n
  {
    if n == 0 then [] else Zeros(n - 1) + [0.0]
  }

  lemma {:induction false} ZerosSums(n: nat, m: real)
    ensures Sum(Zeros(n)) == 0.0
    ensures SquaredDeviations(Zeros(n), m) == Times(m * m, n)
  {
    if n > 0 {
      ZerosSums(n - 1, m);
      assert Zeros(n)[..n - 1] == Zeros(n - 1);
    }
  }

  /** A quiet window with one outlier: Samuelson's inequality holds with equality. */
  function Spike(c: real): seq<real> { Zeros(29) + [30.0 * c] }

  lemma SpikeStatistics(c: real)
    ensures |Spike(c)| == 30 && Spike(c)[29] == 30.0 * c
    ensures Mean(Spike(c)) == c && Variance(Spike(c)) == 29.0 * (c * c)
  {
    ZerosSums(29, c);
    SumAppend(Zeros(29), [30.0 * c]);
    Single(30.0 * c, c);
    SquaredAppend(Zeros(29), [30.0 * c], c);
    TimesIsProduct(c * c, 29);
    assert (30.0 * c - c) * (30.0 * c - c) == 841.0 * (c * c);
  }

  lemma RootOfProduct(x: real, y: real, c: real)
    requires x >= 0.0 && y >= 0.0 && c >= 0.0 && x * x == 29.0 * (c * c) && y * y == 29.0
    ensures x == c * y
  {
    Product(c, y);
    SquaresKeepOrder(x, c * y);
    SquaresKeepOrder(c * y, x);
  }

  lemma SpikeScore(t: real, c: real, r: real, std: real)
    requires c >= 0.0 && r > 0.0 && r * r == 29.0 && std == c * r
    requires c * (r * (r - t)) >= t * EPS
    ensures 29.0 * c / (std + EPS) >= t
  {
  }

  lemma SpikeHeight(t: real, r: real) returns (c: real)
    requires t >= 0.0 && r > t
    ensures c >= 0.0 && c * (r * (r - t)) == t * EPS
  {
    var g := r * (r - t);
    assert g > 0.0;
    c := t * EPS / g;
  }

  lemma SpikeFires(t: real, sqrt: real -> real)
    requires IsRoot(sqrt) && t >= 0.0 && t * t < 29.0
    ensures exists w: seq<real> :: |w| == INFERENCE_WINDOW && ZScoreCheck(w, w[29], t, sqrt).0
  {
    var r := sqrt(29.0);
    SquaresKeepOrder(r, t);
    var c := SpikeHeight(t, r);
    SpikeStatistics(c);
    assert c * c >= 0.0;
    RootOfProduct(sqrt(29.0 * (c * c)), r, c);
    SpikeScore(t, c, r, sqrt(29.0 * (c * c)));
    SpikeCheck(c, t, sqrt);
  }

  lemma SpikeCheck(c: real, t: real, sqrt: real -> real)
    requires IsRoot(sqrt) && c >= 0.0 && c * c >= 0.0
    ensures ZScoreCheck(Spike(c), Spike(c)[29], t, sqrt).0 <==> 29.0 * c / (sqrt(29.0 * (c * c)) + EPS) >= t
  {
    SpikeStatistics(c);
    assert Abs(30.0 * c - c) == 29.0 * c;
  }

  lemma NeverFires(w: seq<real>, t: real, sqrt: real -> real)
    requires IsRoot(sqrt) && t >= 0.0 && t * t >= 29.0 && |w| == INFERENCE_WINDOW
    ensures !ZScoreCheck(w, w[29], t, sqrt).0
  {
    var (fires, z) := ZScoreCheck(w, w[29], t, sqrt);
    ZScoreIsBounded(w, 29, t, sqrt);
    assert z * z < |w| as real - 1.0;
    assert |w| as real == 30.0;
    SquaresKeepOrder(t, z);
    assert fires == (z >= t);
  }

  /** On a full window a threshold can be reached by some value of the window iff its square is below 29. */
  lemma ThresholdCanFireIff(t: real, sqrt: real -> real)
    requires IsRoot(sqrt) && t >= 0.0
    ensures t * t < 29.0 <==>
            exists w: seq<real> :: |w| == INFERENCE_WINDOW && ZScoreCheck(w, w[29], t, sqrt).0
  {
    if t * t < 29.0 {
      SpikeFires(t, sqrt);
    } else {
      forall w: seq<real> | |w| == INFERENCE_WINDOW ensures !ZScoreCheck(w, w[29], t, sqrt).0 {
        NeverFires(w, t, sqrt);
      }
    }
  }
}
