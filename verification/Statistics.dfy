/** Mean and population variance over exact reals, as numpy's mean() and std() use them. */
module Statistics {

  function Sum(w: seq<real>): real {
    if w == [] then 0.0 else Sum(w[..|w| - 1]) + w[|w| - 1]
  }

  /** Sum of squared deviations from `m`. */
  function SquaredDeviations(w: seq<real>, m: real): real {
    if w == [] then 0.0 else SquaredDeviations(w[..|w| - 1], m) + (w[|w| - 1] - m) * (w[|w| - 1] - m)
  }

  function Mean(w: seq<real>): real
    requires w != []
  {
    Sum(w) / (|w| as real)
  }

  function Variance(w: seq<real>): real
    requires w != []
  {
    SquaredDeviations(w, Mean(w)) / (|w| as real)
  }

  function Abs(x: real): real { if x < 0.0 then -x else x }

  /** The square root is a parameter: any function with the defining property of the root. */
  ghost predicate IsRoot(sqrt: real -> real) {
    forall x | x >= 0.0 :: sqrt(x) >= 0.0 && sqrt(x) * sqrt(x) == x
  }

  /** A bounded deque: the newest `max` values, oldest first. */
  function Slide(w: seq<real>, value: real, max: nat): seq<real>
    requires max > 0
  {
    if |w| < max then w + [value] else w[|w| - max + 1..] + [value]
  }

  // ---------------------------------------------------------------------------
  // Sums
  // ---------------------------------------------------------------------------

  lemma {:induction false} SumAppend(v: seq<real>, w: seq<real>)
    ensures Sum(v + w) == Sum(v) + Sum(w)
  {
    if w == [] {
      assert v + w == v;
    } else {
      SumAppend(v, w[..|w| - 1]);
      assert (v + w)[..|v + w| - 1] == v + w[..|w| - 1];
    }
  }

  lemma {:induction false} SquaredAppend(v: seq<real>, w: seq<real>, m: real)
    ensures SquaredDeviations(v + w, m) == SquaredDeviations(v, m) + SquaredDeviations(w, m)
  {
    if w == [] {
      assert v + w == v;
    } else {
      SquaredAppend(v, w[..|w| - 1], m);
      assert (v + w)[..|v + w| - 1] == v + w[..|w| - 1];
    }
  }

  lemma SquaredNonNegative(w: seq<real>, m: real)
    ensures SquaredDeviations(w, m) >= 0.0
  {
  }

  // ---------------------------------------------------------------------------
  // Translation and negation
  // ---------------------------------------------------------------------------

  function Shift(w: seq<real>, c: real): seq<real> {
    seq(|w|, i requires 0 <= i < |w| => w[i] + c)
  }

  function Negate(w: seq<real>): seq<real> {
    seq(|w|, i requires 0 <= i < |w| => -w[i])
  }

  lemma Distribute(c: real, n: real)
    ensures c * (n + 1.0) == c * n + c && (n + 1.0) * c == n * c + c
  {
  }

  function Times(c: real, n: nat): real {
    if n == 0 then 0.0 else Times(c, n - 1) + c
  }

  lemma {:induction false} TimesIsProduct(c: real, n: nat)
    ensures Times(c, n) == c * (n as real)
  {
    if n > 0 {
      TimesIsProduct(c, n - 1);
      Distribute(c, (n - 1) as real);
    }
  }

  lemma ShiftInit(w: seq<real>, c: real)
    requires w != []
    ensures Shift(w, c)[..|w| - 1] == Shift(w[..|w| - 1], c) && Shift(w, c)[|w| - 1] == w[|w| - 1] + c
  {
  }

  lemma {:induction false} SumShift(w: seq<real>, c: real)
    ensures Sum(Shift(w, c)) == Sum(w) + Times(c, |w|)
  {
    if w != [] {
      ShiftInit(w, c);
      SumShift(w[..|w| - 1], c);
    }
  }

  lemma {:induction false} SquaredShift(w: seq<real>, m: real, c: real)
    ensures SquaredDeviations(Shift(w, c), m + c) == SquaredDeviations(w, m)
  {
    if w != [] {
      ShiftInit(w, c);
      SquaredShift(w[..|w| - 1], m, c);
    }
  }

  lemma QuotientOfSum(x: real, c: real, n: real)
    requires n > 0.0
    ensures (x + c * n) / n == x / n + c
  {
  }

  lemma ShiftMovesMeanOnly(w: seq<real>, c: real)
    requires w != []
    ensures Mean(Shift(w, c)) == Mean(w) + c && Variance(Shift(w, c)) == Variance(w)
  {
    SumShift(w, c);
    TimesIsProduct(c, |w|);
    QuotientOfSum(Sum(w), c, |w| as real);
    SquaredShift(w, Mean(w), c);
  }

  lemma NegateInit(w: seq<real>)
    requires w != []
    ensures Negate(w)[..|w| - 1] == Negate(w[..|w| - 1]) && Negate(w)[|w| - 1] == -w[|w| - 1]
  {
  }

  lemma {:induction false} SumNegate(w: seq<real>)
    ensures Sum(Negate(w)) == -Sum(w)
  {
    if w != [] {
      NegateInit(w);
      SumNegate(w[..|w| - 1]);
    }
  }

  lemma {:induction false} SquaredNegate(w: seq<real>, m: real)
    ensures SquaredDeviations(Negate(w), -m) == SquaredDeviations(w, m)
  {
    if w != [] {
      NegateInit(w);
      SquaredNegate(w[..|w| - 1], m);
    }
  }

  lemma NegationFlipsMeanOnly(w: seq<real>)
    requires w != []
    ensures Mean(Negate(w)) == -Mean(w) && Variance(Negate(w)) == Variance(w)
  {
    SumNegate(w);
    assert -Sum(w) / (|w| as real) == -(Sum(w) / (|w| as real));
    SquaredNegate(w, Mean(w));
  }

  // ---------------------------------------------------------------------------
  // Samuelson's inequality
  // ---------------------------------------------------------------------------

  /** One step of the Cauchy-Schwarz induction: a is a sum of n deviations, q of their squares. */
  lemma CauchyStep(n: real, a: real, q: real, y: real)
    requires n >= 1.0 && a * a <= n * q
    ensures (a + y) * (a + y) <= (n + 1.0) * (q + y * y)
  {
    var gap := q + n * (y * y) - 2.0 * (a * y);
    assert n * gap == n * q + (n * y) * (n * y) - 2.0 * (a * (n * y));
    var s := a - n * y;
    assert s * s == a * a + (n * y) * (n * y) - 2.0 * (a * (n * y));
    assert n * gap >= 0.0;
    assert gap >= 0.0;
    assert (a + y) * (a + y) == a * a + 2.0 * (a * y) + y * y;
    assert (n + 1.0) * (q + y * y) == n * q + q + n * (y * y) + y * y;
  }

  /** The last of n values, with sum s and squared deviations q from m, put back. */
  lemma CauchyNext(n: real, s: real, m: real, q: real, x: real, y: real, a: real)
    requires n >= 2.0 && y == x - m && a == s - x - (n - 1.0) * m
    requires a * a <= (n - 1.0) * (q - y * y)
    ensures (s - n * m) * (s - n * m) <= n * q
  {
    CauchyStep(n - 1.0, a, q - y * y, y);
    assert (n - 1.0) * m == n * m - m;
    assert s - n * m == a + y;
  }

  /** The square of the summed deviations is at most n times the sum of their squares. */
  lemma {:induction false} Cauchy(w: seq<real>, m: real, n: real, s: real, q: real)
    requires n == |w| as real && s == Sum(w) && q == SquaredDeviations(w, m)
    ensures (s - n * m) * (s - n * m) <= n * q
  {
    if |w| == 1 {
      Single(w[0], m);
      assert w == [w[0]];
      assert s - n * m == w[0] - m;
    } else if w != [] {
      var x, y := w[|w| - 1], w[|w| - 1] - m;
      Cauchy(w[..|w| - 1], m, n - 1.0, s - x, q - y * y);
      CauchyNext(n, s, m, q, x, y, s - x - (n - 1.0) * m);
    }
  }

  function Remove(w: seq<real>, k: nat): seq<real>
    requires k < |w|
  {
    w[..k] + w[k + 1..]
  }

  lemma RemoveOne(w: seq<real>, k: nat, m: real)
    requires k < |w|
    ensures Sum(Remove(w, k)) == Sum(w) - w[k]
    ensures SquaredDeviations(Remove(w, k), m) == SquaredDeviations(w, m) - (w[k] - m) * (w[k] - m)
  {
    assert w == (w[..k] + [w[k]]) + w[k + 1..];
    Single(w[k], m);
    SumAppend(w[..k] + [w[k]], w[k + 1..]);
    SumAppend(w[..k], [w[k]]);
    SumAppend(w[..k], w[k + 1..]);
    SquaredAppend(w[..k] + [w[k]], w[k + 1..], m);
    SquaredAppend(w[..k], [w[k]], m);
    SquaredAppend(w[..k], w[k + 1..], m);
  }

  /** The algebra of Samuelson's inequality: Cauchy-Schwarz for all deviations but that of x. */
  lemma SamuelsonAlgebra(n: real, m: real, x: real, s: real, a: real, v: real)
    requires n >= 1.0 && v == s / n && a == m - x
    requires a * a <= (n - 1.0) * (s - (x - m) * (x - m))
    ensures (x - m) * (x - m) <= (n - 1.0) * v
  {
  }

  lemma CauchyWithout(w: seq<real>, k: nat, m: real, n: real, a: real, q: real)
    requires k < |w| && n == |w| as real - 1.0
    requires a == Sum(w) - w[k] - n * m && q == SquaredDeviations(w, m) - (w[k] - m) * (w[k] - m)
    ensures a * a <= n * q
  {
    RemoveOne(w, k, m);
    Cauchy(Remove(w, k), m, n, a + n * m, q);
  }

  /** No value lies further from the mean than sqrt(n - 1) population deviations. */
  lemma Samuelson(w: seq<real>, k: nat)
    requires k < |w|
    ensures (w[k] - Mean(w)) * (w[k] - Mean(w)) <= (|w| as real - 1.0) * Variance(w)
  {
    var n, m, s := |w| as real, Mean(w), SquaredDeviations(w, Mean(w));
    RestOfMean(n, m, Sum(w), w[k]);
    CauchyWithout(w, k, m, n - 1.0, m - w[k], s - (w[k] - m) * (w[k] - m));
    SamuelsonAlgebra(n, m, w[k], s, m - w[k], Variance(w));
  }

  lemma RestOfMean(n: real, m: real, total: real, x: real)
    requires n >= 1.0 && m == total / n
    ensures total - x - (n - 1.0) * m == m - x
  {
  }

  lemma Single(x: real, m: real)
    ensures Sum([x]) == x && SquaredDeviations([x], m) == (x - m) * (x - m)
  {
  }
}
