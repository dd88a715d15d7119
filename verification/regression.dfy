/** The least-squares slope the accumulation detector fits to the last
    `n` accumulation/distribution values, with time running 0, 1, ..., n-1.
    The time sums are sums of small integers, so they are exact; the
    denominator n*sum(t^2) - sum(t)^2 is positive for n >= 2, and the slope
    of values lying on a line is the slope of that line. */
module Regression {
  import opened Sums

  /** 0 + 1 + ... + (n-1). */
  function TimeSum(n: nat): int {
    if n == 0 then 0 else TimeSum(n - 1) + (n - 1)
  }

  /** 0^2 + 1^2 + ... + (n-1)^2. */
  function TimeSquareSum(n: nat): int {
    if n == 0 then 0 else TimeSquareSum(n - 1) + (n - 1) * (n - 1)
  }

  /** 0*ys[0] + 1*ys[1] + ... : the values weighted by their time. */
  function Weighted(ys: seq<real>): real
    decreases |ys|
  {
    if |ys| == 0 then 0.0 else Weighted(ys[..|ys| - 1]) + Scaled(ys[|ys| - 1], (|ys| - 1) as real)
  }

  /** The regression denominator over integers. */
  function Spread(n: nat): int {
    n * TimeSquareSum(n) - TimeSum(n) * TimeSum(n)
  }

  lemma {:induction false} TimeSumClosed(n: nat)
    ensures 2 * TimeSum(n) == n * (n - 1)
  {
    if n > 0 {
      TimeSumClosed(n - 1);
    }
  }

  /** One more time step widens the spread by sum(t^2) + n^2. */
  lemma SpreadStep(n: nat)
    ensures Spread(n + 1) == Spread(n) + TimeSquareSum(n) + n * n
  {
    TimeSumClosed(n);
    assert TimeSum(n + 1) == TimeSum(n) + n;
    assert TimeSquareSum(n + 1) == TimeSquareSum(n) + n * n;
  }

  /** Two or more distinct times spread: the denominator never vanishes. */
  lemma {:induction false} SpreadPositive(n: nat)
    requires n >= 2
    ensures Spread(n) > 0
  {
    if n == 2 {
      assert TimeSum(2) == 1 && TimeSquareSum(2) == 1;
    } else {
      SpreadPositive(n - 1);
      SpreadStep(n - 1);
      SquareSumNonNegative(n - 1);
    }
  }

  lemma {:induction false} SquareSumNonNegative(n: nat)
    ensures TimeSquareSum(n) >= 0
  {
    if n > 0 {
      SquareSumNonNegative(n - 1);
    }
  }

  lemma ToRealProduct(x: int, y: int)
    ensures (x * y) as real == x as real * y as real
  {
  }

  /** The regression denominator over reals. */
  function Denominator(n: real, t: real, q: real): real {
    n * q - t * t
  }

  /** The real-valued denominator the slope divides by equals the spread. */
  lemma RealSpread(n: nat)
    ensures Denominator(n as real, TimeSum(n) as real, TimeSquareSum(n) as real) == Spread(n) as real
  {
    RealDifference(n, TimeSum(n), TimeSquareSum(n));
  }

  lemma RealDifference(n: int, t: int, q: int)
    ensures Denominator(n as real, t as real, q as real) == (n * q - t * t) as real
  {
    ToRealProduct(n, q);
    ToRealProduct(t, t);
  }

  lemma SpreadNonZero(n: nat)
    requires n >= 2
    ensures Denominator(n as real, TimeSum(n) as real, TimeSquareSum(n) as real) != 0.0
  {
    SpreadPositive(n);
    RealSpread(n);
  }

  /** The four running sums of the regression loop: the values, the
      times, the values weighted by their time, and the squared times. */
  datatype Fit = Fit(sum: real, timeSum: real, weighted: real, timeSquareSum: real)

  /** The regression loop from the point at time `i` on, followed by the
      slope formula once every point has been added. */
  function SlopeFrom(ys: seq<real>, i: nat, f: Fit): real
    requires 2 <= |ys| && i <= |ys|
    requires f.timeSum == TimeSum(i) as real && f.timeSquareSum == TimeSquareSum(i) as real
    decreases |ys| - i
  {
    if i == |ys| then
      SpreadNonZero(|ys|);
      SlopeOf(|ys| as real, f.timeSum, f.timeSquareSum, f.weighted, f.sum)
    else
      SlopeFrom(ys, i + 1, Fit(f.sum + ys[i], f.timeSum + i as real,
                               f.weighted + Scaled(ys[i], i as real), f.timeSquareSum + Scaled(i as real, i as real)))
  }

  /** The least-squares slope of `ys` against time 0, 1, ..., |ys| - 1, as
      the regression loop computes it from empty sums. */
  function Slope(ys: seq<real>): real
    requires |ys| >= 2
  {
    SlopeFrom(ys, 0, Fit(0.0, 0.0, 0.0, 0.0))
  }

  /** The sums after the first `i` points, in closed form. */
  function FitOf(ys: seq<real>, i: nat): (f: Fit)
    requires i <= |ys|
    ensures f.timeSum == TimeSum(i) as real && f.timeSquareSum == TimeSquareSum(i) as real
  {
    Fit(Sum(ys[..i]), TimeSum(i) as real, Weighted(ys[..i]), TimeSquareSum(i) as real)
  }

  /** One turn of the loop turns the closed-form sums of `i` points into
      those of `i + 1` points. */
  lemma FitStep(ys: seq<real>, i: nat)
    requires i < |ys|
    ensures var f := FitOf(ys, i);
            FitOf(ys, i + 1) ==
            Fit(f.sum + ys[i], f.timeSum + i as real, f.weighted + Scaled(ys[i], i as real), f.timeSquareSum + Scaled(i as real, i as real))
  {
    SumExtend(ys, 0, i);
    assert ys[0..i + 1] == ys[..i + 1] && ys[0..i] == ys[..i];
    assert ys[..i + 1][..i] == ys[..i];
    ToRealProduct(i, i);
  }

  /** The least-squares slope in closed form: the slope formula applied to
      the sums over all the points. */
  function ClosedFormSlope(ys: seq<real>): real
    requires |ys| >= 2
  {
    SpreadNonZero(|ys|);
    SlopeOf(|ys| as real, TimeSum(|ys|) as real, TimeSquareSum(|ys|) as real, Weighted(ys), Sum(ys))
  }

  /** From the closed-form sums of the first `i` points, the loop arrives at
      the closed-form slope. */
  lemma {:induction false} SlopeFromClosed(ys: seq<real>, i: nat)
    requires 2 <= |ys| && i <= |ys|
    ensures SlopeFrom(ys, i, FitOf(ys, i)) == ClosedFormSlope(ys)
    decreases |ys| - i
  {
    if i == |ys| {
      assert ys[..i] == ys;
      SpreadNonZero(|ys|);
    } else {
      FitStep(ys, i);
      SlopeFromClosed(ys, i + 1);
    }
  }

  /** The loop computes the closed-form least-squares slope. */
  lemma SlopeIsClosedForm(ys: seq<real>)
    requires |ys| >= 2
    ensures Slope(ys) == ClosedFormSlope(ys)
  {
    assert ys[..0] == [];
    SlopeFromClosed(ys, 0);
  }

  /** The values lie on the line `a + b*t`. */
  predicate OnLine(ys: seq<real>, a: real, b: real) {
    forall i :: 0 <= i < |ys| ==> ys[i] == a + b * i as real
  }

  /** A prefix of values on a line lies on the same line. */
  lemma OnLinePrefix(ys: seq<real>, a: real, b: real, n: nat)
    requires OnLine(ys, a, b)
    requires n <= |ys|
    ensures OnLine(ys[..n], a, b)
  {
    forall i | 0 <= i < n
      ensures ys[..n][i] == a + b * i as real
    {
      assert ys[..n][i] == ys[i];
    }
  }

  /** Adding the point at time `n` to the sum of the points before it. */
  lemma SumStep(sum: real, y: real, n: nat, a: real, b: real, t: int, t1: int)
    requires sum == Scaled(n as real, a) + Scaled(b, t as real)
    requires y == a + b * n as real
    requires t1 == t + n
    ensures sum + y == Scaled((n + 1) as real, a) + Scaled(b, t1 as real)
  {
  }

  /** Adding the weighted point at time `n` to the weighted sum before it. */
  lemma WeightedStep(weighted: real, y: real, n: nat, a: real, b: real, t: int, q: int, t1: int, q1: int)
    requires weighted == Scaled(a, t as real) + Scaled(b, q as real)
    requires y == a + b * n as real
    requires t1 == t + n && q1 == q + n * n
    ensures weighted + Scaled(y, n as real) == Scaled(a, t1 as real) + Scaled(b, q1 as real)
  {
    ToRealProduct(n, n);
  }

  /** The sum of values on a line. */
  lemma {:induction false} SumOnLine(ys: seq<real>, a: real, b: real)
    requires OnLine(ys, a, b)
    ensures Sum(ys) == Scaled(|ys| as real, a) + Scaled(b, TimeSum(|ys|) as real)
    decreases |ys|
  {
    if |ys| > 0 {
      var n := |ys| - 1;
      OnLinePrefix(ys, a, b, n);
      SumOnLine(ys[..n], a, b);
      SumStep(Sum(ys[..n]), ys[n], n, a, b, TimeSum(n), TimeSum(|ys|));
    }
  }

  /** The time-weighted sum of values on a line. */
  lemma {:induction false} WeightedOnLine(ys: seq<real>, a: real, b: real)
    requires OnLine(ys, a, b)
    ensures Weighted(ys) == Scaled(a, TimeSum(|ys|) as real) + Scaled(b, TimeSquareSum(|ys|) as real)
    decreases |ys|
  {
    if |ys| > 0 {
      var n := |ys| - 1;
      OnLinePrefix(ys, a, b, n);
      WeightedOnLine(ys[..n], a, b);
      WeightedStep(Weighted(ys[..n]), ys[n], n, a, b, TimeSum(n), TimeSquareSum(n), TimeSum(|ys|), TimeSquareSum(|ys|));
    }
  }

  /** The least-squares slope from the four sums the fit accumulates. */
  function SlopeOf(n: real, t: real, q: real, weighted: real, sum: real): real
    requires Denominator(n, t, q) != 0.0
  {
    (n * weighted - t * sum) / Denominator(n, t, q)
  }

  lemma SlopeAlgebra(n: real, t: real, q: real, a: real, b: real, weighted: real, sum: real)
    requires Denominator(n, t, q) != 0.0
    requires weighted == Scaled(a, t) + Scaled(b, q)
    requires sum == Scaled(n, a) + Scaled(b, t)
    ensures SlopeOf(n, t, q, weighted, sum) == b
  {
    var d := n * q - t * t;
    assert n * weighted - t * sum == b * d;
    assert (b * d) / d == b;
  }

  /** Values on the line `a + b*t` have slope exactly `b`. */
  lemma SlopeOfLine(ys: seq<real>, a: real, b: real)
    requires |ys| >= 2
    requires OnLine(ys, a, b)
    ensures Slope(ys) == b
  {
    SlopeIsClosedForm(ys);
    SumOnLine(ys, a, b);
    WeightedOnLine(ys, a, b);
    SpreadNonZero(|ys|);
    SlopeAlgebra(|ys| as real, TimeSum(|ys|) as real, TimeSquareSum(|ys|) as real, a, b, Weighted(ys), Sum(ys));
  }
}
