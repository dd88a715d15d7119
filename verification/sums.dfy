/** Left-to-right sums over sequences of reals: the accumulators
    (`sum += x`) the engines run in their loops; and the sign facts about
    products of reals the engines' arithmetic relies on. */
module Sums {

  /** The sum of `s`, accumulated from the first element to the last. */
  function Sum(s: seq<real>): (r: real)
    decreases |s|
  {
    if |s| == 0 then 0.0 else Sum(s[..|s| - 1]) + s[|s| - 1]
  }

  /** A sum of values none of which is negative is not negative. */
  lemma {:induction false} SumNonNegative(s: seq<real>)
    ensures (forall i :: 0 <= i < |s| ==> s[i] >= 0.0) ==> Sum(s) >= 0.0
    decreases |s|
  {
    if |s| > 0 {
      var init := s[..|s| - 1];
      SumNonNegative(init);
      assert forall i :: 0 <= i < |init| ==> init[i] == s[i];
    }
  }

  /** One more step of a running sum over a slice. */
  lemma SumExtend(s: seq<real>, lo: int, hi: int)
    requires 0 <= lo <= hi < |s|
    ensures Sum(s[lo..hi + 1]) == Sum(s[lo..hi]) + s[hi]
  {
    assert s[lo..hi + 1][..hi - lo] == s[lo..hi];
  }

  /** `k * x`, with the signs of the product spelled out. Proofs reason about
      products through these facts rather than through `*` itself. */
  function Scaled(k: real, x: real): (r: real)
    ensures r == k * x
    ensures k >= 0.0 && x >= 0.0 ==> r >= 0.0
    ensures k > 0.0 && x > 0.0 ==> r > 0.0
    ensures k == 0.0 || x == 0.0 ==> r == 0.0
  {
    k * x
  }

  /** One more copy of `c` adds `c`. */
  lemma ScaledStep(n: real, c: real)
    ensures Scaled(n, c) + c == Scaled(n + 1.0, c)
  {
  }

  /** `n` copies of `c`, divided by `n`, give back `c`. */
  lemma ScaledDivide(n: real, c: real)
    requires n != 0.0
    ensures Scaled(n, c) / n == c
  {
  }

  /** A sum of `|s|` copies of `c` is `|s| * c`. */
  lemma {:induction false} SumConstant(s: seq<real>, c: real)
    requires forall i :: 0 <= i < |s| ==> s[i] == c
    ensures Sum(s) == Scaled(|s| as real, c)
    decreases |s|
  {
    if |s| > 0 {
      SumConstant(s[..|s| - 1], c);
      ScaledStep((|s| - 1) as real, c);
    }
  }

  /** The mean of a run of copies of `c` is `c`. */
  lemma MeanOfConstant(s: seq<real>, c: real)
    requires |s| > 0
    requires forall i :: 0 <= i < |s| ==> s[i] == c
    ensures Sum(s) / |s| as real == c
  {
    SumConstant(s, c);
    ScaledDivide(|s| as real, c);
  }

  /** `a / b`, with the bounds of the quotient spelled out. */
  function Divided(a: real, b: real): (r: real)
    requires b != 0.0
    ensures r == a / b
    ensures a >= 0.0 && b > 0.0 ==> r >= 0.0
    ensures a > 0.0 && b >= 1.0 ==> 0.0 < r <= a
  {
    a / b
  }

  function Abs(x: real): (r: real)
    ensures r >= 0.0
    ensures r == 0.0 <==> x == 0.0
    ensures r == x || r == -x
  {
    if x < 0.0 then -x else x
  }

  /** `d * d`: never negative, and zero only for zero. */
  function Squared(d: real): (r: real)
    ensures r == d * d
    ensures r >= 0.0
    ensures r == 0.0 <==> d == 0.0
  {
    assert d * d == Scaled(Abs(d), Abs(d));
    d * d
  }
}
