/**
 * Arithmetic shared by the indicator and scoring modules: sums, means and
 * maxima over sequences of reals, numpy-style float division (which never
 * raises but yields inf or NaN), and the clamps the prediction model uses.
 */
module Numeric {

  /** Sum of a sequence, folded from the right end. */
  function Sum(xs: seq<real>): real
  {
    if |xs| == 0 then 0.0 else Sum(xs[..|xs| - 1]) + xs[|xs| - 1]
  }

  /** Arithmetic mean, as np.mean / pandas' mean over a non-empty window. */
  function Mean(xs: seq<real>): real
    requires |xs| > 0
  {
    Sum(xs) / (|xs| as real)
  }

  /** Largest element, as np.max. */
  function Max(xs: seq<real>): (m: real)
    requires |xs| > 0
    ensures forall i :: 0 <= i < |xs| ==> xs[i] <= m
    ensures exists i :: 0 <= i < |xs| && xs[i] == m
  {
    if |xs| == 1 then xs[0]
    else
      var m' := Max(xs[..|xs| - 1]);
      assert forall i :: 0 <= i < |xs| - 1 ==> xs[..|xs| - 1][i] == xs[i];
      if xs[|xs| - 1] > m' then xs[|xs| - 1] else m'
  }

  /** Smallest element. */
  function Min(xs: seq<real>): (m: real)
    requires |xs| > 0
    ensures forall i :: 0 <= i < |xs| ==> m <= xs[i]
    ensures exists i :: 0 <= i < |xs| && xs[i] == m
  {
    if |xs| == 1 then xs[0]
    else
      var m' := Min(xs[..|xs| - 1]);
      assert forall i :: 0 <= i < |xs| - 1 ==> xs[..|xs| - 1][i] == xs[i];
      if xs[|xs| - 1] < m' then xs[|xs| - 1] else m'
  }

  predicate AllWithin(xs: seq<real>, lo: real, hi: real)
  {
    forall i :: 0 <= i < |xs| ==> lo <= xs[i] <= hi
  }

  predicate AllEqual(xs: seq<real>, c: real)
  {
    forall i :: 0 <= i < |xs| ==> xs[i] == c
  }

  /** A sum of values in [lo, hi] lies in [lo * n, hi * n]. */
  lemma {:induction false} SumWithin(xs: seq<real>, lo: real, hi: real)
    requires AllWithin(xs, lo, hi)
    ensures lo * (|xs| as real) <= Sum(xs) <= hi * (|xs| as real)
  {
    if |xs| > 0 {
      var init := xs[..|xs| - 1];
      var n, s, x := |init| as real, Sum(init), xs[|xs| - 1];
      assert lo * n <= s <= hi * n by {
        assert AllWithin(init, lo, hi) by {
          forall i | 0 <= i < |init| ensures lo <= init[i] <= hi {
            assert init[i] == xs[i];
          }
        }
        SumWithin(init, lo, hi);
      }
      assert lo <= x <= hi;
      assert Sum(xs) == s + x;
      SumStep(s, x, n, lo, hi, Sum(xs), |xs| as real);
    }
  }

  lemma SumStep(s: real, x: real, n: real, lo: real, hi: real, total: real, m: real)
    requires lo * n <= s <= hi * n && lo <= x <= hi
    requires total == s + x && m == n + 1.0
    ensures lo * m <= total <= hi * m
  {
    assert lo * m == lo * n + lo;
    assert hi * m == hi * n + hi;
  }

  /** Sums distribute over concatenation. */
  lemma {:induction false} SumConcat(xs: seq<real>, ys: seq<real>)
    ensures Sum(xs + ys) == Sum(xs) + Sum(ys)
  {
    if |ys| > 0 {
      var zs := xs + ys;
      assert zs[..|zs| - 1] == xs + ys[..|ys| - 1];
      SumConcat(xs, ys[..|ys| - 1]);
    } else {
      assert xs + ys == xs;
    }
  }

  /** A mean lies between any bounds of its window. */
  lemma MeanWithin(xs: seq<real>, lo: real, hi: real)
    requires |xs| > 0 && AllWithin(xs, lo, hi)
    ensures lo <= Mean(xs) <= hi
  {
    SumWithin(xs, lo, hi);
    var n := |xs| as real;
    assert Mean(xs) * n == Sum(xs);
  }

  /** A mean lies between the minimum and the maximum of its window. */
  lemma MeanBetweenMinMax(xs: seq<real>)
    requires |xs| > 0
    ensures Min(xs) <= Mean(xs) <= Max(xs)
  {
    MeanWithin(xs, Min(xs), Max(xs));
  }

  /** The mean of a constant window is that constant. */
  lemma MeanOfConstant(xs: seq<real>, c: real)
    requires |xs| > 0 && AllEqual(xs, c)
    ensures Mean(xs) == c
  {
    MeanWithin(xs, c, c);
  }

  /** The result of a numpy float64 division or comparison operand. */
  datatype Float = Finite(value: real) | PosInf | NegInf | NaN

  /**
   * numpy float division: a zero denominator gives +inf, -inf or NaN
   * (0/0) with a runtime warning, never an exception.
   */
  function Divide(a: real, b: real): (q: Float)
    ensures b != 0.0 ==> q == Finite(a / b)
    ensures b != 0.0 ==> q.Finite? && q.value * b == a
    ensures b == 0.0 ==> (q == PosInf <==> a > 0.0) && (q == NegInf <==> a < 0.0) && (q == NaN <==> a == 0.0)
  {
    if b != 0.0 then Finite(a / b)
    else if a > 0.0 then PosInf
    else if a < 0.0 then NegInf
    else NaN
  }

  /** `q > c` for a float q and a finite c; every comparison with NaN is false. */
  predicate Above(q: Float, c: real)
  {
    match q
    case Finite(v) => v > c
    case PosInf => true
    case NegInf => false
    case NaN => false
  }

  /** Python's max(lo, min(hi, x)) on integers. */
  function ClampInt(x: int, lo: int, hi: int): (r: int)
    requires lo <= hi
    ensures lo <= r <= hi
    ensures lo <= x <= hi ==> r == x
    ensures x < lo ==> r == lo
    ensures x > hi ==> r == hi
  {
    if x < lo then lo else if x > hi then hi else x
  }

  /**
   * Python's max(lo, min(hi, x)) on reals, for the predicted change; the
   * integer version above serves the confidence score.
   */
  function ClampReal(x: real, lo: real, hi: real): (r: real)
    requires lo <= hi
    ensures lo <= r <= hi
    ensures lo <= x <= hi ==> r == x
    ensures x < lo ==> r == lo
    ensures x > hi ==> r == hi
  {
    if x < lo then lo else if x > hi then hi else x
  }
}
