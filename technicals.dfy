/**
 * The indicator library of utils/technicals.py: RSI over simple rolling
 * means of gains and losses, MACD from pandas' adjusted exponentially
 * weighted means, and the rolling simple moving average. Every indicator
 * is an elementwise transform of a price sequence into a sequence of the
 * same length.
 */
module Technicals {
  import opened Numeric

  /** Default RSI look-back (`period=14`). */
  const RsiPeriod: nat := 14
  /** Stand-in for a zero average loss (`np.where(avg_loss==0, 1e-10, avg_loss)`). */
  const LossFloor: real := 0.0000000001

  const FastSpan: nat := 12
  const SlowSpan: nat := 26
  const SignalSpan: nat := 9

  // ---------------------------------------------------------------------
  // Rolling simple mean with min_periods=1
  // ---------------------------------------------------------------------

  /** First index of the window that ends at i: max(0, i - w + 1). */
  function WindowStart(i: nat, w: nat): nat
    requires w >= 1
  {
    if i + 1 >= w then i + 1 - w else 0
  }

  /** The at most w values ending at index i. */
  function Window(xs: seq<real>, w: nat, i: nat): seq<real>
    requires w >= 1 && i < |xs|
  {
    xs[WindowStart(i, w)..i + 1]
  }

  /**
   * `pd.Series(xs).rolling(w, min_periods=1).mean()`: element i averages
   * the values of the window ending at i, however short it is.
   */
  function RollingMean(xs: seq<real>, w: nat): (r: seq<real>)
    requires w >= 1
    ensures |r| == |xs|
  {
    seq(|xs|, i requires 0 <= i < |xs| => Mean(Window(xs, w, i)))
  }

  /** `calculate_smoothed_ma(prices, window)`. */
  function SmoothedMa(prices: seq<real>, window: nat): seq<real>
    requires window >= 1
  {
    RollingMean(prices, window)
  }

  lemma SmoothedMaFirst(prices: seq<real>, window: nat)
    requires window >= 1 && |prices| > 0
    ensures |SmoothedMa(prices, window)| == |prices|
    ensures SmoothedMa(prices, window)[0] == prices[0]
  {
    var win := Window(prices, window, 0);
    assert win == [prices[0]];
    MeanOfConstant(win, prices[0]);
  }

  /** Each smoothed value lies between the least and the greatest value of its window. */
  lemma SmoothedMaWithinWindow(prices: seq<real>, window: nat, i: nat)
    requires window >= 1 && i < |prices|
    ensures var win := prices[(if i + 1 >= window then i + 1 - window else 0)..i + 1];
      Min(win) <= SmoothedMa(prices, window)[i] <= Max(win)
  {
    MeanBetweenMinMax(Window(prices, window, i));
  }

  /** Rolling means keep any bounds of their input. */
  lemma RollingMeanWithin(xs: seq<real>, w: nat, lo: real, hi: real)
    requires w >= 1 && AllWithin(xs, lo, hi)
    ensures AllWithin(RollingMean(xs, w), lo, hi)
  {
    forall i | 0 <= i < |xs| ensures lo <= RollingMean(xs, w)[i] <= hi {
      var win := Window(xs, w, i);
      assert AllWithin(win, lo, hi) by {
        forall k | 0 <= k < |win| ensures lo <= win[k] <= hi {
          assert win[k] == xs[WindowStart(i, w) + k];
        }
      }
      MeanWithin(win, lo, hi);
    }
  }

  /** A constant series has itself as its moving average. */
  lemma SmoothedMaOfConstant(prices: seq<real>, window: nat, c: real)
    requires window >= 1 && AllEqual(prices, c)
    ensures AllEqual(SmoothedMa(prices, window), c)
  {
    RollingMeanWithin(prices, window, c, c);
  }

  // ---------------------------------------------------------------------
  // RSI
  // ---------------------------------------------------------------------

  /** `np.diff(prices, prepend=prices[0])`: the first delta is zero. */
  function Delta(prices: seq<real>): (d: seq<real>)
    requires |prices| > 0
    ensures |d| == |prices|
  {
    seq(|prices|, i requires 0 <= i < |prices| => if i == 0 then 0.0 else prices[i] - prices[i - 1])
  }

  /** `np.where(delta > 0, delta, 0)`. */
  function Gains(d: seq<real>): (g: seq<real>)
    ensures |g| == |d|
  {
    seq(|d|, i requires 0 <= i < |d| => if d[i] > 0.0 then d[i] else 0.0)
  }

  /** `np.where(delta < 0, -delta, 0)`. */
  function Losses(d: seq<real>): (l: seq<real>)
    ensures |l| == |d|
  {
    seq(|d|, i requires 0 <= i < |d| => if d[i] < 0.0 then -d[i] else 0.0)
  }

  /** `100 - 100 / (1 + rs)` with rs = avg_gain / avg_loss and a zero loss floored. */
  function RsiFromAverages(avgGain: real, avgLoss: real): real
    requires avgGain >= 0.0 && avgLoss >= 0.0
  {
    var loss := if avgLoss == 0.0 then LossFloor else avgLoss;
    100.0 - 100.0 / (1.0 + avgGain / loss)
  }

  /** `calculate_rsi(prices)` with the default period 14. */
  function Rsi(prices: seq<real>): (r: seq<real>)
    requires |prices| > 0
    ensures |r| == |prices|
  {
    var d := Delta(prices);
    GainsLossesNonNegative(d);
    RollingMeanWithin(Gains(d), RsiPeriod, 0.0, Max([0.0] + d));
    RollingMeanWithin(Losses(d), RsiPeriod, 0.0, -Min([0.0] + d));
    var g := RollingMean(Gains(d), RsiPeriod);
    var l := RollingMean(Losses(d), RsiPeriod);
    seq(|prices|, i requires 0 <= i < |prices| => RsiFromAverages(g[i], l[i]))
  }

  lemma GainsLossesNonNegative(d: seq<real>)
    ensures AllWithin(Gains(d), 0.0, Max([0.0] + d))
    ensures AllWithin(Losses(d), 0.0, -Min([0.0] + d))
  {
    var e := [0.0] + d;
    forall i | 0 <= i < |d| ensures 0.0 <= Gains(d)[i] <= Max(e) && 0.0 <= Losses(d)[i] <= -Min(e) {
      assert e[i + 1] == d[i] && e[0] == 0.0;
    }
  }

  /** With non-negative averages the RSI formula lands in [0, 100). */
  lemma RsiFromAveragesRange(avgGain: real, avgLoss: real)
    requires avgGain >= 0.0 && avgLoss >= 0.0
    ensures 0.0 <= RsiFromAverages(avgGain, avgLoss) < 100.0
  {
    var loss := if avgLoss == 0.0 then LossFloor else avgLoss;
    assert loss > 0.0;
    var rs := avgGain / loss;
    assert rs * loss == avgGain;
    assert rs >= 0.0;
    var q := 100.0 / (1.0 + rs);
    assert q * (1.0 + rs) == 100.0;
    assert 0.0 < q <= 100.0;
  }

  /**
   * Every RSI value lies in [0, 100): the average loss is never zero after
   * flooring, so the relative strength is finite and 100 is never reached.
   */
  lemma RsiRange(prices: seq<real>)
    requires |prices| > 0
    ensures forall i :: 0 <= i < |prices| ==> 0.0 <= Rsi(prices)[i] < 100.0
  {
    var d := Delta(prices);
    GainsLossesNonNegative(d);
    var e := [0.0] + d;
    RollingMeanWithin(Gains(d), RsiPeriod, 0.0, Max(e));
    RollingMeanWithin(Losses(d), RsiPeriod, 0.0, -Min(e));
    var g := RollingMean(Gains(d), RsiPeriod);
    var l := RollingMean(Losses(d), RsiPeriod);
    forall i | 0 <= i < |prices| ensures 0.0 <= Rsi(prices)[i] < 100.0 {
      RsiFromAveragesRange(g[i], l[i]);
    }
  }

  /** A zero average gain gives RSI 0, whatever the average loss. */
  lemma RsiOfNoGain(avgLoss: real)
    requires avgLoss >= 0.0
    ensures RsiFromAverages(0.0, avgLoss) == 0.0
  {
    var loss := if avgLoss == 0.0 then LossFloor else avgLoss;
    assert 0.0 / loss == 0.0;
  }

  /** The first delta is zero, so the first RSI value is 0. */
  lemma RsiStartsAtZero(prices: seq<real>)
    requires |prices| > 0
    ensures Rsi(prices)[0] == 0.0
  {
    var d := Delta(prices);
    var g := RollingMean(Gains(d), RsiPeriod);
    var l := RollingMean(Losses(d), RsiPeriod);
    assert Window(Gains(d), RsiPeriod, 0) == [0.0];
    MeanOfConstant([0.0], 0.0);
    assert g[0] == 0.0;
    GainsLossesNonNegative(d);
    RollingMeanWithin(Losses(d), RsiPeriod, 0.0, -Min([0.0] + d));
    RsiOfNoGain(l[0]);
  }

  /** A flat price series has no gains, so its RSI is 0 at every index. */
  lemma RsiOfConstant(prices: seq<real>, c: real)
    requires |prices| > 0 && AllEqual(prices, c)
    ensures AllEqual(Rsi(prices), 0.0)
  {
    var d := Delta(prices);
    assert AllEqual(Gains(d), 0.0) by {
      forall i | 0 <= i < |d| ensures Gains(d)[i] == 0.0 {
        if i > 0 {
          assert d[i] == prices[i] - prices[i - 1] == 0.0;
        }
      }
    }
    RollingMeanWithin(Gains(d), RsiPeriod, 0.0, 0.0);
    GainsLossesNonNegative(d);
    RollingMeanWithin(Losses(d), RsiPeriod, 0.0, -Min([0.0] + d));
    var g := RollingMean(Gains(d), RsiPeriod);
    var l := RollingMean(Losses(d), RsiPeriod);
    forall i | 0 <= i < |prices| ensures Rsi(prices)[i] == 0.0 {
      assert g[i] == 0.0;
      RsiOfNoGain(l[i]);
    }
  }

  // ---------------------------------------------------------------------
  // Exponentially weighted means (pandas `ewm(span=s).mean()`, adjust=True)
  // ---------------------------------------------------------------------

  /** Smoothing factor for a span: alpha = 2 / (span + 1). */
  function Alpha(span: nat): (a: real)
    requires span >= 1
    ensures 0.0 < a <= 1.0
  {
    2.0 / (span as real + 1.0)
  }

  /** Weight decay per step, 1 - alpha. */
  function Decay(span: nat): (b: real)
    requires span >= 1
    ensures 0.0 <= b < 1.0
  {
    1.0 - Alpha(span)
  }

  /** sum over k of beta^k * xs[n-1-k]: the newest value has weight 1. */
  function WeightedSum(xs: seq<real>, beta: real): real
  {
    if |xs| == 0 then 0.0 else xs[|xs| - 1] + beta * WeightedSum(xs[..|xs| - 1], beta)
  }

  /** sum over k < n of beta^k: the normaliser of the adjusted mean. */
  function TotalWeight(n: nat, beta: real): real
  {
    if n == 0 then 0.0 else 1.0 + beta * TotalWeight(n - 1, beta)
  }

  lemma {:induction false} TotalWeightAtLeastOne(n: nat, beta: real)
    requires n >= 1 && beta >= 0.0
    ensures TotalWeight(n, beta) >= 1.0
  {
    if n > 1 {
      TotalWeightAtLeastOne(n - 1, beta);
      assert beta * TotalWeight(n - 1, beta) >= 0.0;
    }
  }

  /** The normaliser of an adjusted mean over n >= 1 values, at least 1. */
  function Normaliser(n: nat, beta: real): (t: real)
    requires n >= 1 && beta >= 0.0
    ensures t >= 1.0
  {
    TotalWeightAtLeastOne(n, beta);
    TotalWeight(n, beta)
  }

  /**
   * `ewm(span=span, min_periods=1).mean()` with pandas' default adjust=True:
   * element i is the weighted average of xs[0..i] with weights (1-alpha)^k.
   */
  function EwmMean(xs: seq<real>, span: nat): (r: seq<real>)
    requires span >= 1
    ensures |r| == |xs|
  {
    var b := Decay(span);
    seq(|xs|, i requires 0 <= i < |xs| => WeightedSum(xs[..i + 1], b) / Normaliser(i + 1, b))
  }

  lemma AllWithinPrefix(xs: seq<real>, n: nat, lo: real, hi: real)
    requires n <= |xs| && AllWithin(xs, lo, hi)
    ensures AllWithin(xs[..n], lo, hi)
  {
    forall i | 0 <= i < n ensures lo <= xs[..n][i] <= hi {
      assert xs[..n][i] == xs[i];
    }
  }

  lemma LowerStep(x: real, s: real, t: real, beta: real, lo: real, w: real, tw: real)
    requires beta >= 0.0 && lo <= x && lo * t <= s
    requires w == x + beta * s && tw == 1.0 + beta * t
    ensures lo * tw <= w
  {
    assert beta * (s - lo * t) >= 0.0;
    assert lo * tw == lo + beta * (lo * t);
  }

  lemma UpperStep(x: real, s: real, t: real, beta: real, hi: real, w: real, tw: real)
    requires beta >= 0.0 && x <= hi && s <= hi * t
    requires w == x + beta * s && tw == 1.0 + beta * t
    ensures w <= hi * tw
  {
    assert beta * (hi * t - s) >= 0.0;
    assert hi * tw == hi + beta * (hi * t);
  }

  /** Values all at least lo make the weighted sum at least lo times the total weight. */
  lemma {:induction false} WeightedSumAtLeast(xs: seq<real>, beta: real, lo: real, hi: real)
    requires beta >= 0.0 && AllWithin(xs, lo, hi)
    ensures lo * TotalWeight(|xs|, beta) <= WeightedSum(xs, beta)
  {
    if |xs| > 0 {
      var init := xs[..|xs| - 1];
      var x, s, t := xs[|xs| - 1], WeightedSum(init, beta), TotalWeight(|init|, beta);
      assert lo * t <= s by {
        AllWithinPrefix(xs, |xs| - 1, lo, hi);
        WeightedSumAtLeast(init, beta, lo, hi);
      }
      assert lo <= x;
      var w, tw := WeightedSum(xs, beta), TotalWeight(|xs|, beta);
      assert w == x + beta * s;
      assert tw == 1.0 + beta * t;
      LowerStep(x, s, t, beta, lo, w, tw);
    }
  }

  /** Values all at most hi make the weighted sum at most hi times the total weight. */
  lemma {:induction false} WeightedSumAtMost(xs: seq<real>, beta: real, lo: real, hi: real)
    requires beta >= 0.0 && AllWithin(xs, lo, hi)
    ensures WeightedSum(xs, beta) <= hi * TotalWeight(|xs|, beta)
  {
    if |xs| > 0 {
      var init := xs[..|xs| - 1];
      var x, s, t := xs[|xs| - 1], WeightedSum(init, beta), TotalWeight(|init|, beta);
      assert s <= hi * t by {
        AllWithinPrefix(xs, |xs| - 1, lo, hi);
        WeightedSumAtMost(init, beta, lo, hi);
      }
      assert x <= hi;
      var w, tw := WeightedSum(xs, beta), TotalWeight(|xs|, beta);
      assert w == x + beta * s;
      assert tw == 1.0 + beta * t;
      UpperStep(x, s, t, beta, hi, w, tw);
    }
  }

  /** Element i of the adjusted EWM, as the weighted average of the prefix ending at i. */
  lemma EwmMeanAt(xs: seq<real>, span: nat, i: nat)
    requires span >= 1 && i < |xs|
    ensures EwmMean(xs, span)[i] == WeightedSum(xs[..i + 1], Decay(span)) / Normaliser(i + 1, Decay(span))
  {
  }

  /**
   * pandas' adjusted recurrence: each element is the previous mean, carried
   * at its total weight times (1-alpha), plus the new value at weight 1,
   * divided by the new total weight.
   */
  lemma EwmMeanRecurrence(xs: seq<real>, span: nat, i: nat)
    requires span >= 1 && 1 <= i < |xs|
    ensures var b := Decay(span);
      EwmMean(xs, span)[i]
      == (xs[i] + b * Normaliser(i, b) * EwmMean(xs, span)[i - 1]) / Normaliser(i + 1, b)
  {
    var b := Decay(span);
    var w := WeightedSum(xs[..i], b);
    assert xs[..i + 1][..i] == xs[..i];
    assert WeightedSum(xs[..i + 1], b) == xs[i] + b * w;
    EwmMeanAt(xs, span, i - 1);
    EwmMeanAt(xs, span, i);
    CancelWeight(w, Normaliser(i, b));
    assert b * Normaliser(i, b) * EwmMean(xs, span)[i - 1] == b * w by {
      assert Normaliser(i, b) * EwmMean(xs, span)[i - 1] == w;
    }
  }

  lemma CancelWeight(w: real, t: real)
    requires t > 0.0
    ensures t * (w / t) == w
  {
  }

  /** An adjusted EWM stays within any bounds of its input. */
  lemma EwmMeanWithin(xs: seq<real>, span: nat, lo: real, hi: real)
    requires span >= 1 && AllWithin(xs, lo, hi)
    ensures AllWithin(EwmMean(xs, span), lo, hi)
  {
    forall i | 0 <= i < |xs| ensures lo <= EwmMean(xs, span)[i] <= hi {
      EwmMeanAtWithin(xs, span, i, lo, hi);
    }
  }

  lemma EwmMeanAtWithin(xs: seq<real>, span: nat, i: nat, lo: real, hi: real)
    requires span >= 1 && i < |xs| && AllWithin(xs, lo, hi)
    ensures lo <= EwmMean(xs, span)[i] <= hi
  {
    AllWithinPrefix(xs, i + 1, lo, hi);
    WeightedAverageWithin(xs[..i + 1], Decay(span), lo, hi);
    EwmMeanAt(xs, span, i);
  }

  /** A weighted average with positive total weight stays within bounds of its values. */
  lemma WeightedAverageWithin(pre: seq<real>, b: real, lo: real, hi: real)
    requires |pre| >= 1 && b >= 0.0 && AllWithin(pre, lo, hi)
    ensures lo <= WeightedSum(pre, b) / Normaliser(|pre|, b) <= hi
  {
    WeightedAverageAtLeast(pre, b, lo, hi);
    WeightedAverageAtMost(pre, b, lo, hi);
  }

  lemma WeightedAverageAtLeast(pre: seq<real>, b: real, lo: real, hi: real)
    requires |pre| >= 1 && b >= 0.0 && AllWithin(pre, lo, hi)
    ensures lo <= WeightedSum(pre, b) / Normaliser(|pre|, b)
  {
    WeightedSumAtLeast(pre, b, lo, hi);
    QuotientAtLeast(WeightedSum(pre, b), TotalWeight(|pre|, b), Normaliser(|pre|, b), lo);
  }

  lemma WeightedAverageAtMost(pre: seq<real>, b: real, lo: real, hi: real)
    requires |pre| >= 1 && b >= 0.0 && AllWithin(pre, lo, hi)
    ensures WeightedSum(pre, b) / Normaliser(|pre|, b) <= hi
  {
    WeightedSumAtMost(pre, b, lo, hi);
    QuotientAtMost(WeightedSum(pre, b), TotalWeight(|pre|, b), Normaliser(|pre|, b), hi);
  }

  lemma QuotientAtLeast(w: real, t: real, n: real, lo: real)
    requires n == t && t > 0.0 && lo * t <= w
    ensures lo <= w / n
  {
    assert (w / n) * n == w;
  }

  lemma QuotientAtMost(w: real, t: real, n: real, hi: real)
    requires n == t && t > 0.0 && w <= hi * t
    ensures w / n <= hi
  {
    assert (w / n) * n == w;
  }

  /** The first EWM value is the first input. */
  lemma EwmMeanFirst(xs: seq<real>, span: nat)
    requires span >= 1 && |xs| > 0
    ensures EwmMean(xs, span)[0] == xs[0]
  {
    var b := Decay(span);
    assert xs[..1] == [xs[0]];
    assert WeightedSum(xs[..1][..0], b) == 0.0;
    assert TotalWeight(0, b) == 0.0;
  }

  /** An EWM of a constant series is that constant. */
  lemma EwmMeanOfConstant(xs: seq<real>, span: nat, c: real)
    requires span >= 1 && AllEqual(xs, c)
    ensures AllEqual(EwmMean(xs, span), c)
  {
    EwmMeanWithin(xs, span, c, c);
  }

  // ---------------------------------------------------------------------
  // MACD
  // ---------------------------------------------------------------------

  /** MACD line: EMA(12) - EMA(26), elementwise. */
  function MacdLine(prices: seq<real>): (m: seq<real>)
    ensures |m| == |prices|
  {
    var fast := EwmMean(prices, FastSpan);
    var slow := EwmMean(prices, SlowSpan);
    seq(|prices|, i requires 0 <= i < |prices| => fast[i] - slow[i])
  }

  /** `calculate_macd(prices)`: the MACD line and its 9-span signal line. */
  function Macd(prices: seq<real>): (ms: (seq<real>, seq<real>))
    ensures |ms.0| == |ms.1| == |prices|
  {
    var line := MacdLine(prices);
    (line, EwmMean(line, SignalSpan))
  }

  /** Both lines start at zero: every EWM starts at the first price. */
  lemma MacdStartsAtZero(prices: seq<real>)
    requires |prices| > 0
    ensures Macd(prices).0[0] == 0.0 && Macd(prices).1[0] == 0.0
  {
    EwmMeanFirst(prices, FastSpan);
    EwmMeanFirst(prices, SlowSpan);
    EwmMeanFirst(MacdLine(prices), SignalSpan);
  }

  /** A flat price series has both EMAs equal to the price, so both MACD lines are zero. */
  lemma MacdOfConstant(prices: seq<real>, c: real)
    requires AllEqual(prices, c)
    ensures AllEqual(Macd(prices).0, 0.0) && AllEqual(Macd(prices).1, 0.0)
  {
    EwmMeanOfConstant(prices, FastSpan, c);
    EwmMeanOfConstant(prices, SlowSpan, c);
    EwmMeanOfConstant(MacdLine(prices), SignalSpan, 0.0);
  }
}
