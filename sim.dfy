/**
 * The indicator and prediction part of sim.py ("Market Predictor Pro").
 * `calculate_technical_indicators` adds RSI, moving averages, a recursive
 * (adjust=False) EMA and MACD, and volume columns to a copy of the frame,
 * then runs a fill loop over the numeric columns; `simple_prediction_model`
 * is a second additive scorer whose clamped score is the confidence and
 * whose band picks the formula of the predicted change.
 */
module Sim {
  import opened Numeric
  import opened Frames
  import Technicals
  import opened Wrappers

  // ---------------------------------------------------------------------
  // Recursive EMA: ewm(span=s, adjust=False).mean()
  // ---------------------------------------------------------------------

  /** The last value of the recursive EMA of a non-empty series. */
  function EmaLast(xs: seq<real>, span: nat): real
    requires |xs| > 0 && span >= 1
  {
    if |xs| == 1 then xs[0]
    else Technicals.Alpha(span) * xs[|xs| - 1] + (1.0 - Technicals.Alpha(span)) * EmaLast(xs[..|xs| - 1], span)
  }

  /** `series.ewm(span=span, adjust=False).mean()`. */
  function Ema(xs: seq<real>, span: nat): (e: seq<real>)
    requires span >= 1
    ensures |e| == |xs|
  {
    seq(|xs|, i requires 0 <= i < |xs| => EmaLast(xs[..i + 1], span))
  }

  /** The EMA starts at the first value. */
  lemma EmaFirst(xs: seq<real>, span: nat)
    requires span >= 1 && |xs| > 0
    ensures Ema(xs, span)[0] == xs[0]
  {
    assert xs[..1] == [xs[0]];
  }

  /** e[t] = alpha * x[t] + (1 - alpha) * e[t-1] with alpha = 2 / (span + 1). */
  lemma EmaRecurrence(xs: seq<real>, span: nat, t: nat)
    requires span >= 1 && 0 < t < |xs|
    ensures Ema(xs, span)[t]
      == Technicals.Alpha(span) * xs[t] + (1.0 - Technicals.Alpha(span)) * Ema(xs, span)[t - 1]
  {
    assert xs[..t + 1][..t] == xs[..t];
  }

  lemma ConvexWithin(a: real, x: real, e: real, lo: real, hi: real)
    requires 0.0 < a <= 1.0 && lo <= x <= hi && lo <= e <= hi
    ensures lo <= a * x + (1.0 - a) * e <= hi
  {
    var b := 1.0 - a;
    assert b >= 0.0;
    assert a * (x - lo) >= 0.0;
    assert b * (e - lo) >= 0.0;
    assert a * (hi - x) >= 0.0;
    assert b * (hi - e) >= 0.0;
    assert a * x + b * e - lo == a * (x - lo) + b * (e - lo);
    assert hi - (a * x + b * e) == a * (hi - x) + b * (hi - e);
  }

  lemma {:induction false} EmaLastWithin(xs: seq<real>, span: nat, lo: real, hi: real)
    requires |xs| > 0 && span >= 1 && AllWithin(xs, lo, hi)
    ensures lo <= EmaLast(xs, span) <= hi
  {
    if |xs| > 1 {
      var init := xs[..|xs| - 1];
      assert AllWithin(init, lo, hi) by {
        forall i | 0 <= i < |init| ensures lo <= init[i] <= hi {
          assert init[i] == xs[i];
        }
      }
      EmaLastWithin(init, span, lo, hi);
      ConvexWithin(Technicals.Alpha(span), xs[|xs| - 1], EmaLast(init, span), lo, hi);
    }
  }

  /** Every EMA value lies within any bounds of the input. */
  lemma EmaWithin(xs: seq<real>, span: nat, lo: real, hi: real)
    requires span >= 1 && AllWithin(xs, lo, hi)
    ensures AllWithin(Ema(xs, span), lo, hi)
  {
    forall i | 0 <= i < |xs| ensures lo <= Ema(xs, span)[i] <= hi {
      var pre := xs[..i + 1];
      assert AllWithin(pre, lo, hi) by {
        forall k | 0 <= k < |pre| ensures lo <= pre[k] <= hi {
          assert pre[k] == xs[k];
        }
      }
      EmaLastWithin(pre, span, lo, hi);
    }
  }

  /** The EMA of a constant series is that constant. */
  lemma EmaOfConstant(xs: seq<real>, span: nat, c: real)
    requires span >= 1 && AllEqual(xs, c)
    ensures AllEqual(Ema(xs, span), c)
  {
    EmaWithin(xs, span, c, c);
  }

  // ---------------------------------------------------------------------
  // The indicator columns
  // ---------------------------------------------------------------------

  /** `close.diff()`: no value (NaN) in the first row. */
  function Diff(xs: seq<real>): (d: seq<Option<real>>)
    ensures |d| == |xs|
  {
    seq(|xs|, i requires 0 <= i < |xs| => if i == 0 then None else Some(xs[i] - xs[i - 1]))
  }

  /** `delta.where(delta > 0, 0)`: a NaN fails the test and becomes 0. */
  function DiffGains(d: seq<Option<real>>): (g: seq<real>)
    ensures |g| == |d|
  {
    seq(|d|, i requires 0 <= i < |d| => if d[i].Some? && d[i].value > 0.0 then d[i].value else 0.0)
  }

  /** `-delta.where(delta < 0, 0)`. */
  function DiffLosses(d: seq<Option<real>>): (l: seq<real>)
    ensures |l| == |d|
  {
    seq(|d|, i requires 0 <= i < |d| => if d[i].Some? && d[i].value < 0.0 then -d[i].value else 0.0)
  }

  /** The RSI column: rolling-14 means of gains and losses, a zero loss replaced by 1e-10. */
  function RsiColumn(close: seq<real>): (r: seq<real>)
    ensures |r| == |close|
  {
    var d := Diff(close);
    var g := Technicals.RollingMean(DiffGains(d), Technicals.RsiPeriod);
    var l := Technicals.RollingMean(DiffLosses(d), Technicals.RsiPeriod);
    assert AllWithin(DiffGains(d), 0.0, Max([0.0] + DiffGains(d))) by {
      forall i | 0 <= i < |d| ensures 0.0 <= DiffGains(d)[i] <= Max([0.0] + DiffGains(d)) {
        assert ([0.0] + DiffGains(d))[i + 1] == DiffGains(d)[i];
      }
    }
    assert AllWithin(DiffLosses(d), 0.0, Max([0.0] + DiffLosses(d))) by {
      forall i | 0 <= i < |d| ensures 0.0 <= DiffLosses(d)[i] <= Max([0.0] + DiffLosses(d)) {
        assert ([0.0] + DiffLosses(d))[i + 1] == DiffLosses(d)[i];
      }
    }
    Technicals.RollingMeanWithin(DiffGains(d), Technicals.RsiPeriod, 0.0, Max([0.0] + DiffGains(d)));
    Technicals.RollingMeanWithin(DiffLosses(d), Technicals.RsiPeriod, 0.0, Max([0.0] + DiffLosses(d)));
    seq(|close|, i requires 0 <= i < |close| => Technicals.RsiFromAverages(g[i], l[i]))
  }

  /**
   * The RSI column equals technicals.py's `calculate_rsi`: a NaN first
   * difference filtered to 0 is the same as a zero first difference.
   */
  lemma RsiColumnIsRsi(close: seq<real>)
    requires |close| > 0
    ensures RsiColumn(close) == Technicals.Rsi(close)
  {
    var d := Diff(close);
    var e := Technicals.Delta(close);
    assert DiffGains(d) == Technicals.Gains(e);
    assert DiffLosses(d) == Technicals.Losses(e);
  }

  /** The MACD line: EMA12 - EMA26, both recursive. */
  function MacdColumn(close: seq<real>): (m: seq<real>)
    ensures |m| == |close|
  {
    var fast := Ema(close, Technicals.FastSpan);
    var slow := Ema(close, Technicals.SlowSpan);
    seq(|close|, i requires 0 <= i < |close| => fast[i] - slow[i])
  }

  /** The MACD of a constant series is zero everywhere, and so is its signal line. */
  lemma MacdColumnOfConstant(close: seq<real>, c: real)
    requires AllEqual(close, c)
    ensures AllEqual(MacdColumn(close), 0.0)
    ensures AllEqual(Ema(MacdColumn(close), Technicals.SignalSpan), 0.0)
  {
    EmaOfConstant(close, Technicals.FastSpan, c);
    EmaOfConstant(close, Technicals.SlowSpan, c);
    EmaOfConstant(MacdColumn(close), Technicals.SignalSpan, 0.0);
  }

  /** `volume_ma.replace(0, 1e-10)` for one value. */
  function SafeDivisor(x: real): real
  {
    if x == 0.0 then Technicals.LossFloor else x
  }

  /** `volume / volume_ma_safe` with the 20-row rolling mean of volume. */
  function VolumeRatioColumn(volume: seq<real>): (r: seq<real>)
    ensures |r| == |volume|
  {
    var ma := Technicals.RollingMean(volume, 20);
    seq(|volume|, i requires 0 <= i < |volume| => volume[i] / SafeDivisor(ma[i]))
  }

  /**
   * Each ratio times its (floored) rolling mean gives back the volume, and
   * the floor only applies where the rolling mean is zero.
   */
  lemma VolumeRatioMeaning(volume: seq<real>, i: nat)
    requires i < |volume|
    ensures var ma := Technicals.RollingMean(volume, 20)[i];
      && (ma != 0.0 ==> VolumeRatioColumn(volume)[i] * ma == volume[i])
      && (ma == 0.0 ==> VolumeRatioColumn(volume)[i] == volume[i] / Technicals.LossFloor)
  {
  }

  /** A constant positive volume has ratio 1 on every row. */
  lemma VolumeRatioOfConstant(volume: seq<real>, v: real)
    requires v > 0.0 && AllEqual(volume, v)
    ensures AllEqual(VolumeRatioColumn(volume), 1.0)
  {
    Technicals.SmoothedMaOfConstant(volume, 20, v);
    var ma := Technicals.RollingMean(volume, 20);
    assert ma == Technicals.SmoothedMa(volume, 20);
    forall i | 0 <= i < |volume| ensures VolumeRatioColumn(volume)[i] == 1.0 {
      assert ma[i] == v && volume[i] == v;
      assert SafeDivisor(ma[i]) == v;
      assert VolumeRatioColumn(volume)[i] == volume[i] / SafeDivisor(ma[i]);
      assert v / v == 1.0;
    }
  }

  /** The columns calculate_technical_indicators adds (Volatility is not modelled). */
  function IndicatorColumns(close: seq<real>, volume: seq<real>): (cols: map<string, seq<real>>)
    ensures cols.Keys == {"RSI", "SMA_20", "SMA_50", "EMA_20", "MACD", "MACD_Signal", "Volume_MA", "Volume_Ratio"}
    ensures forall c | c in cols && c != "Volume_MA" && c != "Volume_Ratio" :: |cols[c]| == |close|
    ensures |cols["Volume_MA"]| == |cols["Volume_Ratio"]| == |volume|
  {
    var macd := MacdColumn(close);
    map[
      "RSI" := RsiColumn(close),
      "SMA_20" := Technicals.RollingMean(close, 20),
      "SMA_50" := Technicals.RollingMean(close, 50),
      "EMA_20" := Ema(close, 20),
      "MACD" := macd,
      "MACD_Signal" := Ema(macd, Technicals.SignalSpan),
      "Volume_MA" := Technicals.RollingMean(volume, 20),
      "Volume_Ratio" := VolumeRatioColumn(volume)]
  }

  /** Whether the indicator computation gets past its guard and column lookups. */
  predicate Indicatable(df: Frame)
  {
    !IsEmpty(df) && Len(df) >= 20 && "Close" in df.columns && "Volume" in df.columns
  }

  /** `df.copy()` with the indicator columns assigned. */
  function WithIndicators(df: Frame): (r: Frame)
    requires Indicatable(df)
    ensures r.rows == df.rows
    ensures r.columns.Keys == df.columns.Keys + IndicatorColumns(df.columns["Close"], df.columns["Volume"]).Keys
    ensures forall c | c in df.columns && c !in IndicatorColumns(df.columns["Close"], df.columns["Volume"]) ::
      r.columns[c] == df.columns[c]
  {
    WithColumns(df, IndicatorColumns(df.columns["Close"], df.columns["Volume"]))
  }

  /** The indicator columns of a flat series: RSI 0, averages c, MACD 0, volume ratio 1. */
  lemma IndicatorsOfFlatSeries(df: Frame, c: real, v: real)
    requires Indicatable(df) && v > 0.0
    requires AllEqual(df.columns["Close"], c) && AllEqual(df.columns["Volume"], v)
    ensures var r := WithIndicators(df);
      && AllEqual(r.columns["RSI"], 0.0)
      && AllEqual(r.columns["SMA_20"], c) && AllEqual(r.columns["SMA_50"], c)
      && AllEqual(r.columns["EMA_20"], c)
      && AllEqual(r.columns["MACD"], 0.0) && AllEqual(r.columns["MACD_Signal"], 0.0)
      && AllEqual(r.columns["Volume_Ratio"], 1.0)
  {
    var close, volume := df.columns["Close"], df.columns["Volume"];
    var cols := IndicatorColumns(close, volume);
    FlatIndicatorColumns(close, volume, c, v);
    var r := WithIndicators(df);
    assert forall k | k in cols :: r.columns[k] == cols[k];
  }

  lemma FlatIndicatorColumns(close: seq<real>, volume: seq<real>, c: real, v: real)
    requires |close| > 0 && v > 0.0 && AllEqual(close, c) && AllEqual(volume, v)
    ensures var cols := IndicatorColumns(close, volume);
      && AllEqual(cols["RSI"], 0.0)
      && AllEqual(cols["SMA_20"], c) && AllEqual(cols["SMA_50"], c)
      && AllEqual(cols["EMA_20"], c)
      && AllEqual(cols["MACD"], 0.0) && AllEqual(cols["MACD_Signal"], 0.0)
      && AllEqual(cols["Volume_Ratio"], 1.0)
  {
    RsiColumnIsRsi(close);
    Technicals.RsiOfConstant(close, c);
    Technicals.SmoothedMaOfConstant(close, 20, c);
    Technicals.SmoothedMaOfConstant(close, 50, c);
    EmaOfConstant(close, 20, c);
    MacdColumnOfConstant(close, c);
    VolumeRatioOfConstant(volume, v);
  }

  // ---------------------------------------------------------------------
  // The fill loop and calculate_technical_indicators
  // ---------------------------------------------------------------------

  /** The columns the fill loop visits, in order. */
  const NumericColumns: seq<string> :=
    ["RSI", "SMA_20", "SMA_50", "EMA_20", "MACD", "MACD_Signal", "Volume_MA", "Volume_Ratio", "Volatility"]

  /** `str.lower()` on one character, ASCII letters only. */
  function LowerChar(c: char): char
  {
    if 'A' <= c <= 'Z' then (c as int + 32) as char else c
  }

  /** `str.lower()`, ASCII letters only. */
  function Lower(s: string): (l: string)
    ensures |l| == |s|
    ensures forall i :: 0 <= i < |s| ==> l[i] == LowerChar(s[i])
  {
    seq(|s|, i requires 0 <= i < |s| => LowerChar(s[i]))
  }

  /**
   * The method names pandas' fillna accepts: the name is lower-cased first,
   * then it must be one of pad/ffill/backfill/bfill; any other raises
   * ValueError.
   */
  predicate FillMethodAccepted(fillMethod: string)
  {
    var m := Lower(fillMethod);
    m == "pad" || m == "ffill" || m == "backfill" || m == "bfill"
  }

  /**
   * `column.fillna(method=m)` on a column without missing cells: the column
   * itself for an accepted method, None (ValueError) for any other.
   */
  function FillNa(column: seq<real>, fillMethod: string): (r: Option<seq<real>>)
    ensures r.Some? <==> FillMethodAccepted(fillMethod)
    ensures r.Some? ==> r.value == column
  {
    if FillMethodAccepted(fillMethod) then Some(column) else None
  }

  lemma WithSameColumn(f: Frame, name: string)
    requires name in f.columns
    ensures WithColumns(f, map[name := f.columns[name]]) == f
  {
    assert f.columns + map[name := f.columns[name]] == f.columns;
  }

  /**
   * The loop over the numeric columns: each present column is filled
   * forward, then backward, then with 0. None stands for the exception
   * the first rejected method raises.
   */
  method FillNumericColumns(df: Frame, forward: string, backward: string) returns (filled: Option<Frame>)
    requires "RSI" in df.columns
    ensures filled.Some? <==> FillMethodAccepted(forward) && FillMethodAccepted(backward)
    ensures filled.Some? ==> filled.value == df
  {
    var result := df;
    for k := 0 to |NumericColumns|
      invariant result == df
      invariant k > 0 ==> FillMethodAccepted(forward) && FillMethodAccepted(backward)
    {
      var col := NumericColumns[k];
      if col in result.columns {
        var f := FillNa(result.columns[col], forward);
        if f.None? {
          return None;
        }
        var b := FillNa(f.value, backward);
        if b.None? {
          return None;
        }
        WithSameColumn(result, col);
        result := WithColumns(result, map[col := b.value]);
      } else {
        assert k > 0;
      }
    }
    return Some(result);
  }

  /**
   * calculate_technical_indicators with the fill method names as
   * parameters: the guard, the column computations (a missing Close or
   * Volume raises KeyError), and the fill loop; any exception returns the
   * input frame.
   */
  method IndicatorsWithFill(df: Frame, forward: string, backward: string) returns (r: Frame)
    ensures Indicatable(df) && FillMethodAccepted(forward) && FillMethodAccepted(backward) ==> r == WithIndicators(df)
    ensures !(Indicatable(df) && FillMethodAccepted(forward) && FillMethodAccepted(backward)) ==> r == df
  {
    if IsEmpty(df) || Len(df) < 20 {
      return df;
    }
    if !("Close" in df.columns && "Volume" in df.columns) {
      return df;
    }
    var resultDf := WithIndicators(df);
    var filled := FillNumericColumns(resultDf, forward, backward);
    if filled.None? {
      return df;
    }
    return filled.value;
  }

  /**
   * calculate_technical_indicators as written: `fillna(method='forward')`
   * is rejected, the exception handler returns the input, and the
   * indicator columns never reach the caller.
   */
  method CalculateTechnicalIndicators(df: Frame) returns (r: Frame)
    ensures r == df
  {
    r := IndicatorsWithFill(df, "forward", "backward");
  }

  /** 'forward' and 'backward' are not pandas fill methods, in any letter case. */
  lemma ForwardIsRejected()
    ensures !FillMethodAccepted("forward") && !FillMethodAccepted("backward")
    ensures !FillMethodAccepted("Forward") && !FillMethodAccepted("BACKWARD")
    ensures FillMethodAccepted("ffill") && FillMethodAccepted("bfill")
  {
    assert Lower("forward") == "forward" && Lower("backward") == "backward";
    assert Lower("Forward") == "forward" && Lower("BACKWARD") == "backward";
    assert Lower("ffill") == "ffill" && Lower("bfill") == "bfill";
  }

  /** The method name is matched without regard to letter case. */
  lemma FillMethodIgnoresCase(fillMethod: string)
    ensures FillMethodAccepted(fillMethod) <==> FillMethodAccepted(Lower(fillMethod))
    ensures FillMethodAccepted("FFILL") && FillMethodAccepted("Pad")
  {
    assert Lower(Lower(fillMethod)) == Lower(fillMethod);
    assert Lower("FFILL") == "ffill" && Lower("Pad") == "pad";
  }

  /**
   * The evidently intended calculate_technical_indicators ('ffill',
   * 'bfill'): a frame of at least 20 rows with Close and Volume gains the
   * indicator columns; any other frame comes back unchanged.
   */
  method CalculateTechnicalIndicatorsFixed(df: Frame) returns (r: Frame)
    ensures Indicatable(df) ==> r == WithIndicators(df)
    ensures !Indicatable(df) ==> r == df
  {
    r := IndicatorsWithFill(df, "ffill", "bfill");
  }

  // ---------------------------------------------------------------------
  // simple_prediction_model
  // ---------------------------------------------------------------------

  /** The signal strings of simple_prediction_model. */
  datatype PredSignal =
    | RsiOversoldBuy        // "RSI Oversold - Buy Signal"
    | RsiOverboughtCaution  // "RSI Overbought - Caution"
    | RsiNeutral            // "RSI Neutral"
    | MacdBullish           // "MACD Bullish"
    | MacdBearish           // "MACD Bearish"
    | StrongUptrend         // "Strong Uptrend"
    | ShortTermBullish      // "Short-term Bullish"
    | BelowMovingAverages   // "Below Moving Averages"
    | VolumeExplosion       // "Volume Explosion"
    | HighVolume            // "High Volume"
    | StrongMomentum        // "Strong Momentum"
    | PositiveMomentum      // "Positive Momentum"
    | NegativeMomentum      // "Negative Momentum"
    | InsufficientData      // "Insufficient data"

  function PredPoints(s: PredSignal): int
  {
    match s
    case RsiOversoldBuy => 15
    case RsiOverboughtCaution => -10
    case RsiNeutral => 5
    case MacdBullish => 15
    case MacdBearish => -5
    case StrongUptrend => 20
    case ShortTermBullish => 10
    case BelowMovingAverages => -10
    case VolumeExplosion => 15
    case HighVolume => 10
    case StrongMomentum => 15
    case PositiveMomentum => 10
    case NegativeMomentum => -15
    case InsufficientData => 0
  }

  function PredTotal(signals: seq<PredSignal>): int
  {
    if |signals| == 0 then 0
    else PredTotal(signals[..|signals| - 1]) + PredPoints(signals[|signals| - 1])
  }

  /** Fewer rows than this give (0, 0, ["Insufficient data"]). */
  const MinPredictionRows: nat := 30

  /** `safe_get(name, default)`: the last row's value, or the default when the column is missing. */
  function SafeGet(df: Frame, name: string, default: real): real
  {
    if name in df.columns && df.rows > 0 then df.columns[name][df.rows - 1] else default
  }

  /** The values the prediction rules compare. */
  datatype PredReadings = PredReadings(
    rsi: real, macd: real, macdSignal: real,
    close: real, sma20: real, sma50: real,
    volumeRatio: real,
    prevClose: Option<real>)   // Close five rows back, None when Close is missing

  function PredReadingsOf(df: Frame): PredReadings
    requires df.rows >= 5
  {
    PredReadings(
      SafeGet(df, "RSI", 50.0), SafeGet(df, "MACD", 0.0), SafeGet(df, "MACD_Signal", 0.0),
      SafeGet(df, "Close", 0.0), SafeGet(df, "SMA_20", 0.0), SafeGet(df, "SMA_50", 0.0),
      SafeGet(df, "Volume_Ratio", 1.0),
      if "Close" in df.columns then Some(df.columns["Close"][df.rows - 5]) else None)
  }

  function PredRsiRule(rsi: real): seq<PredSignal>
  {
    if rsi < 30.0 then [RsiOversoldBuy]
    else if rsi > 70.0 then [RsiOverboughtCaution]
    else if 45.0 <= rsi <= 55.0 then [RsiNeutral]
    else []
  }

  function PredMacdRule(macd: real, signal: real): seq<PredSignal>
  {
    if macd > signal then [MacdBullish] else [MacdBearish]
  }

  function PredMaRule(close: real, sma20: real, sma50: real): seq<PredSignal>
  {
    if close > 0.0 && sma20 > 0.0 && sma50 > 0.0 then
      if close > sma20 && sma20 > sma50 then [StrongUptrend]
      else if close > sma20 then [ShortTermBullish]
      else [BelowMovingAverages]
    else []
  }

  function PredVolumeRule(ratio: real): seq<PredSignal>
  {
    if ratio > 2.0 then [VolumeExplosion]
    else if ratio > 1.5 then [HighVolume]
    else []
  }

  function PredMomentumRule(current: real, prev: Option<real>): seq<PredSignal>
  {
    if prev.Some? && prev.value > 0.0 then
      var change := (current - prev.value) / prev.value;
      if change > 0.05 then [StrongMomentum]
      else if change > 0.02 then [PositiveMomentum]
      else if change < -0.05 then [NegativeMomentum]
      else []
    else []
  }

  function PredFired(r: PredReadings): seq<PredSignal>
  {
    PredRsiRule(r.rsi) + PredMacdRule(r.macd, r.macdSignal)
    + PredMaRule(r.close, r.sma20, r.sma50) + PredVolumeRule(r.volumeRatio)
    + PredMomentumRule(r.close, r.prevClose)
  }

  /** `close.pct_change().dropna()`: one return per row after the first. */
  function PctReturns(close: seq<real>): (rs: seq<real>)
    requires forall i :: 0 <= i < |close| ==> close[i] > 0.0
    ensures |rs| == if |close| == 0 then 0 else |close| - 1
  {
    if |close| == 0 then []
    else seq(|close| - 1, i requires 0 <= i < |close| - 1 => close[i + 1] / close[i] - 1.0)
  }

  /** Positive closes where the Close column exists (pct_change divides by them). */
  predicate PositiveCloses(df: Frame)
  {
    "Close" in df.columns ==> forall i :: 0 <= i < |df.columns["Close"]| ==> df.columns["Close"][i] > 0.0
  }

  /** `recent_changes`: the mean of the last five returns, 0 without a Close column or with fewer returns. */
  function RecentChange(df: Frame): real
    requires PositiveCloses(df)
  {
    if "Close" in df.columns then
      var rs := PctReturns(df.columns["Close"]);
      if |rs| >= 5 then Mean(rs[|rs| - 5..]) else 0.0
    else 0.0
  }

  /** The predicted change for a clamped score and a recent mean return. */
  function PredictedChange(score: int, recent: real): (p: real)
    ensures -0.1 <= p <= 0.1
  {
    var raw := if score > 70 then recent * 1.5 + 0.01
      else if score < 30 then recent * 0.5 - 0.01
      else recent;
    ClampReal(raw, -0.1, 0.1)
  }

  datatype Prediction = Prediction(change: real, confidence: int, signals: seq<PredSignal>)

  /** The guard of simple_prediction_model: too little data to predict. */
  predicate TooShort(df: Frame)
  {
    IsEmpty(df) || Len(df) < MinPredictionRows
  }

  /** The signals simple_prediction_model returns; they never read the returns. */
  function PredSignals(df: Frame): seq<PredSignal>
  {
    if TooShort(df) then [InsufficientData] else PredFired(PredReadingsOf(df))
  }

  /** The confidence simple_prediction_model returns: the score clamped to [0, 100]. */
  function PredConfidence(df: Frame): int
  {
    if TooShort(df) then 0 else ClampInt(PredTotal(PredSignals(df)), 0, 100)
  }

  /** simple_prediction_model as a value. */
  function Predict(df: Frame): Prediction
    requires TooShort(df) || PositiveCloses(df)
  {
    if TooShort(df) then Prediction(0.0, 0, [InsufficientData])
    else Prediction(PredictedChange(PredConfidence(df), RecentChange(df)), PredConfidence(df), PredSignals(df))
  }

  function PartPoints(xs: seq<PredSignal>): int
    requires |xs| <= 1
  {
    if |xs| == 0 then 0 else PredPoints(xs[0])
  }

  lemma {:induction false} PredTotalConcat(a: seq<PredSignal>, b: seq<PredSignal>)
    ensures PredTotal(a + b) == PredTotal(a) + PredTotal(b)
  {
    if |b| > 0 {
      var c := a + b;
      assert c[..|c| - 1] == a + b[..|b| - 1];
      PredTotalConcat(a, b[..|b| - 1]);
    } else {
      assert a + b == a;
    }
  }

  lemma PartTotal(xs: seq<PredSignal>)
    requires |xs| <= 1
    ensures PredTotal(xs) == PartPoints(xs)
  {
    if |xs| == 1 {
      assert xs[..0] == [];
    }
  }

  /** The score of five concatenated group outcomes is the sum of their points. */
  lemma PartsTotal(s: seq<PredSignal>, m: seq<PredSignal>, a: seq<PredSignal>, v: seq<PredSignal>, p: seq<PredSignal>)
    requires |s| <= 1 && |m| <= 1 && |a| <= 1 && |v| <= 1 && |p| <= 1
    ensures PredTotal(s + m + a + v + p)
      == PartPoints(s) + PartPoints(m) + PartPoints(a) + PartPoints(v) + PartPoints(p)
  {
    PredTotalConcat(s, m);
    PredTotalConcat(s + m, a);
    PredTotalConcat(s + m + a, v);
    PredTotalConcat(s + m + a + v, p);
    PartTotal(s);
    PartTotal(m);
    PartTotal(a);
    PartTotal(v);
    PartTotal(p);
  }

  /**
   * The five rule groups of simple_prediction_model applied to its
   * readings: each group picks the points to add and the signal to append.
   */
  method PredictionRules(r: PredReadings) returns (score: int, signals: seq<PredSignal>)
    ensures signals == PredFired(r)
    ensures score == PredTotal(signals)
  {
    score, signals := 0, [];
    var points: int, fired: seq<PredSignal>;

    // RSI signals
    points, fired := 0, [];
    if r.rsi < 30.0 {
      points, fired := 15, [RsiOversoldBuy];
    } else if r.rsi > 70.0 {
      points, fired := -10, [RsiOverboughtCaution];
    } else if 45.0 <= r.rsi <= 55.0 {
      points, fired := 5, [RsiNeutral];
    }
    ghost var s := fired;
    assert s == PredRsiRule(r.rsi) && points == PartPoints(s);
    score, signals := score + points, signals + fired;
    assert signals == s;

    // MACD signals
    if r.macd > r.macdSignal {
      points, fired := 15, [MacdBullish];
    } else {
      points, fired := -5, [MacdBearish];
    }
    ghost var m := fired;
    assert m == PredMacdRule(r.macd, r.macdSignal) && points == PartPoints(m);
    score, signals := score + points, signals + fired;

    // Moving average signals
    points, fired := 0, [];
    if r.close > 0.0 && r.sma20 > 0.0 && r.sma50 > 0.0 {
      if r.close > r.sma20 && r.sma20 > r.sma50 {
        points, fired := 20, [StrongUptrend];
      } else if r.close > r.sma20 {
        points, fired := 10, [ShortTermBullish];
      } else {
        points, fired := -10, [BelowMovingAverages];
      }
    }
    ghost var a := fired;
    assert a == PredMaRule(r.close, r.sma20, r.sma50) && points == PartPoints(a);
    score, signals := score + points, signals + fired;

    // Volume signals
    points, fired := 0, [];
    if r.volumeRatio > 2.0 {
      points, fired := 15, [VolumeExplosion];
    } else if r.volumeRatio > 1.5 {
      points, fired := 10, [HighVolume];
    }
    ghost var v := fired;
    assert v == PredVolumeRule(r.volumeRatio) && points == PartPoints(v);
    score, signals := score + points, signals + fired;

    // Price momentum (a missing Close raises inside the inner try: nothing is added)
    points, fired := 0, [];
    if r.prevClose.Some? {
      var prevPrice := r.prevClose.value;
      if prevPrice > 0.0 {
        var priceChange5d := (r.close - prevPrice) / prevPrice;
        if priceChange5d > 0.05 {
          points, fired := 15, [StrongMomentum];
        } else if priceChange5d > 0.02 {
          points, fired := 10, [PositiveMomentum];
        } else if priceChange5d < -0.05 {
          points, fired := -15, [NegativeMomentum];
        }
      }
    }
    ghost var p := fired;
    assert p == PredMomentumRule(r.close, r.prevClose) && points == PartPoints(p);
    score, signals := score + points, signals + fired;

    assert signals == s + m + a + v + p;
    PartsTotal(s, m, a, v, p);
  }

  /**
   * `simple_prediction_model(df)`: the guard, the rule groups, the score
   * clamped to [0, 100] as the confidence, then the predicted change.
   */
  method SimplePredictionModel(df: Frame) returns (predicted: real, confidence: int, signals: seq<PredSignal>)
    requires TooShort(df) || PositiveCloses(df)
    ensures Prediction(predicted, confidence, signals) == Predict(df)
  {
    if IsEmpty(df) || Len(df) < MinPredictionRows {
      return 0.0, 0, [InsufficientData];
    }
    var r := PredReadingsOf(df);
    var score;
    score, signals := PredictionRules(r);
    score := ClampInt(score, 0, 100);
    confidence := score;

    var recentChanges := 0.0;
    if "Close" in df.columns {
      var changes := PctReturns(df.columns["Close"]);
      if |changes| >= 5 {
        recentChanges := Mean(changes[|changes| - 5..]);
      }
    }

    if score > 70 {
      predicted := recentChanges * 1.5 + 0.01;
    } else if score < 30 {
      predicted := recentChanges * 0.5 - 0.01;
    } else {
      predicted := recentChanges;
    }
    predicted := ClampReal(predicted, -0.1, 0.1);
  }

  // ---------------------------------------------------------------------
  // Properties of the prediction
  // ---------------------------------------------------------------------

  /** The raw score of the fired signals lies in [-40, 80]. */
  lemma PredFiredRange(r: PredReadings)
    ensures -40 <= PredTotal(PredFired(r)) <= 80
    ensures 1 <= |PredFired(r)| <= 5
  {
    var s, m := PredRsiRule(r.rsi), PredMacdRule(r.macd, r.macdSignal);
    var a, v := PredMaRule(r.close, r.sma20, r.sma50), PredVolumeRule(r.volumeRatio);
    var p := PredMomentumRule(r.close, r.prevClose);
    PartsTotal(s, m, a, v, p);
    assert -10 <= PartPoints(s) <= 15;
    assert -5 <= PartPoints(m) <= 15;
    assert -10 <= PartPoints(a) <= 20;
    assert 0 <= PartPoints(v) <= 15;
    assert -15 <= PartPoints(p) <= 15;
  }

  /**
   * On enough data the confidence lies in [0, 80] (80 = 15 + 15 + 20 + 15
   * + 15), there are one to five signals, exactly one of them from the MACD
   * group, and the predicted change lies in [-0.1, 0.1].
   */
  lemma PredictionBounds(df: Frame)
    requires PositiveCloses(df) && !TooShort(df)
    ensures 0 <= Predict(df).confidence <= 80
    ensures 1 <= |Predict(df).signals| <= 5
    ensures MacdBullish in Predict(df).signals <==> !(MacdBearish in Predict(df).signals)
    ensures -0.1 <= Predict(df).change <= 0.1
  {
    ScoreBounds(df);
  }

  /**
   * The confidence and signals alone, which never read the returns: on
   * enough data, whatever the prices, the confidence lies in [0, 80] and
   * there are one to five signals, exactly one of them from the MACD group.
   */
  lemma ScoreBounds(df: Frame)
    requires !TooShort(df)
    ensures 0 <= PredConfidence(df) <= 80
    ensures 1 <= |PredSignals(df)| <= 5
    ensures MacdBullish in PredSignals(df) <==> !(MacdBearish in PredSignals(df))
  {
    var r := PredReadingsOf(df);
    PredFiredRange(r);
    PredFiredMacd(r);
    assert PredSignals(df) == PredFired(r);
  }

  /** Exactly one of the two MACD signals fires, whatever the readings. */
  lemma PredFiredMacd(r: PredReadings)
    ensures MacdBullish in PredFired(r) <==> !(MacdBearish in PredFired(r))
  {
    assert MacdBullish !in PredRsiRule(r.rsi) && MacdBearish !in PredRsiRule(r.rsi);
    assert MacdBullish !in PredMaRule(r.close, r.sma20, r.sma50) && MacdBearish !in PredMaRule(r.close, r.sma20, r.sma50);
    assert MacdBullish !in PredVolumeRule(r.volumeRatio) && MacdBearish !in PredVolumeRule(r.volumeRatio);
    assert MacdBullish !in PredMomentumRule(r.close, r.prevClose) && MacdBearish !in PredMomentumRule(r.close, r.prevClose);
  }

  /** Too little data: (0, 0, ["Insufficient data"]). */
  lemma PredictionOnShortData(df: Frame)
    requires TooShort(df)
    ensures Predict(df) == Prediction(0.0, 0, [InsufficientData])
  {
  }

  /**
   * The predicted change by score band: above 70 it extrapolates 1.5 times
   * the recent mean return plus 1%, below 30 half of it minus 1%, otherwise
   * the mean itself, always clamped to [-10%, 10%].
   */
  lemma PredictedChangeBands(score: int, recent: real)
    ensures score > 70 ==> PredictedChange(score, recent) == ClampReal(recent * 1.5 + 0.01, -0.1, 0.1)
    ensures score < 30 ==> PredictedChange(score, recent) == ClampReal(recent * 0.5 - 0.01, -0.1, 0.1)
    ensures 30 <= score <= 70 ==> PredictedChange(score, recent) == ClampReal(recent, -0.1, 0.1)
    ensures -0.1 <= recent <= 0.1 && 30 <= score <= 70 ==> PredictedChange(score, recent) == recent
  {
  }

  /** None of the columns the prediction reads besides Close. */
  predicate NoIndicatorColumns(df: Frame)
  {
    "RSI" !in df.columns && "MACD" !in df.columns && "MACD_Signal" !in df.columns
    && "SMA_20" !in df.columns && "SMA_50" !in df.columns && "Volume_Ratio" !in df.columns
  }

  /** With the safe_get defaults the first two groups always fire "RSI Neutral" and "MACD Bearish". */
  lemma PredictionOnDefaults(r: PredReadings)
    requires r.rsi == 50.0 && r.macd == 0.0 && r.macdSignal == 0.0
    requires r.sma20 == 0.0 && r.sma50 == 0.0 && r.volumeRatio == 1.0
    ensures |PredFired(r)| >= 2 && PredFired(r)[..2] == [RsiNeutral, MacdBearish]
    ensures ClampInt(PredTotal(PredFired(r)), 0, 100) <= 15
  {
    var s, m := PredRsiRule(r.rsi), PredMacdRule(r.macd, r.macdSignal);
    var a, v := PredMaRule(r.close, r.sma20, r.sma50), PredVolumeRule(r.volumeRatio);
    var p := PredMomentumRule(r.close, r.prevClose);
    assert s == [RsiNeutral] && m == [MacdBearish] && a == [] && v == [];
    PartsTotal(s, m, a, v, p);
    assert (s + m + a + v + p)[..2] == [RsiNeutral, MacdBearish];
  }

  /**
   * Fed the unchanged frame that calculate_technical_indicators returns as
   * written (no RSI, MACD or moving-average columns), the model reads the
   * defaults: it always starts with "RSI Neutral" and "MACD Bearish", never
   * scores the moving averages, and its confidence is at most 15.
   */
  lemma PredictionWithoutIndicators(df: Frame)
    requires !TooShort(df) && NoIndicatorColumns(df)
    ensures |PredSignals(df)| >= 2 && PredSignals(df)[..2] == [RsiNeutral, MacdBearish]
    ensures PredConfidence(df) <= 15
  {
    PredictionOnDefaults(PredReadingsOf(df));
  }

  /**
   * The whole as-written pipeline of the prediction tab: the indicators
   * are computed and dropped, so the prediction of a raw price frame
   * scores only the momentum group.
   */
  method PredictFromPrices(df: Frame) returns (prediction: Prediction)
    requires PositiveCloses(df) && !TooShort(df) && NoIndicatorColumns(df)
    ensures |prediction.signals| >= 2 && prediction.signals[..2] == [RsiNeutral, MacdBearish]
    ensures prediction.confidence <= 15
  {
    var withIndicators := CalculateTechnicalIndicators(df);
    var predicted, confidence, signals := SimplePredictionModel(withIndicators);
    PredictionWithoutIndicators(df);
    prediction := Prediction(predicted, confidence, signals);
  }
}
