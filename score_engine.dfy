/**
 * The technical scoring engine of utils/score_engine.py. `score_stock`
 * reads the Close, High and Volume columns, computes RSI, MACD and two
 * moving averages, and runs six independent if/elif rule groups, each adding
 * a fixed number of points and appending at most one signal. Short or
 * malformed input fails soft to (0, []); the score is never clipped.
 */
module ScoreEngine {
  import opened Numeric
  import opened Frames
  import Technicals

  /** Fewer rows than this score (0, []). */
  const MinRows: nat := 20

  /** The signal strings of score_stock, without their emoji prefixes. */
  datatype Signal =
    | ExplosiveVolume       // "Explosive Volume"
    | HighVolume            // "High Volume"
    | AboveAvgVolume        // "Above Avg Volume"
    | RsiStrongMomentum     // "RSI Strong Momentum Zone"
    | RsiOversold           // "RSI Oversold"
    | RsiOverbought         // "RSI Overbought"
    | MacdBullishCrossover  // "MACD Bullish Crossover"
    | MacdAboveSignal       // "MACD Above Signal"
    | StrongDayMove         // "Strong 1 Day Price Move +5%"
    | ModerateDayMove       // "Moderate 1 Day Move +2%"
    | BullishMaAlignment    // "Bullish MA Alignment"
    | TwentyDayHighBreakout // "20-Day High Breakout"

  /** The rule group a signal belongs to, numbered in evaluation order. */
  function Group(s: Signal): nat
  {
    match s
    case ExplosiveVolume | HighVolume | AboveAvgVolume => 0
    case RsiStrongMomentum | RsiOversold | RsiOverbought => 1
    case MacdBullishCrossover | MacdAboveSignal => 2
    case StrongDayMove | ModerateDayMove => 3
    case BullishMaAlignment => 4
    case TwentyDayHighBreakout => 5
  }

  /** The points added together with each signal. */
  function Points(s: Signal): int
  {
    match s
    case ExplosiveVolume => 4
    case HighVolume => 3
    case AboveAvgVolume => 2
    case RsiStrongMomentum => 3
    case RsiOversold => 2
    case RsiOverbought => -1
    case MacdBullishCrossover => 3
    case MacdAboveSignal => 2
    case StrongDayMove => 2
    case ModerateDayMove => 1
    case BullishMaAlignment => 3
    case TwentyDayHighBreakout => 2
  }

  /** Sum of the points of a list of signals. */
  function TotalPoints(signals: seq<Signal>): int
  {
    if |signals| == 0 then 0
    else TotalPoints(signals[..|signals| - 1]) + Points(signals[|signals| - 1])
  }

  /** The scalar values the rule groups compare against their thresholds. */
  datatype Readings = Readings(
    volumeRatio: Float,     // mean(volume[-3:]) / mean(volume[-20:])
    rsi: real,              // rsi[-1]
    macd: real,             // macd[-1]
    macdSignal: real,       // signal[-1]
    prevMacd: real,         // macd[-2]
    prevMacdSignal: real,   // signal[-2]
    dayChange: Float,       // (close[-1] - close[-2]) / close[-2]
    close: real,            // close[-1]
    sma20: real,            // sma20[-1]
    sma50: real,            // sma50[-1]
    high20: real)           // max(high[-20:])

  /** The readings of a Close/High/Volume triple of at least 20 rows. */
  function ReadingsOf(close: seq<real>, high: seq<real>, volume: seq<real>): Readings
    requires |close| >= MinRows && |high| >= MinRows && |volume| >= MinRows
  {
    var n := |close|;
    var rsi := Technicals.Rsi(close);
    var ms := Technicals.Macd(close);
    var sma20 := Technicals.SmoothedMa(close, 20);
    var sma50 := Technicals.SmoothedMa(close, 50);
    Readings(
      Divide(Mean(volume[|volume| - 3..]), Mean(volume[|volume| - 20..])),
      rsi[n - 1],
      ms.0[n - 1], ms.1[n - 1], ms.0[n - 2], ms.1[n - 2],
      Divide(close[n - 1] - close[n - 2], close[n - 2]),
      close[n - 1], sma20[n - 1], sma50[n - 1],
      Max(high[|high| - 20..]))
  }

  // Each rule group yields at most one signal, highest-priority branch first.

  function VolumeRule(ratio: Float): seq<Signal>
  {
    if Above(ratio, 3.0) then [ExplosiveVolume]
    else if Above(ratio, 2.0) then [HighVolume]
    else if Above(ratio, 1.5) then [AboveAvgVolume]
    else []
  }

  function RsiRule(rsi: real): seq<Signal>
  {
    if 55.0 < rsi < 75.0 then [RsiStrongMomentum]
    else if rsi < 30.0 then [RsiOversold]
    else if rsi > 80.0 then [RsiOverbought]
    else []
  }

  function MacdRule(macd: real, signal: real, prevMacd: real, prevSignal: real): seq<Signal>
  {
    if macd > signal && prevMacd <= prevSignal then [MacdBullishCrossover]
    else if macd > signal then [MacdAboveSignal]
    else []
  }

  function DayMoveRule(change: Float): seq<Signal>
  {
    if Above(change, 0.05) then [StrongDayMove]
    else if Above(change, 0.02) then [ModerateDayMove]
    else []
  }

  function MaRule(close: real, sma20: real, sma50: real): seq<Signal>
  {
    if close > sma20 > sma50 then [BullishMaAlignment] else []
  }

  function BreakoutRule(close: real, high20: real): seq<Signal>
  {
    if close >= high20 then [TwentyDayHighBreakout] else []
  }

  /** The signals that fire for given readings, in group order. */
  function Fired(r: Readings): seq<Signal>
  {
    VolumeRule(r.volumeRatio)
    + RsiRule(r.rsi)
    + MacdRule(r.macd, r.macdSignal, r.prevMacd, r.prevMacdSignal)
    + DayMoveRule(r.dayChange)
    + MaRule(r.close, r.sma20, r.sma50)
    + BreakoutRule(r.close, r.high20)
  }

  /** Whether score_stock gets past its guards and column lookups. */
  predicate Scorable(df: Frame)
  {
    !IsEmpty(df) && Len(df) >= MinRows && "Close" in df.columns && "High" in df.columns && "Volume" in df.columns
  }

  function ReadingsOfFrame(df: Frame): Readings
    requires Scorable(df)
  {
    ReadingsOf(df.columns["Close"], df.columns["High"], df.columns["Volume"])
  }

  /** The signal list score_stock returns for a frame. */
  function ScoreSignals(df: Frame): seq<Signal>
  {
    if Scorable(df) then Fired(ReadingsOfFrame(df)) else []
  }

  /** `score_stock(df)` as a value: (score, signals). */
  function Score(df: Frame): (int, seq<Signal>)
  {
    var signals := ScoreSignals(df);
    (TotalPoints(signals), signals)
  }

  /**
   * The screening pages list a stock when its frame is non-empty and its
   * score reaches the chosen minimum.
   */
  predicate Passes(df: Frame, minScore: int)
  {
    !IsEmpty(df) && Score(df).0 >= minScore
  }

  /**
   * The six rule groups of score_stock applied to computed readings: each
   * if/elif chain picks the points to add and the signal to append.
   */
  method ScoreReadings(r: Readings) returns (score: int, signals: seq<Signal>)
    ensures signals == Fired(r)
    ensures score == TotalPoints(signals)
  {
    score, signals := 0, [];
    var points: int, fired: seq<Signal>;

    // Volume surge points
    points, fired := 0, [];
    if Above(r.volumeRatio, 3.0) {
      points, fired := 4, [ExplosiveVolume];
    } else if Above(r.volumeRatio, 2.0) {
      points, fired := 3, [HighVolume];
    } else if Above(r.volumeRatio, 1.5) {
      points, fired := 2, [AboveAvgVolume];
    }
    ghost var v := fired;
    assert v == VolumeRule(r.volumeRatio) && points == PartPoints(v);
    score, signals := score + points, signals + fired;
    assert signals == v;

    // RSI points
    points, fired := 0, [];
    if 55.0 < r.rsi < 75.0 {
      points, fired := 3, [RsiStrongMomentum];
    } else if r.rsi < 30.0 {
      points, fired := 2, [RsiOversold];
    } else if r.rsi > 80.0 {
      points, fired := -1, [RsiOverbought];
    }
    ghost var s := fired;
    assert s == RsiRule(r.rsi) && points == PartPoints(s);
    score, signals := score + points, signals + fired;

    // MACD points
    points, fired := 0, [];
    if r.macd > r.macdSignal && r.prevMacd <= r.prevMacdSignal {
      points, fired := 3, [MacdBullishCrossover];
    } else if r.macd > r.macdSignal {
      points, fired := 2, [MacdAboveSignal];
    }
    ghost var m := fired;
    assert m == MacdRule(r.macd, r.macdSignal, r.prevMacd, r.prevMacdSignal) && points == PartPoints(m);
    score, signals := score + points, signals + fired;

    // Price momentum
    points, fired := 0, [];
    if Above(r.dayChange, 0.05) {
      points, fired := 2, [StrongDayMove];
    } else if Above(r.dayChange, 0.02) {
      points, fired := 1, [ModerateDayMove];
    }
    ghost var d := fired;
    assert d == DayMoveRule(r.dayChange) && points == PartPoints(d);
    score, signals := score + points, signals + fired;

    // Moving average alignment
    points, fired := 0, [];
    if r.close > r.sma20 > r.sma50 {
      points, fired := 3, [BullishMaAlignment];
    }
    ghost var a := fired;
    assert a == MaRule(r.close, r.sma20, r.sma50) && points == PartPoints(a);
    score, signals := score + points, signals + fired;

    // Breakout detection
    points, fired := 0, [];
    if r.close >= r.high20 {
      points, fired := 2, [TwentyDayHighBreakout];
    }
    ghost var b := fired;
    assert b == BreakoutRule(r.close, r.high20) && points == PartPoints(b);
    score, signals := score + points, signals + fired;

    assert signals == v + s + m + d + a + b;
    assert Fired(r) == v + s + m + d + a + b;
    PartsTotal(v, s, m, d, a, b);
  }

  /**
   * `score_stock(df)`: the guards, then the indicators, then the rule
   * groups. A short or empty frame and a missing column give (0, []).
   */
  method ScoreStock(df: Frame) returns (score: int, signals: seq<Signal>)
    ensures signals == ScoreSignals(df)
    ensures score == TotalPoints(signals)
    ensures IsEmpty(df) || Len(df) < MinRows ==> score == 0 && signals == []
    ensures !("Close" in df.columns && "High" in df.columns && "Volume" in df.columns) ==> score == 0 && signals == []
  {
    if IsEmpty(df) || Len(df) < MinRows {
      return 0, [];
    }
    if !("Close" in df.columns && "High" in df.columns && "Volume" in df.columns) {
      // Indexing the missing column raises KeyError; the bare except returns (0, []).
      return 0, [];
    }
    var r := ReadingsOfFrame(df);
    score, signals := ScoreReadings(r);
  }

  // ---------------------------------------------------------------------
  // Points of the rule groups
  // ---------------------------------------------------------------------

  /** The points of a rule group's outcome (at most one signal). */
  function PartPoints(xs: seq<Signal>): int
    requires |xs| <= 1
  {
    if |xs| == 0 then 0 else Points(xs[0])
  }

  lemma PartTotal(xs: seq<Signal>)
    requires |xs| <= 1
    ensures TotalPoints(xs) == PartPoints(xs)
  {
    if |xs| == 1 {
      assert xs[..0] == [];
    }
  }

  lemma {:induction false} TotalPointsConcat(a: seq<Signal>, b: seq<Signal>)
    ensures TotalPoints(a + b) == TotalPoints(a) + TotalPoints(b)
  {
    if |b| > 0 {
      var c := a + b;
      assert c[..|c| - 1] == a + b[..|b| - 1];
      TotalPointsConcat(a, b[..|b| - 1]);
    } else {
      assert a + b == a;
    }
  }

  /** The score of six concatenated group outcomes is the sum of their points. */
  lemma PartsTotal(v: seq<Signal>, s: seq<Signal>, m: seq<Signal>, d: seq<Signal>, a: seq<Signal>, b: seq<Signal>)
    requires |v| <= 1 && |s| <= 1 && |m| <= 1 && |d| <= 1 && |a| <= 1 && |b| <= 1
    ensures TotalPoints(v + s + m + d + a + b)
      == PartPoints(v) + PartPoints(s) + PartPoints(m) + PartPoints(d) + PartPoints(a) + PartPoints(b)
  {
    TotalPointsConcat(v, s);
    TotalPointsConcat(v + s, m);
    TotalPointsConcat(v + s + m, d);
    TotalPointsConcat(v + s + m + d, a);
    TotalPointsConcat(v + s + m + d + a, b);
    PartTotal(v);
    PartTotal(s);
    PartTotal(m);
    PartTotal(d);
    PartTotal(a);
    PartTotal(b);
  }

  // ---------------------------------------------------------------------
  // Properties of the rule table
  // ---------------------------------------------------------------------

  /** The outcome of rule group g (0 volume … 5 breakout) for given readings. */
  function GroupOutcome(r: Readings, g: nat): seq<Signal>
  {
    if g == 0 then VolumeRule(r.volumeRatio)
    else if g == 1 then RsiRule(r.rsi)
    else if g == 2 then MacdRule(r.macd, r.macdSignal, r.prevMacd, r.prevMacdSignal)
    else if g == 3 then DayMoveRule(r.dayChange)
    else if g == 4 then MaRule(r.close, r.sma20, r.sma50)
    else if g == 5 then BreakoutRule(r.close, r.high20)
    else []
  }

  predicate OnlyGroup(xs: seq<Signal>, g: nat)
  {
    |xs| <= 1 && forall i :: 0 <= i < |xs| ==> Group(xs[i]) == g
  }

  /** Every rule group yields at most one signal, and only signals of its own group. */
  lemma GroupOutcomeShape(r: Readings, g: nat)
    ensures OnlyGroup(GroupOutcome(r, g), g)
  {
  }

  lemma FiredIsGroups(r: Readings)
    ensures Fired(r) == GroupOutcome(r, 0) + GroupOutcome(r, 1) + GroupOutcome(r, 2)
      + GroupOutcome(r, 3) + GroupOutcome(r, 4) + GroupOutcome(r, 5)
  {
  }

  /** A signal fires iff its own group's rule yields it. */
  lemma FiredMember(r: Readings, x: Signal)
    ensures x in Fired(r) <==> x in GroupOutcome(r, Group(x))
  {
    FiredIsGroups(r);
    forall g: nat | g <= 5 ensures OnlyGroup(GroupOutcome(r, g), g) {
      GroupOutcomeShape(r, g);
    }
  }

  /** The score of the fired signals is the sum of the six groups' points. */
  lemma FiredPoints(r: Readings)
    ensures TotalPoints(Fired(r)) ==
      PartPoints(VolumeRule(r.volumeRatio)) + PartPoints(RsiRule(r.rsi))
      + PartPoints(MacdRule(r.macd, r.macdSignal, r.prevMacd, r.prevMacdSignal))
      + PartPoints(DayMoveRule(r.dayChange)) + PartPoints(MaRule(r.close, r.sma20, r.sma50))
      + PartPoints(BreakoutRule(r.close, r.high20))
  {
    PartsTotal(VolumeRule(r.volumeRatio), RsiRule(r.rsi),
      MacdRule(r.macd, r.macdSignal, r.prevMacd, r.prevMacdSignal),
      DayMoveRule(r.dayChange), MaRule(r.close, r.sma20, r.sma50),
      BreakoutRule(r.close, r.high20));
  }

  /** The fired signals of any readings score between -1 and 17, at most six of them. */
  lemma FiredPointsRange(r: Readings)
    ensures -1 <= TotalPoints(Fired(r)) <= 17
    ensures |Fired(r)| <= 6
  {
    FiredPoints(r);
    assert 0 <= PartPoints(VolumeRule(r.volumeRatio)) <= 4;
    assert -1 <= PartPoints(RsiRule(r.rsi)) <= 3;
    assert 0 <= PartPoints(MacdRule(r.macd, r.macdSignal, r.prevMacd, r.prevMacdSignal)) <= 3;
    assert 0 <= PartPoints(DayMoveRule(r.dayChange)) <= 2;
  }

  /**
   * score_stock's score lies in [-1, 17] and it returns at most six
   * signals; the score is not clipped to [0, 20].
   */
  lemma ScoreRange(df: Frame)
    ensures -1 <= Score(df).0 <= 17
    ensures |Score(df).1| <= 6
  {
    if Scorable(df) {
      FiredPointsRange(ReadingsOfFrame(df));
    }
  }

  /** Both ends of the range are reached: the score is not clipped at 0. */
  lemma ScoreExtremes()
    ensures exists r: Readings :: TotalPoints(Fired(r)) == -1
    ensures exists r: Readings :: TotalPoints(Fired(r)) == 17
  {
    var low := Readings(NaN, 90.0, 0.0, 0.0, 0.0, 0.0, NaN, 0.0, 0.0, 0.0, 1.0);
    FiredPoints(low);
    var high := Readings(PosInf, 60.0, 1.0, 0.0, 0.0, 0.0, PosInf, 3.0, 2.0, 1.0, 3.0);
    FiredPoints(high);
  }

  predicate GroupOrdered(signals: seq<Signal>)
  {
    forall i, j :: 0 <= i < j < |signals| ==> Group(signals[i]) < Group(signals[j])
  }

  lemma GroupOrderedConcat(a: seq<Signal>, b: seq<Signal>, g: nat)
    requires GroupOrdered(a) && OnlyGroup(b, g)
    requires forall i :: 0 <= i < |a| ==> Group(a[i]) < g
    ensures GroupOrdered(a + b)
    ensures forall i :: 0 <= i < |a + b| ==> Group((a + b)[i]) < g + 1
  {
  }

  /**
   * Signals come out in group order (volume, RSI, MACD, 1-day move, MA
   * alignment, breakout) with at most one per group.
   */
  lemma SignalsInGroupOrder(df: Frame)
    ensures GroupOrdered(ScoreSignals(df))
  {
    if Scorable(df) {
      var r := ReadingsOfFrame(df);
      FiredIsGroups(r);
      var v, s, m := GroupOutcome(r, 0), GroupOutcome(r, 1), GroupOutcome(r, 2);
      var d, a, b := GroupOutcome(r, 3), GroupOutcome(r, 4), GroupOutcome(r, 5);
      forall g: nat | g <= 5 ensures OnlyGroup(GroupOutcome(r, g), g) {
        GroupOutcomeShape(r, g);
      }
      GroupOrderedConcat([], v, 0);
      assert [] + v == v;
      GroupOrderedConcat(v, s, 1);
      GroupOrderedConcat(v + s, m, 2);
      GroupOrderedConcat(v + s + m, d, 3);
      GroupOrderedConcat(v + s + m + d, a, 4);
      GroupOrderedConcat(v + s + m + d + a, b, 5);
    }
  }

  /**
   * The volume group: with ratio = mean(last 3 volumes) / mean(last 20),
   * "Explosive" (+4) iff ratio > 3, "High" (+3) iff 2 < ratio <= 3, "Above
   * Avg" (+2) iff 1.5 < ratio <= 2.
   */
  lemma VolumeGroup(df: Frame)
    requires Scorable(df)
    ensures var v := df.columns["Volume"];
      var ratio := Divide(Mean(v[|v| - 3..]), Mean(v[|v| - 20..]));
      && (ExplosiveVolume in ScoreSignals(df) <==> Above(ratio, 3.0))
      && (HighVolume in ScoreSignals(df) <==> !Above(ratio, 3.0) && Above(ratio, 2.0))
      && (AboveAvgVolume in ScoreSignals(df) <==> !Above(ratio, 2.0) && Above(ratio, 1.5))
  {
    var r := ReadingsOfFrame(df);
    FiredMember(r, ExplosiveVolume);
    FiredMember(r, HighVolume);
    FiredMember(r, AboveAvgVolume);
  }

  /** The RSI group: strict bounds 55 < rsi < 75 (+3), rsi < 30 (+2), rsi > 80 (-1). */
  lemma RsiGroup(df: Frame)
    requires Scorable(df)
    ensures var c := df.columns["Close"];
      var rsi := Technicals.Rsi(c)[|c| - 1];
      && (RsiStrongMomentum in ScoreSignals(df) <==> 55.0 < rsi < 75.0)
      && (RsiOversold in ScoreSignals(df) <==> rsi < 30.0)
      && (RsiOverbought in ScoreSignals(df) <==> rsi > 80.0)
  {
    var r := ReadingsOfFrame(df);
    FiredMember(r, RsiStrongMomentum);
    FiredMember(r, RsiOversold);
    FiredMember(r, RsiOverbought);
  }

  /**
   * The MACD group: a fresh crossover (last macd above signal, previous
   * macd at or below previous signal) gives +3, a continuing one +2.
   */
  lemma MacdGroup(df: Frame)
    requires Scorable(df)
    ensures var c := df.columns["Close"];
      var n := |c|;
      var line, sig := Technicals.Macd(c).0, Technicals.Macd(c).1;
      && (MacdBullishCrossover in ScoreSignals(df) <==> line[n - 1] > sig[n - 1] && line[n - 2] <= sig[n - 2])
      && (MacdAboveSignal in ScoreSignals(df) <==> line[n - 1] > sig[n - 1] && line[n - 2] > sig[n - 2])
  {
    var r := ReadingsOfFrame(df);
    FiredMember(r, MacdBullishCrossover);
    FiredMember(r, MacdAboveSignal);
  }

  /** The 1-day move group: > 5% gives +2, otherwise > 2% gives +1. */
  lemma DayMoveGroup(df: Frame)
    requires Scorable(df)
    ensures var c := df.columns["Close"];
      var n := |c|;
      var change := Divide(c[n - 1] - c[n - 2], c[n - 2]);
      && (StrongDayMove in ScoreSignals(df) <==> Above(change, 0.05))
      && (ModerateDayMove in ScoreSignals(df) <==> !Above(change, 0.05) && Above(change, 0.02))
  {
    var r := ReadingsOfFrame(df);
    FiredMember(r, StrongDayMove);
    FiredMember(r, ModerateDayMove);
  }

  /** The MA alignment group fires iff close > sma20 > sma50 on the last row. */
  lemma MaAlignmentGroup(df: Frame)
    requires Scorable(df)
    ensures var c := df.columns["Close"];
      var n := |c|;
      BullishMaAlignment in ScoreSignals(df) <==>
        c[n - 1] > Technicals.SmoothedMa(c, 20)[n - 1] > Technicals.SmoothedMa(c, 50)[n - 1]
  {
    FiredMember(ReadingsOfFrame(df), BullishMaAlignment);
  }

  /**
   * The breakout group fires (+2) iff the last close is at or above every
   * one of the last 20 highs.
   */
  lemma BreakoutGroup(df: Frame)
    requires Scorable(df)
    ensures var c, h := df.columns["Close"], df.columns["High"];
      var n := |c|;
      TwentyDayHighBreakout in ScoreSignals(df) <==> forall j :: n - 20 <= j < n ==> h[j] <= c[n - 1]
  {
    var r := ReadingsOfFrame(df);
    FiredMember(r, TwentyDayHighBreakout);
    var c, h := df.columns["Close"], df.columns["High"];
    var n := |c|;
    var w := h[n - 20..];
    assert r.high20 == Max(w) && r.close == c[n - 1];
    if forall j :: n - 20 <= j < n ==> h[j] <= c[n - 1] {
      var k :| 0 <= k < |w| && w[k] == Max(w);
      assert w[k] == h[n - 20 + k];
    } else {
      var j :| n - 20 <= j < n && h[j] > c[n - 1];
      assert w[j - (n - 20)] == h[j];
    }
  }

  /**
   * A flat series (constant close and high c, constant volume) fires only
   * "RSI Oversold" (RSI is 0) and the breakout (close equals the 20-day
   * high): score 4. The MACD lines are both 0, the 1-day move is 0 and
   * close equals both moving averages, so those groups add nothing.
   */
  lemma FlatSeriesScore(df: Frame, c: real, vol: real)
    requires Scorable(df)
    requires AllEqual(df.columns["Close"], c) && AllEqual(df.columns["High"], c)
    requires AllEqual(df.columns["Volume"], vol)
    ensures ScoreSignals(df) == [RsiOversold, TwentyDayHighBreakout]
    ensures Score(df).0 == 4
  {
    var r := ReadingsOfFrame(df);
    FlatReadings(df, c, vol);
    FlatFired(r);
  }

  /** The readings of a flat series. */
  lemma FlatReadings(df: Frame, c: real, vol: real)
    requires Scorable(df)
    requires AllEqual(df.columns["Close"], c) && AllEqual(df.columns["High"], c)
    requires AllEqual(df.columns["Volume"], vol)
    ensures var r := ReadingsOfFrame(df);
      && !Above(r.volumeRatio, 1.5) && r.rsi == 0.0
      && r.macd == r.macdSignal == 0.0 && !Above(r.dayChange, 0.02)
      && r.close == r.sma20 == r.sma50 == r.high20 == c
  {
    var close, high, volume := df.columns["Close"], df.columns["High"], df.columns["Volume"];
    var n := |close|;
    Technicals.RsiOfConstant(close, c);
    Technicals.MacdOfConstant(close, c);
    Technicals.SmoothedMaOfConstant(close, 20, c);
    Technicals.SmoothedMaOfConstant(close, 50, c);
    FlatVolume(volume, vol);
    FlatDayMove(close, c);
    FlatHigh(high, c);
  }

  lemma FlatVolume(volume: seq<real>, vol: real)
    requires |volume| >= MinRows && AllEqual(volume, vol)
    ensures !Above(Divide(Mean(volume[|volume| - 3..]), Mean(volume[|volume| - 20..])), 1.5)
  {
    MeanOfConstant(volume[|volume| - 3..], vol);
    MeanOfConstant(volume[|volume| - 20..], vol);
  }

  lemma FlatDayMove(close: seq<real>, c: real)
    requires |close| >= 2 && AllEqual(close, c)
    ensures !Above(Divide(close[|close| - 1] - close[|close| - 2], close[|close| - 2]), 0.02)
  {
    assert close[|close| - 1] - close[|close| - 2] == 0.0;
  }

  lemma FlatHigh(high: seq<real>, c: real)
    requires |high| >= MinRows && AllEqual(high, c)
    ensures Max(high[|high| - 20..]) == c
  {
    var w := high[|high| - 20..];
    var k :| 0 <= k < |w| && w[k] == Max(w);
    assert w[k] == high[|high| - 20 + k];
  }

  /** The rules on flat readings: RSI 0 is oversold and the close ties the 20-day high. */
  lemma FlatFired(r: Readings)
    requires !Above(r.volumeRatio, 1.5) && r.rsi == 0.0
    requires r.macd == r.macdSignal && !Above(r.dayChange, 0.02)
    requires r.close == r.sma20 == r.sma50 == r.high20
    ensures Fired(r) == [RsiOversold, TwentyDayHighBreakout]
    ensures TotalPoints(Fired(r)) == 4
  {
    assert Fired(r) == [] + [RsiOversold] + [] + [] + [] + [TwentyDayHighBreakout];
    FiredPoints(r);
  }

  /**
   * Volume that triples on the last 3 of 20 equal bars gives a ratio of
   * 3 / 1.3 (the 20-bar mean includes the surge): "High Volume" (+3), not
   * "Explosive Volume".
   */
  lemma TripledVolumeIsHigh(v: real)
    requires v > 0.0
    ensures var vols := seq(17, _ => v) + seq(3, _ => 3.0 * v);
      VolumeRule(Divide(Mean(vols[17..]), Mean(vols))) == [HighVolume]
  {
    var a, b := seq(17, _ => v), seq(3, _ => 3.0 * v);
    var vols := a + b;
    assert vols[17..] == b;
    MeanOfConstant(b, 3.0 * v);
    MeanOfConstant(a, v);
    assert Sum(a) == 17.0 * v;
    assert Sum(b) == 9.0 * v;
    SumConcat(a, b);
    assert Mean(vols) == 26.0 * v / 20.0;
    var ratio := (3.0 * v) / (26.0 * v / 20.0);
    assert ratio * (26.0 * v / 20.0) == 3.0 * v;
    assert ratio * 26.0 == 60.0;
  }
}
