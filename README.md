# volume-screener, modelled in Dafny

volume-screener is a Streamlit app for screening Indian equities. It
downloads daily prices for NSE symbols and computes technical indicators
(RSI, MACD, moving averages, volume ratios). It scores each stock with a
rule-based engine and lists the stocks that pass a minimum score:

- across a user selection (the screener page);
- sector by sector (the sector page);
- on a per-session watchlist.

A simulation page adds a heuristic next-move prediction. A separate check
reports volume surges.

This project models that core. Each source file has its own module. The
modules share these helpers:

- `Numeric`: sums, means, min/max, clamps. It also has numpy's quotient, which gives inf or NaN on a zero divisor instead of raising.
- `Frames`: a data frame as a row count plus named real columns.
- `OrderedDict`: a Python dict with insertion order and last-value-wins.
- `Ranking`: Python's stable `sorted(..., reverse=True)`.
- `Wrappers`: `Option`.

The modelled code has three forms:

- Pure indicator code (`Technicals`, the column formulas of `Sim`) is functions over `seq<real>`.
- Step-by-step code is methods with loops, proved equal to a specification function:
  - the scorers `ScoreEngine.ScoreReadings` and `Sim.PredictionRules`;
  - the fetch fallback loop;
  - the screener and sector loops;
  - the sector-map loop.
- Session and frame state that the source mutates in place is classes:
  - the watchlist in `st.session_state` is `Watchlist.Session`;
  - the frame that the surge check extends and `dropna`s is `App.VolumeTable`.

Downloads, `fetch` calls and CSV rows are parameters of the model.

Three consequences of the code are worth stating plainly:

- `score_stock` never clips its score, so scores range over [-1, 17].
- The RSI of a flat series is 0: the zero average loss is replaced by 1e-10 and the average gain is 0.
- RSI never reaches 100.

## Model

| member | source | states |
|---|---|---|
| ScoreEngine.ScoreReadings | score_engine.py:13-57 | the six if/elif groups, run in order on accumulators, return exactly the fired signals and the sum of their points |
| ScoreEngine.ScoreStock | score_engine.py:5-59 | the result is the signals of the six groups and their point total; an empty frame, fewer than 20 rows or a missing Close/High/Volume column returns (0, []) |
| ScoreEngine.FiredPoints | score_engine.py:13-57 | the score is the sum of the points contributed by each group independently |
| ScoreEngine.FiredPointsRange | score_engine.py:13-57 | for any readings the score lies in [-1, 17] and at most six signals fire |
| ScoreEngine.ScoreRange | score_engine.py:5-59 | score_stock's score lies in [-1, 17], with no clipping, and it returns at most six signals |
| ScoreEngine.ScoreExtremes | score_engine.py:22-55 | both ends of [-1, 17] are reached by some readings, so the range is tight |
| ScoreEngine.SignalsInGroupOrder | score_engine.py:22-55 | signals appear in group order (volume, RSI, MACD, day move, MA, breakout), at most one per group |
| ScoreEngine.FiredMember | score_engine.py:22-55 | a signal is returned iff its own group fires it |
| ScoreEngine.VolumeGroup | score_engine.py:22-25 | with ratio = mean(last 3)/mean(last 20): Explosive iff ratio > 3; High iff 2 < ratio <= 3; Above Avg iff 1.5 < ratio <= 2 |
| ScoreEngine.RsiGroup | score_engine.py:28-33 | Strong Momentum iff 55 < rsi < 75; Oversold iff rsi < 30; Overbought iff rsi > 80 |
| ScoreEngine.MacdGroup | score_engine.py:36-39 | Crossover iff macd > signal now and macd <= signal one row before; Above Signal iff macd > signal on both rows |
| ScoreEngine.DayMoveGroup | score_engine.py:41-46 | Strong Move iff the one-day change exceeds 5%; Moderate iff it lies in (2%, 5%] |
| ScoreEngine.MaAlignmentGroup | score_engine.py:48-50 | Bullish MA Alignment iff close > SMA20 > SMA50 on the last row |
| ScoreEngine.BreakoutGroup | score_engine.py:52-55 | Breakout iff the last close is at least every one of the last 20 highs |
| ScoreEngine.FlatSeriesScore | score_engine.py:16-55 | a flat price and volume series fires exactly RSI Oversold and Breakout, scoring 4 |
| ScoreEngine.TripledVolumeIsHigh | score_engine.py:22-25 | tripling the volume for the last 3 of 20 days gives a ratio of 3/1.3 (about 2.31), which is High Volume, not Explosive |
| Technicals.RollingMean | technicals.py:21-22 | the rolling mean keeps the input's length |
| Technicals.SmoothedMaFirst | technicals.py:21-22 | the smoothed MA keeps the length and starts at prices[0] |
| Technicals.SmoothedMaWithinWindow | technicals.py:21-22 | element i lies between the min and max of prices[max(0, i-window+1)..i] |
| Technicals.RollingMeanWithin | technicals.py:21-22 | prices within [lo, hi] give rolling means within [lo, hi] |
| Technicals.SmoothedMaOfConstant | technicals.py:21-22 | a constant series has a constant smoothed MA |
| Technicals.Delta | technicals.py:5 | the differences keep the length of the prices |
| Technicals.GainsLossesNonNegative | technicals.py:6-7 | gains lie in [0, max rise] and losses in [0, max fall] |
| Technicals.RsiFromAveragesRange | technicals.py:10-12 | non-negative average gain and loss give an RSI in [0, 100), because the loss is floored at 1e-10 |
| Technicals.RsiRange | technicals.py:4-12 | every RSI value lies in [0, 100) |
| Technicals.RsiStartsAtZero | technicals.py:5-12 | the first RSI is 0, because the first difference is 0 |
| Technicals.RsiOfConstant | technicals.py:4-12 | a constant price series has RSI 0 everywhere |
| Technicals.Alpha | technicals.py:15-18 | alpha = 2/(span+1) lies in (0, 1] |
| Technicals.Normaliser | technicals.py:15-18 | the weight total that ewm divides by is at least 1 |
| Technicals.EwmMean | technicals.py:15-18 | the adjusted ewm keeps the length of its input |
| Technicals.EwmMeanRecurrence | technicals.py:15-18 | pandas' adjusted recurrence: each mean is the new value plus (1-alpha) times the previous mean at its total weight, over the new total weight |
| Technicals.EwmMeanWithin | technicals.py:15-18 | inputs within [lo, hi] give an ewm within [lo, hi] |
| Technicals.WeightedAverageWithin | technicals.py:15-18 | a weighted average of values in [lo, hi] lies in [lo, hi] |
| Technicals.EwmMeanFirst | technicals.py:15-16 | the ewm starts at the first price |
| Technicals.EwmMeanOfConstant | technicals.py:15-18 | a constant series has a constant ewm |
| Technicals.Macd | technicals.py:14-19 | the MACD line and signal keep the length of the prices |
| Technicals.MacdStartsAtZero | technicals.py:14-19 | macd[0] = signal[0] = 0 |
| Technicals.MacdOfConstant | technicals.py:14-19 | a constant price series gives MACD and signal all zero |
| Sim.EmaFirst | sim.py:84 | the recursive EMA starts at the first value |
| Sim.EmaRecurrence | sim.py:84-90 | e[t] = alpha*x[t] + (1-alpha)*e[t-1] |
| Sim.EmaWithin | sim.py:84-90 | inputs within [lo, hi] give an EMA within [lo, hi] |
| Sim.EmaOfConstant | sim.py:84-90 | a constant series has a constant EMA |
| Sim.RsiColumnIsRsi | sim.py:72-79 | the Series-based RSI column (NaN first difference replaced by 0, zero loss by 1e-10) equals technicals' RSI |
| Sim.MacdColumnOfConstant | sim.py:87-90 | constant closes give MACD and MACD_Signal columns of zeros |
| Sim.VolumeRatioMeaning | sim.py:93-97 | Volume_Ratio times the 20-day volume mean is the volume; a zero mean divides by 1e-10 |
| Sim.VolumeRatioOfConstant | sim.py:93-97 | constant positive volume gives a ratio of 1 everywhere |
| Sim.IndicatorColumns | sim.py:72-97 | the eight indicator columns are produced, each as long as the input |
| Sim.WithIndicators | sim.py:69-97 | the indicator frame keeps the rows and every other column and adds the eight columns |
| Sim.IndicatorsOfFlatSeries | sim.py:72-97 | flat closes and volume give RSI 0, SMA/EMA equal to the price, MACD 0 and Volume_Ratio 1 |
| Sim.FillNa | sim.py:106 | fillna succeeds iff its method name, lower-cased, is pad, ffill, backfill or bfill, and then leaves gap-free columns unchanged |
| Sim.FillMethodIgnoresCase | sim.py:106 | a method name is accepted iff its lower-cased form is; 'FFILL' and 'Pad' are accepted |
| Sim.FillNumericColumns | sim.py:103-106 | the fill loop completes iff both method names are accepted, and then returns the frame unchanged |
| Sim.IndicatorsWithFill | sim.py:63-112 | with accepted fill methods and at least 20 rows with Close and Volume, the result is the indicator frame; otherwise it is the input |
| Sim.CalculateTechnicalIndicators | sim.py:63-112 | as written, the result is always the input frame |
| Sim.ForwardIsRejected | sim.py:106 | 'forward' and 'backward' are rejected in any letter case; 'ffill' and 'bfill' are accepted |
| Sim.CalculateTechnicalIndicatorsFixed | sim.py:63-112 | with 'ffill'/'bfill', a frame of at least 20 rows with Close and Volume gets the indicator columns; otherwise it is returned unchanged |
| Sim.PredictionRules | sim.py:131-199 | the accumulator pass returns exactly the fired prediction signals and their point total |
| Sim.SimplePredictionModel | sim.py:114-227 | the method computes the prediction function: change, confidence and signals |
| Sim.PredFiredRange | sim.py:131-199 | the raw score lies in [-40, 80], with 1 to 5 signals |
| Sim.PredictionBounds | sim.py:131-223 | confidence is in [0, 80]; there are 1 to 5 signals; exactly one of MACD Bullish/Bearish appears; predicted change is in [-0.1, 0.1] |
| Sim.ScoreBounds | sim.py:131-202 | on at least 30 rows, whatever the prices, confidence is in [0, 80], there are 1 to 5 signals, and exactly one of MACD Bullish/Bearish appears |
| Sim.PredictionOnShortData | sim.py:117-118 | an empty frame or fewer than 30 rows gives (0, 0, ["Insufficient data"]) |
| Sim.PredictedChange | sim.py:214-221 | the predicted change lies in [-0.1, 0.1] |
| Sim.PredictedChangeBands | sim.py:214-221 | score > 70 gives 1.5m+0.01, score < 30 gives 0.5m-0.01, otherwise m, each clamped to [-0.1, 0.1] |
| Sim.PredictionOnDefaults | sim.py:122-179 | with every indicator at its safe_get default, the signals start RSI Neutral, MACD Bearish and confidence is at most 15 |
| Sim.PredictionWithoutIndicators | sim.py:114-202 | on at least 30 rows without indicator columns, whatever the prices, the signals start RSI Neutral, MACD Bearish and the confidence is at most 15 |
| Sim.PredictFromPrices | sim.py:114-202 | on raw prices, the method's prediction starts RSI Neutral, MACD Bearish with confidence at most 15 |
| Screener.RunScreener | screener.py:18-29 | the page lists the scan results for the selection, sorted by score from high to low |
| Screener.ScannedMembers | screener.py:20-25 | a result exists iff a selected symbol's frame is non-empty and scores at least the minimum; it carries score_stock's score, signals and frame |
| Screener.ScannedInSelectionOrder | screener.py:20-25 | results come in selection order |
| Screener.ScreenerListing | screener.py:29 | the listing is sorted by score, is a permutation of the results, keeps equal scores in scan order, and every entry passes |
| Screener.MinimumAboveMaximumListsNothing | screener.py:15-25 | a minimum above 17 lists nothing |
| Sector.RunSectorAnalysis | sector.py:17-38 | one report per selected sector, each computed from that sector's stocks only |
| Sector.AnalyseSector | sector.py:19-35 | a sector's pass yields that sector's report |
| Sector.ScanSector | sector.py:21-28 | the inner loop skips empty frames and keeps stocks scoring at least the minimum, in dictionary order |
| Sector.ListTop | sector.py:31-35 | the listing is the first ten of the score-sorted results, each cut to four signals |
| Sector.FilteredMembers | sector.py:22-28 | a row is kept iff its stock is in the sector, its frame is non-empty and its score is at least the minimum; the row carries name, score, signals and frame |
| Sector.TopRows | sector.py:31-33 | the first ten are sorted, drawn from the results, and all of them when there are ten or fewer |
| Sector.SectorReportShape | sector.py:21-35 | at most ten lines, sorted by score; every line is a passing stock of the sector with at most its first four signals |
| Ranking.SortDescSorted | screener.py:29 | sorting gives non-increasing keys |
| Ranking.SortDescPermutation | screener.py:29 | sorting is a permutation |
| Ranking.SortDescStable | sector.py:31 | elements with equal keys keep their relative order |
| Ranking.SortDescMembers | sector.py:31 | sorting keeps exactly the same members |
| Ranking.Take | sector.py:33 | a slice [:n] is a prefix of at most n elements, and the whole list when it is short |
| Watchlist.Session.InitWatchlist | watchlist.py:17-18 | an absent watchlist becomes the three defaults; an existing one is kept |
| Watchlist.Session.AddToWatchlist | watchlist.py:20-23 | adds the upper-cased symbol when it is non-empty and not listed, keeping the list free of repeats |
| Watchlist.Session.RemoveSelected | watchlist.py:25-29 | removes the picked symbols one by one, keeping the list free of repeats |
| Watchlist.DefaultsDistinct | watchlist.py:18 | the defaults contain no repeats |
| Watchlist.AddedKeepsDistinct | watchlist.py:21-23 | add keeps the list free of repeats and the old entries in place; it adds at most the upper-cased input, adds nothing on empty input, and is idempotent |
| Watchlist.RemovedEachOnDistinct | watchlist.py:26-29 | on a list without repeats, the result is exactly the unpicked symbols in their original order |
| Watchlist.RemoveFirstOnDistinct | watchlist.py:29 | on a list without repeats, `remove` drops exactly that symbol |
| Watchlist.RemoveAbsent | watchlist.py:28-29 | removing an unlisted symbol changes nothing |
| Watchlist.UpperIdempotent | watchlist.py:22-23 | upper-casing twice equals upper-casing once |
| DataFetcher.FetchStockDataWithFallback | data_fetcher.py:4-14 | the loop returns what the first accepted period gives, or the empty frame |
| DataFetcher.Flatten | data_fetcher.py:9-10 | two-level labels become their first component; the cells are unchanged |
| DataFetcher.DropNa | data_fetcher.py:11 | dropna keeps exactly the complete rows, in order |
| DataFetcher.FallbackFirstAccepted | data_fetcher.py:5-11 | the result comes from the first period whose download is non-empty with at least 20 rows; earlier failures and raises are skipped |
| DataFetcher.FallbackNoneAccepted | data_fetcher.py:12-14 | when no period is accepted, the result is the empty frame |
| DataFetcher.NormaliseShape | data_fetcher.py:9-11 | a returned frame has flat labels, no missing cells and no more rows than its download |
| DataFetcher.DropNaOfComplete | data_fetcher.py:11 | a download with no missing cell is returned as is |
| DataFetcher.ShortAfterDropNa | data_fetcher.py:8-11 | an accepted 20-row download with one missing price comes back with 19 rows |
| SymbolUniverse.LoadAllSymbols | symbol_universe.py:4-13 | the loop builds all_symbols and sector_map as the dictionaries specified by the rows |
| SymbolUniverse.InSector | symbol_universe.py:12 | a sector's rows are exactly the rows with that sector, and NaN matches nothing |
| SymbolUniverse.SectorMapShape | symbol_universe.py:10-12 | sector_map has one key per distinct sector, in first-appearance order, and each maps to that sector's stocks |
| SymbolUniverse.MissingSectorIsEmpty | symbol_universe.py:12 | a NaN sector key maps to an empty dictionary |
| SymbolUniverse.SectorStocksMembers | symbol_universe.py:12 | a symbol is in a sector's dictionary iff some row lists it under that sector |
| SymbolUniverse.AllSymbolsLastWins | symbol_universe.py:9 | every symbol is a key; its company comes from its last row; keys appear in first-appearance order |
| OrderedDict.FromPairsLastWins | symbol_universe.py:9 | dict(pairs) has exactly the keys of the pairs, each with its last value |
| OrderedDict.FromPairsKeys | symbol_universe.py:9 | dict(pairs) orders its keys by first appearance |
| OrderedDict.UniqueProperties | symbol_universe.py:11 | unique() has no repeats, the same members, and first-appearance order |
| Numeric.Divide | score_engine.py:22 | numpy division: for a non-zero divisor a finite quotient that times the divisor gives back the dividend; otherwise +inf, -inf or NaN by the sign of the dividend |
| Numeric.MeanWithin | score_engine.py:22 | a mean of values in [lo, hi] lies in [lo, hi] |
| Numeric.ClampInt | sim.py:201 | max(0, min(100, score)) lies in the bounds and is the identity inside them |
| App.TenDayAverages | app.py:22 | row i holds the mean of the ten volumes before it, undefined for the first ten rows |
| App.VolumeTable.AddTenDayAverage | app.py:22 | adds the shifted ten-day average column, leaving the volumes as they are |
| App.VolumeTable.DropMissingAverages | app.py:25 | drops the rows whose average is undefined |
| App.DropUndefinedAverages | app.py:22-25 | after dropna, exactly the rows from the eleventh on remain |
| App.LastRowAfterDrop | app.py:25-35 | the last remaining row holds the last volume and the mean of the ten before it |
| App.CheckVolumeSurge | app.py:2-53 | the check as documented returns the surge verdict on the downloaded volumes |
| App.CheckVolumeSurgeAsWritten | app.py:7-53 | as written, the check always returns None |
| App.SurgeIff | app.py:19-48 | a record is returned iff there are at least 11 volumes, the ten-day mean is non-zero, and last/mean > 2; it carries the symbol, both volumes and the ratio |
| App.SurgeMeansDoubled | app.py:19-48 | a raised download or fewer than 11 rows gives None; with non-negative volumes, a surge means the last volume exceeds twice a positive mean |
| App.ThreefoldSurge | app.py:19-48 | ten days of volume 1 then volume 3 is reported as a surge of ratio 3 with both volumes |
| App.MissedSurge | app.py:7-53 | on that input the check as written returns None while the check as documented returns the threefold record |

## Left out

- The Streamlit pages themselves are not modelled: rendering, widgets, charts (`charting.py`) and `single_stock.py`. The watchlist's display loop (watchlist.py:31-41) only fetches, scores and renders.
- `monte_carlo_simple` (sim.py:229-250) is not modelled: it draws random normals.
- The Streamlit UI of the simulation page (sim.py:252-519) is not modelled.
- The Volatility column (sim.py:100) is not modelled: a rolling standard deviation needs square roots over floats. The fill loop treats it like the other indicator columns.
- The downloads `yf.download`, `pd.read_csv`, the `st.cache_data` TTL cache, `time.sleep` and `st.error`/`print` are not modelled. Downloads and CSV rows are parameters of the model.
- Arithmetic is over exact reals. IEEE rounding is not modelled. numpy's zero division is modelled only where score_stock divides, through `Numeric.Divide`.
- Upper-casing (watchlist symbols) and lower-casing (fill method names) cover ASCII letters only.
- Frames with repeated column labels are not modelled.
- `fetch_stock_data`, which sector.py:4, watchlist.py:10 and single_stock.py:2 import, is not defined in data_fetcher.py and is not part of this model. As written, those imports raise ImportError, so the sector and watchlist pages do not load at all. The model describes the pages as they would run with a fetch function. That fetch is a function parameter from symbol to frame, and every call for a symbol returns the same frame.
- `st` is used in symbol_universe.py:3 without an import. The model ignores the decorator and builds the dictionaries from the rows.
- App.CheckVolumeSurge: does not model the `.values[0]` label handling at app.py:34-35, NaN volumes, or the 40-day date window. The download is given as the volumes of the window. It models the check as the docstring at app.py:2-5 documents it, not the code with its imports added. Read from pandas' code, with the imports added the code would still return None on both label shapes. With two-level (field, ticker) labels, the new column is labelled `('10d_avg_vol', '')`, so `dropna(subset=['10d_avg_vol'])` at app.py:25 cannot find a plain-string label and raises KeyError. With single-level labels, `last_day['Volume']` at app.py:34 is a numpy scalar with no `.values`, so it raises AttributeError. The handler at app.py:51-53 catches both.
- App.CheckVolumeSurge: the `data.empty` test after dropna (app.py:26-27) cannot succeed once 11 rows are present, so the model has no branch for it.
- Sim.SimplePredictionModel: requires positive closes on frames of 30 rows or more, because `pct_change` on a zero price gives inf/NaN. The signals and confidence (`Sim.PredSignals`, `Sim.PredConfidence`) need no such requirement. With that requirement its outer `except` (sim.py:225-227) is unreachable, so the "Error in analysis" result is not modelled.
- Sim.PredictionBounds: requires positive closes, for the same reason, because it also bounds the predicted change. Sim.ScoreBounds states its confidence and signal bounds for any prices.
- Sim.PredictFromPrices: requires positive closes, because it runs the whole model, predicted change included. Sim.PredictionWithoutIndicators states the same signal and confidence facts for any prices.
- ScoreEngine.ScoreStock: its only modelled exception is a missing Close, High or Volume column. The other operations cannot raise on a frame of 20 or more real rows.

## Findings

| source | as written | input that shows it | evidently intended | confidence | as-written member | corrected member |
|---|---|---|---|---|---|---|
| sim.py:106 | `fillna(method='forward')` and `fillna(method='backward')` are not methods pandas accepts, so the call raises ValueError and the handler returns the input frame without any indicator columns | any frame with at least 20 rows and Close and Volume columns | fill with 'ffill' and 'bfill' and return the frame with RSI, SMA, EMA, MACD and volume columns | not executed | Sim.CalculateTechnicalIndicators | Sim.CalculateTechnicalIndicatorsFixed |
| app.py:8-9 | `date`, `timedelta` and `yf` are used without being imported, so the first statement raises NameError and the handler returns None for every symbol. Adding the imports is not enough. With two-level labels, `dropna(subset=['10d_avg_vol'])` at app.py:25 does not find the `('10d_avg_vol', '')` column and raises KeyError. With flat labels, `.values[0]` at app.py:34-35 raises AttributeError | ten days of volume 1 followed by a day of volume 3 | report the threefold surge with ratio 3. That also needs `subset=[('10d_avg_vol', '')]` or flattened columns, with scalar extraction that works on both label shapes | not executed | App.CheckVolumeSurgeAsWritten | App.CheckVolumeSurge |
