/**
 * The sector analysis page: for each selected sector, every stock of the
 * sector (in dictionary order) is fetched and scored; stocks whose frame is
 * empty or whose score is below the minimum are dropped; the survivors are
 * sorted by score, highest first, and the first ten are listed, each with
 * its first four signals. Each sector starts from an empty result list.
 *
 * Fetching is a parameter `fetch`, a function of the symbol.
 * fetch_stock_data, which this page imports, is not part of this model.
 */
module Sector {
  import opened Frames
  import opened ScoreEngine
  import opened Ranking
  import opened OrderedDict
  import opened SymbolUniverse

  /** Most stocks listed per sector. */
  const MaxListed := 10
  /** Most signals listed per stock. */
  const MaxSignals := 4

  /** One entry of `filtered_results`: (sym, name, score, signals, df). */
  datatype SectorRow = SectorRow(symbol: string, name: string, score: int, signals: seq<Signal>, df: Frame)

  /** What the page lists for one sector. */
  datatype SectorReport = SectorReport(sector: SectorName, lines: seq<SectorRow>)

  function RowScore(r: SectorRow): int
  {
    r.score
  }

  function RowFor(symbol: string, name: string, df: Frame): SectorRow
  {
    SectorRow(symbol, name, Score(df).0, Score(df).1, df)
  }

  /** `filtered_results` after visiting the symbols `syms` of `stocks`. */
  function Filtered(syms: seq<string>, stocks: ODict<string, string>, minScore: int, fetch: string -> Frame): seq<SectorRow>
    requires forall s | s in syms :: s in stocks.values
  {
    if |syms| == 0 then []
    else
      var sym := syms[|syms| - 1];
      Filtered(syms[..|syms| - 1], stocks, minScore, fetch)
      + (if Passes(fetch(sym), minScore) then [RowFor(sym, stocks.values[sym], fetch(sym))] else [])
  }

  /** A listed line: the row with only its first four signals. */
  function LineOf(r: SectorRow): SectorRow
  {
    SectorRow(r.symbol, r.name, r.score, Take(r.signals, MaxSignals), r.df)
  }

  function Lines(rows: seq<SectorRow>): (ls: seq<SectorRow>)
    ensures |ls| == |rows|
    ensures forall i :: 0 <= i < |rows| ==> ls[i] == LineOf(rows[i])
  {
    if |rows| == 0 then [] else Lines(rows[..|rows| - 1]) + [LineOf(rows[|rows| - 1])]
  }

  /** The report of one sector. */
  function ReportFor(sector: SectorName, stocks: ODict<string, string>, minScore: int, fetch: string -> Frame): SectorReport
    requires Valid(stocks)
  {
    SectorReport(sector, Lines(Take(SortDesc(Filtered(stocks.keys, stocks, minScore, fetch), RowScore), MaxListed)))
  }

  /** The sector analysis run over the selected sectors (chosen among the map's keys). */
  method RunSectorAnalysis(sectorMap: ODict<SectorName, ODict<string, string>>, selected: seq<SectorName>,
                           minScore: int, fetch: string -> Frame)
    returns (reports: seq<SectorReport>)
    requires forall s | s in sectorMap.values :: Valid(sectorMap.values[s])
    requires forall s | s in selected :: s in sectorMap.values
    ensures |reports| == |selected|
    ensures forall i :: 0 <= i < |selected| ==>
              reports[i] == ReportFor(selected[i], sectorMap.values[selected[i]], minScore, fetch)
  {
    reports := [];
    for k := 0 to |selected|
      invariant |reports| == k
      invariant forall i :: 0 <= i < k ==>
                  reports[i] == ReportFor(selected[i], sectorMap.values[selected[i]], minScore, fetch)
    {
      var sector := selected[k];
      var report := AnalyseSector(sector, sectorMap.values[sector], minScore, fetch);
      reports := reports + [report];
    }
  }

  /** One sector's pass: scan its stocks in order, then list the ten best. */
  method AnalyseSector(sector: SectorName, stocks: ODict<string, string>, minScore: int, fetch: string -> Frame)
    returns (report: SectorReport)
    requires Valid(stocks)
    ensures report == ReportFor(sector, stocks, minScore, fetch)
  {
    var filtered := ScanSector(stocks, minScore, fetch);
    var lines := [];
    if |filtered| > 0 {
      lines := ListTop(filtered);
    }
    report := SectorReport(sector, lines);
  }

  /** The inner loop over the sector's stocks: fetch, skip empty frames, score, filter. */
  method ScanSector(stocks: ODict<string, string>, minScore: int, fetch: string -> Frame)
    returns (filtered: seq<SectorRow>)
    requires Valid(stocks)
    ensures filtered == Filtered(stocks.keys, stocks, minScore, fetch)
  {
    filtered := [];
    for j := 0 to |stocks.keys|
      invariant filtered == Filtered(stocks.keys[..j], stocks, minScore, fetch)
    {
      assert stocks.keys[..j + 1][..j] == stocks.keys[..j];
      var sym := stocks.keys[j];
      var name := stocks.values[sym];
      var df := fetch(sym);
      if IsEmpty(df) {
        continue;
      }
      var score, signals := ScoreStock(df);
      if score >= minScore {
        filtered := filtered + [SectorRow(sym, name, score, signals, df)];
      }
    }
    assert stocks.keys[..|stocks.keys|] == stocks.keys;
  }

  /** Sort by score, keep the first ten and cut each one's signals to four. */
  method ListTop(filtered: seq<SectorRow>) returns (lines: seq<SectorRow>)
    ensures lines == Lines(Take(SortDesc(filtered, RowScore), MaxListed))
  {
    var top := Take(SortDesc(filtered, RowScore), MaxListed);
    lines := [];
    for j := 0 to |top|
      invariant lines == Lines(top[..j])
    {
      assert top[..j + 1][..j] == top[..j];
      lines := lines + [LineOf(top[j])];
    }
    assert top[..|top|] == top;
  }

  /**
   * A row is in a sector's result list exactly for each stock of the sector
   * whose frame is non-empty and scores at least the minimum; it carries
   * the stock's name, score, signals and frame.
   */
  lemma {:induction false} FilteredMembers(syms: seq<string>, stocks: ODict<string, string>, minScore: int, fetch: string -> Frame)
    requires forall s | s in syms :: s in stocks.values
    ensures |Filtered(syms, stocks, minScore, fetch)| <= |syms|
    ensures forall r :: r in Filtered(syms, stocks, minScore, fetch) <==>
              r.symbol in syms && Passes(r.df, minScore) && r.df == fetch(r.symbol)
              && r == RowFor(r.symbol, stocks.values[r.symbol], r.df)
  {
    if |syms| > 0 {
      var init, sym := syms[..|syms| - 1], syms[|syms| - 1];
      FilteredMembers(init, stocks, minScore, fetch);
      var pre := Filtered(init, stocks, minScore, fetch);
      var tail := if Passes(fetch(sym), minScore) then [RowFor(sym, stocks.values[sym], fetch(sym))] else [];
      assert Filtered(syms, stocks, minScore, fetch) == pre + tail;
      assert syms == init + [sym];
      forall r: SectorRow ensures r in pre + tail <==>
          r.symbol in syms && Passes(r.df, minScore) && r.df == fetch(r.symbol)
          && r == RowFor(r.symbol, stocks.values[r.symbol], r.df)
      {
        assert r in pre + tail <==> r in pre || r in tail;
        assert r.symbol in syms <==> r.symbol in init || r.symbol == sym;
      }
    }
  }

  /** The ten best of a result list: sorted, drawn from the list, all of it when it is short. */
  lemma TopRows(filtered: seq<SectorRow>)
    ensures var top := Take(SortDesc(filtered, RowScore), MaxListed);
      && |top| <= MaxListed
      && (forall i, j :: 0 <= i < j < |top| ==> top[i].score >= top[j].score)
      && (forall r | r in top :: r in filtered)
      && (|filtered| <= MaxListed ==> |top| == |filtered|)
  {
    var sorted := SortDesc(filtered, RowScore);
    var top := Take(sorted, MaxListed);
    SortDescSorted(filtered, RowScore);
    SortDescPermutation(filtered, RowScore);
    SortDescMembers(filtered, RowScore);
    forall i, j | 0 <= i < j < |top| ensures top[i].score >= top[j].score {
      assert top[i] == sorted[i] && top[j] == sorted[j];
    }
    forall r | r in top ensures r in filtered {
      var i :| 0 <= i < |top| && top[i] == r;
      assert sorted[i] in sorted;
    }
  }

  /**
   * A sector's report lists at most ten passing stocks of that sector, by
   * score from high to low, each with at most its first four signals; when
   * no more than ten pass, every passing stock is listed.
   */
  lemma SectorReportShape(sector: SectorName, stocks: ODict<string, string>, minScore: int, fetch: string -> Frame)
    requires Valid(stocks)
    ensures var lines := ReportFor(sector, stocks, minScore, fetch).lines;
      && |lines| <= MaxListed
      && (forall i, j :: 0 <= i < j < |lines| ==> lines[i].score >= lines[j].score)
      && (forall l | l in lines ::
            l.symbol in stocks.values && l.name == stocks.values[l.symbol]
            && Passes(l.df, minScore) && l.df == fetch(l.symbol)
            && l.score == Score(l.df).0 && l.score >= minScore
            && l.signals <= Score(l.df).1 && |l.signals| <= MaxSignals)
      && (|Filtered(stocks.keys, stocks, minScore, fetch)| <= MaxListed ==>
            |lines| == |Filtered(stocks.keys, stocks, minScore, fetch)|)
  {
    var filtered := Filtered(stocks.keys, stocks, minScore, fetch);
    var top := Take(SortDesc(filtered, RowScore), MaxListed);
    var lines := Lines(top);
    FilteredMembers(stocks.keys, stocks, minScore, fetch);
    TopRows(filtered);
    forall l | l in lines
      ensures l.symbol in stocks.values && l.name == stocks.values[l.symbol]
      ensures Passes(l.df, minScore) && l.df == fetch(l.symbol)
      ensures l.score == Score(l.df).0 && l.score >= minScore
      ensures l.signals <= Score(l.df).1 && |l.signals| <= MaxSignals
    {
      var i :| 0 <= i < |lines| && lines[i] == l;
      assert top[i] in top;
    }
  }
}
