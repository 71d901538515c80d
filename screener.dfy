/**
 * The screener page: every selected symbol is fetched and scored once, in
 * selection order; symbols whose frame is empty or whose score is below the
 * minimum are dropped; the rest are listed by score, highest first, ties in
 * selection order.
 *
 * Fetching is a parameter `fetch`: it stands for
 * fetch_stock_data_with_fallback with its default period (see DataFetcher),
 * which the model treats as a function of the symbol.
 */
module Screener {
  import opened Frames
  import opened ScoreEngine
  import opened Ranking
  import opened OrderedDict

  /** One entry of `results`: symbol, score, signals and the frame scored. */
  datatype ScreenResult = ScreenResult(symbol: string, score: int, signals: seq<Signal>, df: Frame)

  function ScoreOf(r: ScreenResult): int
  {
    r.score
  }

  function ResultFor(symbol: string, df: Frame): ScreenResult
  {
    ScreenResult(symbol, Score(df).0, Score(df).1, df)
  }

  /** `results` after scanning `selected`, in scan order. */
  function Scanned(selected: seq<string>, minScore: int, fetch: string -> Frame): seq<ScreenResult>
  {
    if |selected| == 0 then []
    else
      var sym := selected[|selected| - 1];
      Scanned(selected[..|selected| - 1], minScore, fetch)
      + (if Passes(fetch(sym), minScore) then [ResultFor(sym, fetch(sym))] else [])
  }

  /**
   * The screener run: scan the selection, then list the results by score,
   * highest first.
   */
  method RunScreener(selected: seq<string>, minScore: int, fetch: string -> Frame) returns (shown: seq<ScreenResult>)
    ensures shown == SortDesc(Scanned(selected, minScore, fetch), ScoreOf)
  {
    var results := [];
    for k := 0 to |selected|
      invariant results == Scanned(selected[..k], minScore, fetch)
    {
      assert selected[..k + 1][..k] == selected[..k];
      var sym := selected[k];
      var df := fetch(sym);
      if !IsEmpty(df) {
        var score, signals := ScoreStock(df);
        if score >= minScore {
          results := results + [ScreenResult(sym, score, signals, df)];
        }
      }
    }
    assert selected[..|selected|] == selected;
    shown := SortDesc(results, ScoreOf);
  }

  /**
   * A result is listed exactly for each selected symbol whose frame is
   * non-empty and scores at least the minimum, and it carries that frame
   * with its score and signals unchanged.
   */
  lemma {:induction false} ScannedMembers(selected: seq<string>, minScore: int, fetch: string -> Frame)
    ensures |Scanned(selected, minScore, fetch)| <= |selected|
    ensures forall r :: r in Scanned(selected, minScore, fetch) <==>
              r.symbol in selected && r.df == fetch(r.symbol) && Passes(r.df, minScore) && r == ResultFor(r.symbol, r.df)
  {
    if |selected| > 0 {
      var init, sym := selected[..|selected| - 1], selected[|selected| - 1];
      ScannedMembers(init, minScore, fetch);
      var pre := Scanned(init, minScore, fetch);
      var tail := if Passes(fetch(sym), minScore) then [ResultFor(sym, fetch(sym))] else [];
      assert Scanned(selected, minScore, fetch) == pre + tail;
      assert selected == init + [sym];
      forall r: ScreenResult ensures r in pre + tail <==>
          r.symbol in selected && r.df == fetch(r.symbol) && Passes(r.df, minScore) && r == ResultFor(r.symbol, r.df)
      {
        assert r in pre + tail <==> r in pre || r in tail;
        assert r.symbol in selected <==> r.symbol in init || r.symbol == sym;
      }
    }
  }

  /** Results come in selection order (the selection lists each symbol once). */
  lemma {:induction false} ScannedInSelectionOrder(selected: seq<string>, minScore: int, fetch: string -> Frame)
    requires Distinct(selected)
    ensures forall r | r in Scanned(selected, minScore, fetch) :: r.symbol in selected
    ensures forall i, j :: 0 <= i < j < |Scanned(selected, minScore, fetch)| ==>
              FirstIndex(selected, Scanned(selected, minScore, fetch)[i].symbol)
              < FirstIndex(selected, Scanned(selected, minScore, fetch)[j].symbol)
  {
    ScannedMembers(selected, minScore, fetch);
    if |selected| > 0 {
      var init, last := selected[..|selected| - 1], selected[|selected| - 1];
      ScannedInSelectionOrder(init, minScore, fetch);
      ScannedMembers(init, minScore, fetch);
      assert selected == init + [last];
      forall y | y in init ensures FirstIndex(selected, y) == FirstIndex(init, y) {
        FirstIndexPrefix(init, [last], y);
      }
      assert last !in init;
      assert FirstIndex(selected, last) == |selected| - 1;
    }
  }

  /**
   * What the page lists: exactly the passing results, by score from high to
   * low, results with equal scores in scan order.
   */
  lemma ScreenerListing(selected: seq<string>, minScore: int, fetch: string -> Frame)
    ensures var shown := SortDesc(Scanned(selected, minScore, fetch), ScoreOf);
      && SortedDesc(shown, ScoreOf)
      && multiset(shown) == multiset(Scanned(selected, minScore, fetch))
      && (forall s :: WithKey(shown, ScoreOf, s) == WithKey(Scanned(selected, minScore, fetch), ScoreOf, s))
      && (forall r | r in shown :: r.score >= minScore && !IsEmpty(r.df) && r.symbol in selected)
  {
    var scanned := Scanned(selected, minScore, fetch);
    SortDescSorted(scanned, ScoreOf);
    SortDescPermutation(scanned, ScoreOf);
    SortDescMembers(scanned, ScoreOf);
    forall s ensures WithKey(SortDesc(scanned, ScoreOf), ScoreOf, s) == WithKey(scanned, ScoreOf, s) {
      SortDescStable(scanned, ScoreOf, s);
    }
    ScannedMembers(selected, minScore, fetch);
  }

  /**
   * No stock scores above 17, so a minimum of 18 or more (the slider goes to
   * 20) lists nothing.
   */
  lemma {:induction false} MinimumAboveMaximumListsNothing(selected: seq<string>, minScore: int, fetch: string -> Frame)
    requires minScore > 17
    ensures Scanned(selected, minScore, fetch) == []
  {
    if |selected| > 0 {
      MinimumAboveMaximumListsNothing(selected[..|selected| - 1], minScore, fetch);
      ScoreRange(fetch(selected[|selected| - 1]));
    }
  }
}
