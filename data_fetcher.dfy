/**
 * Price download with period fallback: the requested period is tried
 * first, then "3mo", "1y" and "2y"; the first download that succeeds with
 * at least 20 rows has its two-level column labels flattened to their first
 * level and its incomplete rows dropped. When every attempt fails or is too
 * short, the result is an empty frame.
 *
 * The download itself is a parameter: for a symbol and a period it either
 * raises or returns a table whose cells may be missing (NaN).
 */
module DataFetcher {
  import opened Wrappers

  /** Fewest rows a download must have to be accepted. */
  const MinRows := 20

  /** Column labels: plain names, or (price field, ticker) pairs. */
  datatype ColumnIndex = FlatIndex(names: seq<string>) | MultiIndex(labels: seq<(string, string)>)

  function Width(index: ColumnIndex): nat
  {
    match index
    case FlatIndex(names) => |names|
    case MultiIndex(labels) => |labels|
  }

  /** A downloaded table, column by column; `None` is a missing cell. */
  datatype RawTable = RawTable(index: ColumnIndex, rows: nat, cells: seq<seq<Option<real>>>)

  predicate WellFormed(t: RawTable)
  {
    |t.cells| == Width(t.index) && forall c :: 0 <= c < |t.cells| ==> |t.cells[c]| == t.rows
  }

  type Table = t: RawTable | WellFormed(t) witness RawTable(FlatIndex([]), 0, [])

  /** `pd.DataFrame()`. */
  const EmptyTable: Table := RawTable(FlatIndex([]), 0, [])

  /** `df.empty`. */
  predicate IsEmptyTable(t: Table)
  {
    t.rows == 0 || Width(t.index) == 0
  }

  /** What one `yf.download` call does. */
  datatype Download = Raised | Downloaded(table: Table)

  /** The periods tried, in order. */
  function Periods(period: string): seq<string>
  {
    [period, "3mo", "1y", "2y"]
  }

  /** The download is accepted: it returned a non-empty table of at least 20 rows. */
  predicate Usable(d: Download)
  {
    d.Downloaded? && !IsEmptyTable(d.table) && d.table.rows >= MinRows
  }

  /** `df.columns = [col[0] for col in df.columns]` when the labels have two levels. */
  function Flatten(t: Table): (f: Table)
    ensures f.rows == t.rows && f.cells == t.cells
    ensures f.index.FlatIndex?
    ensures t.index.FlatIndex? ==> f == t
    ensures t.index.MultiIndex? ==> f.index.names == seq(|t.index.labels|, i requires 0 <= i < |t.index.labels| => t.index.labels[i].0)
  {
    match t.index
    case FlatIndex(_) => t
    case MultiIndex(labels) =>
      RawTable(FlatIndex(seq(|labels|, i requires 0 <= i < |labels| => labels[i].0)), t.rows, t.cells)
  }

  /** No cell of row r is missing. */
  predicate RowComplete(t: Table, r: nat)
    requires r < t.rows
  {
    forall c :: 0 <= c < |t.cells| ==> t.cells[c][r].Some?
  }

  /** The complete rows among the first n, in increasing order. */
  function CompleteRows(t: Table, n: nat): (keep: seq<nat>)
    requires n <= t.rows
    ensures |keep| <= n
    ensures forall j :: 0 <= j < |keep| ==> keep[j] < n && RowComplete(t, keep[j])
    ensures forall j, k :: 0 <= j < k < |keep| ==> keep[j] < keep[k]
    ensures forall r :: 0 <= r < n && RowComplete(t, r) ==> r in keep
  {
    if n == 0 then []
    else CompleteRows(t, n - 1) + (if RowComplete(t, n - 1) then [n - 1] else [])
  }

  /** `df.dropna()`: keeps the complete rows, in order. */
  function DropNa(t: Table): (d: Table)
    ensures d.index == t.index
    ensures d.rows == |CompleteRows(t, t.rows)| <= t.rows
    ensures forall c, j :: 0 <= c < |d.cells| && 0 <= j < d.rows ==>
              d.cells[c][j] == t.cells[c][CompleteRows(t, t.rows)[j]] && d.cells[c][j].Some?
  {
    var keep := CompleteRows(t, t.rows);
    RawTable(t.index, |keep|, seq(|t.cells|, c requires 0 <= c < |t.cells| =>
      seq(|keep|, j requires 0 <= j < |keep| => t.cells[c][keep[j]])))
  }

  /** What an accepted download is turned into. */
  function Normalise(t: Table): Table
  {
    DropNa(Flatten(t))
  }

  /** The result of trying the periods ps in order. */
  function FirstUsable(symbol: string, ps: seq<string>, download: (string, string) -> Download): Table
  {
    if |ps| == 0 then EmptyTable
    else if Usable(download(symbol, ps[0])) then Normalise(download(symbol, ps[0]).table)
    else FirstUsable(symbol, ps[1..], download)
  }

  /** fetch_stock_data_with_fallback. */
  method FetchStockDataWithFallback(symbol: string, period: string, download: (string, string) -> Download)
    returns (df: Table)
    ensures df == FirstUsable(symbol, Periods(period), download)
  {
    var periods := Periods(period);
    for i := 0 to |periods|
      invariant FirstUsable(symbol, periods, download) == FirstUsable(symbol, periods[i..], download)
    {
      assert periods[i..][1..] == periods[i + 1..];
      var d := download(symbol, periods[i]);
      if d.Raised? {
        continue;
      }
      if !IsEmptyTable(d.table) && d.table.rows >= MinRows {
        return Normalise(d.table);
      }
    }
    return EmptyTable;
  }

  /**
   * The periods are tried in order: the result comes from the first
   * accepted download, after every earlier one raised or was too short.
   */
  lemma {:induction false} FallbackFirstAccepted(symbol: string, ps: seq<string>, download: (string, string) -> Download, i: nat)
    requires i < |ps| && Usable(download(symbol, ps[i]))
    requires forall j :: 0 <= j < i ==> !Usable(download(symbol, ps[j]))
    ensures FirstUsable(symbol, ps, download) == Normalise(download(symbol, ps[i]).table)
  {
    if i > 0 {
      assert !Usable(download(symbol, ps[0]));
      forall j | 0 <= j < i - 1 ensures !Usable(download(symbol, ps[1..][j])) {
        assert ps[1..][j] == ps[j + 1];
      }
      FallbackFirstAccepted(symbol, ps[1..], download, i - 1);
    }
  }

  /** When no period gives an accepted download, the result is the empty frame. */
  lemma {:induction false} FallbackNoneAccepted(symbol: string, ps: seq<string>, download: (string, string) -> Download)
    requires forall i :: 0 <= i < |ps| ==> !Usable(download(symbol, ps[i]))
    ensures FirstUsable(symbol, ps, download) == EmptyTable
  {
    if |ps| > 0 {
      assert !Usable(download(symbol, ps[0]));
      forall j | 0 <= j < |ps| - 1 ensures !Usable(download(symbol, ps[1..][j])) {
        assert ps[1..][j] == ps[j + 1];
      }
      FallbackNoneAccepted(symbol, ps[1..], download);
    }
  }

  /**
   * A non-empty result always has flat labels and no missing cell, and no
   * more rows than the download it came from.
   */
  lemma NormaliseShape(t: Table)
    ensures Normalise(t).index.FlatIndex?
    ensures Width(Normalise(t).index) == Width(t.index)
    ensures Normalise(t).rows <= t.rows
    ensures forall c, j :: 0 <= c < |Normalise(t).cells| && 0 <= j < Normalise(t).rows ==> Normalise(t).cells[c][j].Some?
  {
  }

  /** dropna keeps every row when no cell is missing. */
  lemma {:induction false} CompleteRowsAll(t: Table, n: nat)
    requires n <= t.rows
    requires forall r :: 0 <= r < n ==> RowComplete(t, r)
    ensures CompleteRows(t, n) == seq(n, r requires 0 <= r < n => r)
  {
    if n > 0 {
      CompleteRowsAll(t, n - 1);
    }
  }

  /** A download with no missing cell passes dropna unchanged. */
  lemma DropNaOfComplete(t: Table)
    requires forall r :: 0 <= r < t.rows ==> RowComplete(t, r)
    ensures DropNa(t) == t
  {
    CompleteRowsAll(t, t.rows);
    var d := DropNa(t);
    forall c | 0 <= c < |t.cells| ensures d.cells[c] == t.cells[c] {
    }
  }

  /** With row 0 incomplete and rows 1 .. n-1 complete, dropna keeps n - 1 rows. */
  lemma {:induction false} CompleteRowsAfterFirst(t: Table, n: nat)
    requires 1 <= n <= t.rows
    requires !RowComplete(t, 0)
    requires forall r :: 1 <= r < n ==> RowComplete(t, r)
    ensures |CompleteRows(t, n)| == n - 1
  {
    if n > 1 {
      CompleteRowsAfterFirst(t, n - 1);
    }
  }

  /**
   * Acceptance is decided before rows are dropped, so the frame returned can
   * be shorter than 20 rows: a single-column download of 20 rows with one
   * missing price comes back with 19.
   */
  lemma ShortAfterDropNa(symbol: string, period: string, download: (string, string) -> Download)
    requires download(symbol, period) ==
      Downloaded(RawTable(FlatIndex(["Close"]), 20,
        [seq(20, r requires 0 <= r < 20 => if r == 0 then None else Some(100.0))]))
    ensures FirstUsable(symbol, Periods(period), download).rows == 19
  {
    var t := download(symbol, period).table;
    assert Usable(download(symbol, period));
    assert t.cells[0][0] == None;
    forall r | 1 <= r < 20 ensures RowComplete(t, r) {
      assert t.cells[0][r] == Some(100.0);
    }
    CompleteRowsAfterFirst(t, 20);
  }
}
