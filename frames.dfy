/**
 * A pandas DataFrame as the core sees it: a number of rows and named
 * real-valued columns, each exactly one value per row. Missing cells (NaN)
 * only occur in freshly downloaded tables; see DataFetcher.
 */
module Frames {

  datatype RawFrame = RawFrame(rows: nat, columns: map<string, seq<real>>)

  /** Every column holds one value per row. */
  predicate Aligned(f: RawFrame)
  {
    forall c | c in f.columns :: |f.columns[c]| == f.rows
  }

  type Frame = f: RawFrame | Aligned(f) witness RawFrame(0, map[])

  /** `pd.DataFrame()`: no rows, no columns. */
  const EmptyFrame: Frame := RawFrame(0, map[])

  /** `df.empty`: true when either axis has length zero. */
  predicate IsEmpty(f: RawFrame)
  {
    f.rows == 0 || |f.columns| == 0
  }

  /** `len(df)`. */
  function Len(f: RawFrame): nat
  {
    f.rows
  }

  /** Has every one of the named columns (otherwise `df[name]` raises KeyError). */
  predicate HasColumns(f: RawFrame, names: seq<string>)
  {
    forall i | 0 <= i < |names| :: names[i] in f.columns
  }

  /** The value in the last row of a column: `df[name].iloc[-1]`. */
  function LastOf(f: Frame, name: string): real
    requires name in f.columns && f.rows > 0
  {
    f.columns[name][f.rows - 1]
  }

  /** `df.copy()` followed by `df[name] = values` for each new column. */
  function WithColumns(f: Frame, extra: map<string, seq<real>>): (g: Frame)
    requires forall c | c in extra :: |extra[c]| == f.rows
    ensures g.rows == f.rows
    ensures g.columns.Keys == f.columns.Keys + extra.Keys
    ensures forall c | c in extra :: g.columns[c] == extra[c]
    ensures forall c | c in f.columns && c !in extra :: g.columns[c] == f.columns[c]
  {
    RawFrame(f.rows, f.columns + extra)
  }
}
