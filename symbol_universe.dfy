/**
 * The symbol universe: the stock list (one row per listed stock) turned
 * into a symbol -> company dictionary and a sector -> (symbol -> company)
 * dictionary. The CSV file itself is a parameter: its rows, in file order.
 *
 * A missing sector cell is read by pandas as NaN. `unique()` lists NaN once,
 * but `df['sector'] == NaN` is false on every row, so the NaN sector gets
 * an empty dictionary.
 */
module SymbolUniverse {
  import opened Wrappers
  import opened OrderedDict

  /** One line of the stock list; `None` is a missing (NaN) sector cell. */
  datatype Row = Row(symbol: string, company: string, sector: Option<string>)

  type SectorName = Option<string>

  /** `(symbol, company)` of each row, in file order. */
  function Listing(rows: seq<Row>): (pairs: seq<(string, string)>)
    ensures |pairs| == |rows|
    ensures forall i :: 0 <= i < |rows| ==> pairs[i] == (rows[i].symbol, rows[i].company)
  {
    seq(|rows|, i requires 0 <= i < |rows| => (rows[i].symbol, rows[i].company))
  }

  /** `df['sector']`, in file order. */
  function Sectors(rows: seq<Row>): (ss: seq<SectorName>)
    ensures |ss| == |rows|
    ensures forall i :: 0 <= i < |rows| ==> ss[i] == rows[i].sector
  {
    seq(|rows|, i requires 0 <= i < |rows| => rows[i].sector)
  }

  /** pandas' `==` on a sector cell: NaN equals nothing, itself included. */
  predicate SameSector(a: SectorName, b: SectorName)
  {
    a.Some? && b.Some? && a.value == b.value
  }

  /** `df[df['sector'] == sector]`: the matching rows, in file order. */
  function InSector(rows: seq<Row>, sector: SectorName): (rs: seq<Row>)
    ensures |rs| <= |rows|
    ensures forall r :: r in rs <==> r in rows && SameSector(r.sector, sector)
  {
    if |rows| == 0 then []
    else
      var init, last := rows[..|rows| - 1], rows[|rows| - 1];
      assert forall r :: r in rows <==> r in init || r == last by {
        assert rows == init + [last];
      }
      InSector(init, sector) + (if SameSector(last.sector, sector) then [last] else [])
  }

  /** `dict(zip(df['symbol'], df['company']))`. */
  function AllSymbols(rows: seq<Row>): ODict<string, string>
  {
    FromPairs(Listing(rows))
  }

  /** `dict(df[df['sector'] == sector][['symbol', 'company']].values)`. */
  function SectorStocks(rows: seq<Row>, sector: SectorName): ODict<string, string>
  {
    FromPairs(Listing(InSector(rows, sector)))
  }

  /** The sector dictionary after assigning the sectors ss in order. */
  function SectorMapOver(ss: seq<SectorName>, rows: seq<Row>): (m: ODict<SectorName, ODict<string, string>>)
    ensures Valid(m)
  {
    if |ss| == 0 then Empty()
    else
      var s := ss[|ss| - 1];
      Put(SectorMapOver(ss[..|ss| - 1], rows), s, SectorStocks(rows, s))
  }

  /** The sector dictionary load_all_symbols builds. */
  function SectorMapOf(rows: seq<Row>): ODict<SectorName, ODict<string, string>>
  {
    SectorMapOver(Unique(Sectors(rows)), rows)
  }

  /** load_all_symbols: both dictionaries, the sector one filled by a loop over `unique()`. */
  method LoadAllSymbols(rows: seq<Row>) returns (allSymbols: ODict<string, string>, sectorMap: ODict<SectorName, ODict<string, string>>)
    ensures allSymbols == AllSymbols(rows)
    ensures sectorMap == SectorMapOf(rows)
    ensures Valid(allSymbols) && Valid(sectorMap)
  {
    allSymbols := FromPairs(Listing(rows));
    sectorMap := Empty();
    var sectors := Unique(Sectors(rows));
    for k := 0 to |sectors|
      invariant sectorMap == SectorMapOver(sectors[..k], rows)
    {
      SectorMapStep(sectors, k, rows);
      sectorMap := Put(sectorMap, sectors[k], SectorStocks(rows, sectors[k]));
    }
    assert sectors[..|sectors|] == sectors;
  }

  lemma SectorMapStep(ss: seq<SectorName>, k: nat, rows: seq<Row>)
    requires k < |ss|
    ensures SectorMapOver(ss[..k + 1], rows) == Put(SectorMapOver(ss[..k], rows), ss[k], SectorStocks(rows, ss[k]))
  {
    assert ss[..k + 1][..k] == ss[..k];
  }

  lemma {:induction false} SectorMapOverDistinct(ss: seq<SectorName>, rows: seq<Row>)
    requires Distinct(ss)
    ensures SectorMapOver(ss, rows).keys == ss
    ensures forall s | s in ss :: SectorMapOver(ss, rows).values[s] == SectorStocks(rows, s)
  {
    if |ss| > 0 {
      var init := ss[..|ss| - 1];
      SectorMapOverDistinct(init, rows);
      assert ss == init + [ss[|ss| - 1]];
    }
  }

  /**
   * The sector dictionary has one key per distinct sector value, in order
   * of first appearance in the file, and maps each to the stocks of that
   * sector.
   */
  lemma SectorMapShape(rows: seq<Row>)
    ensures SectorMapOf(rows).keys == Unique(Sectors(rows))
    ensures forall i :: 0 <= i < |rows| ==> rows[i].sector in SectorMapOf(rows).values
    ensures forall s | s in SectorMapOf(rows).values :: SectorMapOf(rows).values[s] == SectorStocks(rows, s)
  {
    UniqueProperties(Sectors(rows));
    SectorMapOverDistinct(Unique(Sectors(rows)), rows);
    forall i | 0 <= i < |rows| ensures rows[i].sector in Unique(Sectors(rows)) {
      assert Sectors(rows)[i] == rows[i].sector;
    }
  }

  /** The rows with a missing sector are listed under a key with no stocks. */
  lemma {:induction false} MissingSectorIsEmpty(rows: seq<Row>)
    ensures InSector(rows, None) == []
    ensures SectorStocks(rows, None) == Empty()
  {
    if |rows| > 0 {
      MissingSectorIsEmpty(rows[..|rows| - 1]);
    }
  }

  /**
   * A symbol appears under a named sector exactly when some row lists it
   * with that sector; its company is the one on the LAST such row.
   */
  lemma SectorStocksMembers(rows: seq<Row>, sector: string, symbol: string)
    ensures symbol in SectorStocks(rows, Some(sector)).values <==>
              exists i :: 0 <= i < |rows| && rows[i].symbol == symbol && rows[i].sector == Some(sector)
  {
    var rs := InSector(rows, Some(sector));
    FromPairsLastWins(Listing(rs));
    if symbol in SectorStocks(rows, Some(sector)).values {
      var j :| 0 <= j < |rs| && Listing(rs)[j].0 == symbol;
      assert rs[j] in rows;
      var i :| 0 <= i < |rows| && rows[i] == rs[j];
    }
    if exists i :: 0 <= i < |rows| && rows[i].symbol == symbol && rows[i].sector == Some(sector) {
      var i :| 0 <= i < |rows| && rows[i].symbol == symbol && rows[i].sector == Some(sector);
      assert rows[i] in rs;
      var j :| 0 <= j < |rs| && rs[j] == rows[i];
      assert Listing(rs)[j].0 == symbol;
    }
  }

  /**
   * Every symbol of the file is in the symbol dictionary; a symbol listed
   * more than once keeps the company of its last row, and the keys follow
   * the order of first appearance.
   */
  lemma AllSymbolsLastWins(rows: seq<Row>)
    ensures forall i :: 0 <= i < |rows| ==> rows[i].symbol in AllSymbols(rows).values
    ensures forall i :: 0 <= i < |rows| && (forall j :: i < j < |rows| ==> rows[j].symbol != rows[i].symbol) ==>
              AllSymbols(rows).values[rows[i].symbol] == rows[i].company
    ensures AllSymbols(rows).keys == Unique(Firsts(Listing(rows)))
  {
    var pairs := Listing(rows);
    var d := AllSymbols(rows);
    FromPairsKeys(pairs);
    forall i | 0 <= i < |rows| ensures rows[i].symbol in d.values {
      FromPairsHas(pairs, i);
    }
    forall i | 0 <= i < |rows| && (forall j :: i < j < |rows| ==> rows[j].symbol != rows[i].symbol)
      ensures d.values[rows[i].symbol] == rows[i].company
    {
      AllSymbolsAt(rows, i);
    }
  }

  /** The last row of a symbol gives its company. */
  lemma AllSymbolsAt(rows: seq<Row>, i: nat)
    requires i < |rows| && forall j :: i < j < |rows| ==> rows[j].symbol != rows[i].symbol
    ensures rows[i].symbol in AllSymbols(rows).values
    ensures AllSymbols(rows).values[rows[i].symbol] == rows[i].company
  {
    var pairs := Listing(rows);
    forall j | i < j < |pairs| ensures pairs[j].0 != pairs[i].0 {
    }
    FromPairsAt(pairs, i);
  }
}
