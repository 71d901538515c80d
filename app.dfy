/**
 * The volume-surge check: a stock surges when its latest daily volume is
 * more than twice the mean of the ten volumes before it. The check
 * downloads the last 40 calendar days, needs at least 11 rows, adds a
 * ten-day average column computed over the volumes shifted by one day,
 * drops the rows where that average is undefined, and compares the last
 * row's volume with its average.
 *
 * As written, the function calls `date.today()` and `timedelta` (and
 * `yf.download`) without importing them, so its first statement raises
 * NameError, which the catch-all handler turns into "no surge" for every
 * symbol. CheckVolumeSurgeAsWritten models that; CheckVolumeSurge models
 * the check its docstring documents. Adding the imports alone would not
 * reach it: the later label handling still raises on both column shapes
 * yfinance returns, so the documented check is the corrected half.
 *
 * The download is a parameter: it either raises or returns the daily
 * volumes of the window, oldest first.
 */
module App {
  import opened Wrappers
  import opened Numeric

  /** Volumes averaged. */
  const Window := 10
  /** Fewest rows the check accepts. */
  const MinRows := 11
  /** A surge is a ratio strictly above this. */
  const SurgeFactor := 2.0

  datatype VolumeDownload = Raised | Volumes(volume: seq<real>)

  /** The dictionary returned for a surge. */
  datatype SurgeRecord = SurgeRecord(symbol: string, currentVolume: real, avgVolume: real, ratio: real)

  /**
   * `Volume.shift(1).rolling(window=10, min_periods=10).mean()`: row i holds
   * the mean of the ten volumes before it, undefined (NaN) for the first ten
   * rows.
   */
  function TenDayAverages(v: seq<real>): (a: seq<Option<real>>)
    ensures |a| == |v|
    ensures forall i :: 0 <= i < |v| ==> (a[i].Some? <==> i >= Window)
    ensures forall i :: Window <= i < |v| ==> a[i] == Some(Mean(v[i - Window..i]))
  {
    seq(|v|, i requires 0 <= i < |v| => if i >= Window then Some(Mean(v[i - Window..i])) else None)
  }

  /** `dropna(subset=['10d_avg_vol'])` on the two columns: rows with a defined average, in order. */
  function DropUndefined(v: seq<real>, a: seq<Option<real>>): (r: (seq<real>, seq<Option<real>>))
    requires |v| == |a|
    ensures |r.0| == |r.1| <= |v|
    ensures forall j :: 0 <= j < |r.1| ==> r.1[j].Some?
  {
    if |v| == 0 then ([], [])
    else
      var rest := DropUndefined(v[..|v| - 1], a[..|a| - 1]);
      if a[|a| - 1].Some? then (rest.0 + [v[|v| - 1]], rest.1 + [a[|a| - 1]]) else rest
  }

  /** The downloaded frame, updated in place by the check. */
  class VolumeTable {
    var volume: seq<real>
    /** The '10d_avg_vol' column; `None` is NaN. Empty until it is added. */
    var avg: seq<Option<real>>

    constructor (v: seq<real>)
      ensures volume == v && avg == []
    {
      volume := v;
      avg := [];
    }

    /** `data['10d_avg_vol'] = ...`. */
    method AddTenDayAverage()
      modifies this
      ensures volume == old(volume)
      ensures avg == TenDayAverages(volume)
    {
      avg := TenDayAverages(volume);
    }

    /** `data.dropna(subset=['10d_avg_vol'], inplace=True)`. */
    method DropMissingAverages()
      modifies this
      requires |avg| == |volume|
      ensures (volume, avg) == DropUndefined(old(volume), old(avg))
      ensures |avg| == |volume|
    {
      var kept := DropUndefined(volume, avg);
      volume, avg := kept.0, kept.1;
    }
  }

  /** The ten volumes before the last one, and their mean. */
  function LastAverage(v: seq<real>): real
    requires |v| >= MinRows
  {
    Mean(v[|v| - 1 - Window..|v| - 1])
  }

  /** The check's verdict, from the downloaded volumes. */
  function SurgeOf(symbol: string, d: VolumeDownload): Option<SurgeRecord>
  {
    if d.Raised? || |d.volume| < MinRows then None
    else Verdict(symbol, d.volume[|d.volume| - 1], LastAverage(d.volume))
  }

  /** The comparison of the last volume with its ten-day mean. */
  function Verdict(symbol: string, current: real, avg: real): Option<SurgeRecord>
  {
    if avg == 0.0 then None
    else if current / avg > SurgeFactor then Some(SurgeRecord(symbol, current, avg, current / avg))
    else None
  }

  /**
   * When exactly the first ten averages are undefined, the rows that survive
   * dropna are exactly those from the eleventh on.
   */
  lemma {:induction false} DropUndefinedAverages(v: seq<real>, a: seq<Option<real>>, n: nat)
    requires |a| == |v| && Window <= n <= |v|
    requires forall i :: 0 <= i < |a| ==> (a[i].Some? <==> i >= Window)
    ensures DropUndefined(v[..n], a[..n]) == (v[Window..n], a[Window..n])
  {
    if n == Window {
      DropNothingDefined(v[..n], a[..n]);
    } else {
      DropUndefinedAverages(v, a, n - 1);
      assert v[..n][..n - 1] == v[..n - 1];
      assert a[..n][..n - 1] == a[..n - 1];
      assert v[Window..n] == v[Window..n - 1] + [v[n - 1]];
      assert a[Window..n] == a[Window..n - 1] + [a[n - 1]];
    }
  }

  lemma {:induction false} DropNothingDefined(v: seq<real>, a: seq<Option<real>>)
    requires |v| == |a|
    requires forall i :: 0 <= i < |a| ==> a[i].None?
    ensures DropUndefined(v, a) == ([], [])
  {
    if |v| > 0 {
      DropNothingDefined(v[..|v| - 1], a[..|a| - 1]);
    }
  }

  /** The last row left by dropna holds the last volume and the mean of the ten before it. */
  lemma LastRowAfterDrop(v: seq<real>)
    requires |v| >= MinRows
    ensures |v[Window..]| > 0
    ensures v[Window..][|v[Window..]| - 1] == v[|v| - 1]
    ensures TenDayAverages(v)[Window..][|v[Window..]| - 1] == Some(LastAverage(v))
  {
  }

  /** check_volume_surge_yfinance as its docstring documents it. */
  method CheckVolumeSurge(symbol: string, download: VolumeDownload) returns (r: Option<SurgeRecord>)
    ensures r == SurgeOf(symbol, download)
  {
    if download.Raised? {
      return None;
    }
    var v := download.volume;
    if |v| == 0 || |v| < MinRows {
      return None;
    }
    var data := new VolumeTable(v);
    data.AddTenDayAverage();
    data.DropMissingAverages();
    assert data.volume == v[Window..] && data.avg == TenDayAverages(v)[Window..] by {
      DropUndefinedAverages(v, TenDayAverages(v), |v|);
      assert v[..|v|] == v;
      assert TenDayAverages(v)[..|v|] == TenDayAverages(v);
    }
    // `data.empty` cannot hold here: eleven rows leave at least one after dropna.
    LastRowAfterDrop(v);
    var current := data.volume[|data.volume| - 1];
    var avg := data.avg[|data.avg| - 1].value;
    assert current == v[|v| - 1] && avg == LastAverage(v);
    if avg == 0.0 {
      return None;
    }
    var ratio := current / avg;
    if ratio > SurgeFactor {
      return Some(SurgeRecord(symbol, current, avg, ratio));
    }
    return None;
  }

  /** check_volume_surge_yfinance as written: the NameError is caught and nothing is reported. */
  method CheckVolumeSurgeAsWritten(symbol: string, download: VolumeDownload) returns (r: Option<SurgeRecord>)
    ensures r == None
  {
    // `date` is not defined in the module, so `date.today()` raises before
    // the download; the handler returns None.
    return None;
  }

  /**
   * A surge is reported exactly when there are at least 11 volumes, the
   * mean of the ten before the last is not zero and the last volume is more
   * than twice that mean; the record carries the symbol, both volumes and
   * their ratio.
   */
  lemma SurgeIff(symbol: string, v: seq<real>)
    ensures SurgeOf(symbol, Volumes(v)).Some? <==>
              |v| >= MinRows && LastAverage(v) != 0.0 && v[|v| - 1] / LastAverage(v) > SurgeFactor
    ensures SurgeOf(symbol, Volumes(v)).Some? ==>
              var rec := SurgeOf(symbol, Volumes(v)).value;
              && rec.symbol == symbol
              && rec.currentVolume == v[|v| - 1]
              && rec.avgVolume == LastAverage(v)
              && rec.ratio * rec.avgVolume == rec.currentVolume
              && rec.ratio > SurgeFactor
  {
  }

  /**
   * With non-negative volumes, a surge means the last volume exceeds twice
   * a positive ten-day mean; a failed download or fewer than 11 rows never
   * surge.
   */
  lemma SurgeMeansDoubled(symbol: string, d: VolumeDownload)
    requires d.Volumes? ==> forall i :: 0 <= i < |d.volume| ==> d.volume[i] >= 0.0
    ensures d.Raised? ==> SurgeOf(symbol, d) == None
    ensures d.Volumes? && |d.volume| < MinRows ==> SurgeOf(symbol, d) == None
    ensures SurgeOf(symbol, d).Some? ==>
              LastAverage(d.volume) > 0.0 && d.volume[|d.volume| - 1] > SurgeFactor * LastAverage(d.volume)
  {
    if SurgeOf(symbol, d).Some? {
      var v := d.volume;
      var avg, current := LastAverage(v), v[|v| - 1];
      assert avg >= 0.0 by {
        var w := v[|v| - 1 - Window..|v| - 1];
        assert AllWithin(w, 0.0, Max(w)) by {
          forall i | 0 <= i < |w| ensures 0.0 <= w[i] <= Max(w) {
            assert w[i] == v[|v| - 1 - Window + i];
          }
        }
        MeanWithin(w, 0.0, Max(w));
      }
      assert avg != 0.0 && current / avg > SurgeFactor;
      RatioAbove(current, avg, SurgeFactor);
    }
  }

  lemma RatioAbove(x: real, y: real, k: real)
    requires y > 0.0 && x / y > k
    ensures x > k * y
  {
    assert x == (x / y) * y;
  }

  /**
   * Ten days of volume 1 followed by a day of volume 3 is a threefold
   * surge, which the intended check reports with ratio 3.
   */
  lemma ThreefoldSurge()
    ensures SurgeOf("RELIANCE.NS", Volumes(seq(10, _ => 1.0) + [3.0]))
            == Some(SurgeRecord("RELIANCE.NS", 3.0, 1.0, 3.0))
  {
    var v := seq(10, _ => 1.0) + [3.0];
    assert v[|v| - 1 - Window..|v| - 1] == seq(10, _ => 1.0);
    MeanOfConstant(seq(10, _ => 1.0), 1.0);
  }

  /**
   * Both checks on the threefold surge: the check as written reports
   * nothing, the documented check reports the surge.
   */
  method MissedSurge() returns (asWritten: Option<SurgeRecord>, intended: Option<SurgeRecord>)
    ensures asWritten == None
    ensures intended == Some(SurgeRecord("RELIANCE.NS", 3.0, 1.0, 3.0))
  {
    var d := Volumes(seq(10, _ => 1.0) + [3.0]);
    asWritten := CheckVolumeSurgeAsWritten("RELIANCE.NS", d);
    intended := CheckVolumeSurge("RELIANCE.NS", d);
    ThreefoldSurge();
  }
}
