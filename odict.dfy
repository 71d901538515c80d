/**
 * Python's dict as the core uses it: keys iterate in insertion order,
 * assigning to an existing key replaces its value but keeps its position,
 * and `dict(pairs)` therefore keeps the first position and the last value of
 * every repeated key. Also pandas' `Series.unique()`, which lists values in
 * order of first appearance.
 */
module OrderedDict {

  datatype ODict<K(==), V> = ODict(keys: seq<K>, values: map<K, V>)

  predicate Distinct<K(==)>(xs: seq<K>)
  {
    forall i, j :: 0 <= i < j < |xs| ==> xs[i] != xs[j]
  }

  /** Keys listed once each, and exactly the keys of the map. */
  predicate Valid<K(==), V>(d: ODict<K, V>)
  {
    Distinct(d.keys)
    && (forall k | k in d.values :: k in d.keys)
    && (forall i | 0 <= i < |d.keys| :: d.keys[i] in d.values)
  }

  /** `{}`. */
  function Empty<K(==), V>(): (d: ODict<K, V>)
    ensures Valid(d) && |d.keys| == 0
  {
    ODict([], map[])
  }

  /** `d[k] = v`. */
  function Put<K(==), V>(d: ODict<K, V>, k: K, v: V): (r: ODict<K, V>)
    requires Valid(d)
    ensures Valid(r)
    ensures r.values == d.values[k := v]
    ensures k in d.values ==> r.keys == d.keys
    ensures k !in d.values ==> r.keys == d.keys + [k]
  {
    if k in d.values then ODict(d.keys, d.values[k := v])
    else ODict(d.keys + [k], d.values[k := v])
  }

  /** The key of every pair, in order. */
  function Firsts<K, V>(pairs: seq<(K, V)>): (ks: seq<K>)
    ensures |ks| == |pairs|
    ensures forall i :: 0 <= i < |pairs| ==> ks[i] == pairs[i].0
  {
    if |pairs| == 0 then [] else Firsts(pairs[..|pairs| - 1]) + [pairs[|pairs| - 1].0]
  }

  /** `dict(pairs)`: a left fold of assignments. */
  function FromPairs<K(==), V>(pairs: seq<(K, V)>): (d: ODict<K, V>)
    ensures Valid(d)
  {
    if |pairs| == 0 then Empty()
    else
      var last := pairs[|pairs| - 1];
      Put(FromPairs(pairs[..|pairs| - 1]), last.0, last.1)
  }

  /** `pd.Series(xs).unique()`: each value once, in order of first appearance. */
  function Unique<K(==)>(xs: seq<K>): seq<K>
  {
    if |xs| == 0 then []
    else
      var u := Unique(xs[..|xs| - 1]);
      if xs[|xs| - 1] in u then u else u + [xs[|xs| - 1]]
  }

  /** Position of the first occurrence of x in xs. */
  function FirstIndex<K(==)>(xs: seq<K>, x: K): (i: nat)
    requires x in xs
    ensures i < |xs| && xs[i] == x
    ensures forall j :: 0 <= j < i ==> xs[j] != x
  {
    if xs[0] == x then 0 else 1 + FirstIndex(xs[1..], x)
  }

  lemma {:induction false} FirstIndexPrefix<K>(xs: seq<K>, ys: seq<K>, x: K)
    requires x in xs
    ensures FirstIndex(xs + ys, x) == FirstIndex(xs, x)
  {
    if xs[0] != x {
      assert (xs + ys)[1..] == xs[1..] + ys;
      FirstIndexPrefix(xs[1..], ys, x);
    }
  }

  /**
   * `unique()` lists every value of xs exactly once, and in order of first
   * appearance.
   */
  lemma {:induction false} UniqueProperties<K>(xs: seq<K>)
    ensures Distinct(Unique(xs))
    ensures forall x :: x in Unique(xs) <==> x in xs
    ensures forall i, j :: 0 <= i < j < |Unique(xs)| ==>
              FirstIndex(xs, Unique(xs)[i]) < FirstIndex(xs, Unique(xs)[j])
  {
    if |xs| > 0 {
      var init, last := xs[..|xs| - 1], xs[|xs| - 1];
      UniqueProperties(init);
      assert xs == init + [last];
      var u := Unique(init);
      forall y | y in init ensures FirstIndex(xs, y) == FirstIndex(init, y) {
        FirstIndexPrefix(init, [last], y);
      }
      if last !in u {
        assert last !in init;
        assert FirstIndex(xs, last) == |xs| - 1;
      }
    }
  }

  /** Unique of a list without repeats is that list. */
  lemma {:induction false} UniqueOfDistinct<K>(xs: seq<K>)
    requires Distinct(xs)
    ensures Unique(xs) == xs
  {
    if |xs| > 0 {
      var init := xs[..|xs| - 1];
      UniqueOfDistinct(init);
      assert xs[|xs| - 1] !in init;
      assert init + [xs[|xs| - 1]] == xs;
    }
  }

  /** `dict(pairs)` lists its keys in order of first appearance among the pairs. */
  lemma {:induction false} FromPairsKeys<K, V>(pairs: seq<(K, V)>)
    ensures FromPairs(pairs).keys == Unique(Firsts(pairs))
  {
    if |pairs| > 0 {
      var init := pairs[..|pairs| - 1];
      FromPairsKeys(init);
      assert Firsts(pairs)[..|pairs| - 1] == Firsts(init);
      UniqueProperties(Firsts(init));
    }
  }

  /**
   * `dict(pairs)` holds, for every key, the value of the LAST pair with
   * that key; and a key is present exactly when some pair has it.
   */
  lemma {:induction false} FromPairsLastWins<K, V>(pairs: seq<(K, V)>)
    ensures forall k :: k in FromPairs(pairs).values <==> exists i :: 0 <= i < |pairs| && pairs[i].0 == k
    ensures forall i :: 0 <= i < |pairs| && (forall j :: i < j < |pairs| ==> pairs[j].0 != pairs[i].0) ==>
              FromPairs(pairs).values[pairs[i].0] == pairs[i].1
  {
    if |pairs| > 0 {
      var init, last := pairs[..|pairs| - 1], pairs[|pairs| - 1];
      FromPairsLastWins(init);
      forall k ensures k in FromPairs(pairs).values <==> exists i :: 0 <= i < |pairs| && pairs[i].0 == k {
        if k in FromPairs(init).values {
          var i :| 0 <= i < |init| && init[i].0 == k;
          assert pairs[i] == init[i];
        }
        if exists i :: 0 <= i < |pairs| && pairs[i].0 == k {
          var i :| 0 <= i < |pairs| && pairs[i].0 == k;
          if i < |init| {
            assert init[i] == pairs[i];
          }
        }
      }
      forall i | 0 <= i < |pairs| && (forall j :: i < j < |pairs| ==> pairs[j].0 != pairs[i].0)
        ensures FromPairs(pairs).values[pairs[i].0] == pairs[i].1
      {
        if i < |init| {
          assert pairs[i] == init[i];
          forall j | i < j < |init| ensures init[j].0 != init[i].0 {
            assert init[j] == pairs[j];
          }
          assert last.0 != pairs[i].0;
        }
      }
    }
  }

  /** The key of every pair is in the dictionary. */
  lemma FromPairsHas<K, V>(pairs: seq<(K, V)>, i: nat)
    requires i < |pairs|
    ensures pairs[i].0 in FromPairs(pairs).values
  {
    FromPairsLastWins(pairs);
  }

  /** A pair whose key does not come again gives the key's value. */
  lemma FromPairsAt<K, V>(pairs: seq<(K, V)>, i: nat)
    requires i < |pairs| && forall j :: i < j < |pairs| ==> pairs[j].0 != pairs[i].0
    ensures pairs[i].0 in FromPairs(pairs).values
    ensures FromPairs(pairs).values[pairs[i].0] == pairs[i].1
  {
    FromPairsLastWins(pairs);
  }
}
