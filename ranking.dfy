/**
 * Python's `sorted(xs, key=k, reverse=True)` and `xs.sort(key=k, reverse=True)`
 * on integer keys: a stable sort into non-increasing key order. Stability
 * survives `reverse=True` in Python, so elements with equal keys keep the
 * order they had in the input.
 *
 * The specification is an insertion sort: each element, taken in input
 * order, goes after every already-sorted element whose key is at least its
 * own.
 */
module Ranking {

  /** Non-increasing by key. */
  predicate SortedDesc<T>(xs: seq<T>, key: T -> int)
  {
    forall i, j :: 0 <= i < j < |xs| ==> key(xs[i]) >= key(xs[j])
  }

  /** The elements with key k, in their order in xs. */
  function WithKey<T>(xs: seq<T>, key: T -> int, k: int): seq<T>
  {
    if |xs| == 0 then []
    else WithKey(xs[..|xs| - 1], key, k) + (if key(xs[|xs| - 1]) == k then [xs[|xs| - 1]] else [])
  }

  /** Places x after the last element of ys whose key is at least key(x). */
  function Insert<T>(ys: seq<T>, x: T, key: T -> int): seq<T>
  {
    if |ys| == 0 || key(ys[|ys| - 1]) >= key(x) then ys + [x]
    else Insert(ys[..|ys| - 1], x, key) + [ys[|ys| - 1]]
  }

  /** `sorted(xs, key=key, reverse=True)`. */
  function SortDesc<T>(xs: seq<T>, key: T -> int): seq<T>
  {
    if |xs| == 0 then []
    else Insert(SortDesc(xs[..|xs| - 1], key), xs[|xs| - 1], key)
  }

  lemma {:induction false} InsertPermutation<T>(ys: seq<T>, x: T, key: T -> int)
    ensures |Insert(ys, x, key)| == |ys| + 1
    ensures multiset(Insert(ys, x, key)) == multiset(ys) + multiset{x}
  {
    if |ys| > 0 && key(ys[|ys| - 1]) < key(x) {
      var init, last := ys[..|ys| - 1], ys[|ys| - 1];
      InsertPermutation(init, x, key);
      assert ys == init + [last];
    }
  }

  lemma {:induction false} InsertSorted<T>(ys: seq<T>, x: T, key: T -> int)
    requires SortedDesc(ys, key)
    ensures SortedDesc(Insert(ys, x, key), key)
  {
    if |ys| > 0 && key(ys[|ys| - 1]) < key(x) {
      var init, last := ys[..|ys| - 1], ys[|ys| - 1];
      assert SortedDesc(init, key) by {
        forall i, j | 0 <= i < j < |init| ensures key(init[i]) >= key(init[j]) {
          assert init[i] == ys[i] && init[j] == ys[j];
        }
      }
      InsertSorted(init, x, key);
      var r := Insert(init, x, key);
      // every element of r is x or comes from init, and all of those outrank last
      assert forall z | z in r :: key(z) >= key(last) by {
        InsertPermutation(init, x, key);
        forall z | z in r ensures key(z) >= key(last) {
          assert z in multiset(r);
          if z != x {
            assert z in multiset(init);
            var j :| 0 <= j < |init| && init[j] == z;
            assert ys[j] == z;
          }
        }
      }
      var rl := r + [last];
      forall i, j | 0 <= i < j < |rl| ensures key(rl[i]) >= key(rl[j]) {
        if j < |r| {
          assert rl[i] == r[i] && rl[j] == r[j];
        } else {
          assert rl[i] == r[i] && r[i] in r;
        }
      }
    }
  }

  lemma {:induction false} InsertWithKey<T>(ys: seq<T>, x: T, key: T -> int, k: int)
    ensures WithKey(Insert(ys, x, key), key, k) == WithKey(ys, key, k) + (if key(x) == k then [x] else [])
  {
    if |ys| == 0 || key(ys[|ys| - 1]) >= key(x) {
      var r := ys + [x];
      assert r[..|r| - 1] == ys;
    } else {
      var init, last := ys[..|ys| - 1], ys[|ys| - 1];
      InsertWithKey(init, x, key, k);
      var r := Insert(init, x, key) + [last];
      assert r[..|r| - 1] == Insert(init, x, key);
      assert key(last) != key(x);
    }
  }

  /** The sort orders by key, non-increasing. */
  lemma {:induction false} SortDescSorted<T>(xs: seq<T>, key: T -> int)
    ensures SortedDesc(SortDesc(xs, key), key)
  {
    if |xs| > 0 {
      SortDescSorted(xs[..|xs| - 1], key);
      InsertSorted(SortDesc(xs[..|xs| - 1], key), xs[|xs| - 1], key);
    }
  }

  /** The sort is a permutation: nothing is lost, duplicated or invented. */
  lemma {:induction false} SortDescPermutation<T>(xs: seq<T>, key: T -> int)
    ensures multiset(SortDesc(xs, key)) == multiset(xs)
    ensures |SortDesc(xs, key)| == |xs|
  {
    if |xs| > 0 {
      var init := xs[..|xs| - 1];
      var sorted := SortDesc(init, key);
      assert multiset(sorted) == multiset(init) && |sorted| == |init| by {
        SortDescPermutation(init, key);
      }
      InsertPermutation(sorted, xs[|xs| - 1], key);
      assert xs == init + [xs[|xs| - 1]];
    }
  }

  /** The sort is stable: elements with equal keys keep their input order. */
  lemma {:induction false} SortDescStable<T>(xs: seq<T>, key: T -> int, k: int)
    ensures WithKey(SortDesc(xs, key), key, k) == WithKey(xs, key, k)
  {
    if |xs| > 0 {
      var init := xs[..|xs| - 1];
      SortDescStable(init, key, k);
      InsertWithKey(SortDesc(init, key), xs[|xs| - 1], key, k);
    }
  }

  /** Every element of the input is in the output and vice versa. */
  lemma SortDescMembers<T>(xs: seq<T>, key: T -> int)
    ensures forall x :: x in SortDesc(xs, key) <==> x in xs
  {
    SortDescPermutation(xs, key);
    forall x ensures x in SortDesc(xs, key) <==> x in xs {
      assert x in SortDesc(xs, key) <==> x in multiset(SortDesc(xs, key));
      assert x in xs <==> x in multiset(xs);
    }
  }

  /** `xs[:n]`: at most the first n elements. */
  function Take<T>(xs: seq<T>, n: nat): (r: seq<T>)
    ensures |r| <= n && |r| <= |xs|
    ensures |xs| <= n ==> r == xs
    ensures r <= xs
  {
    if |xs| <= n then xs else xs[..n]
  }
}
