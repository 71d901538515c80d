/**
 * The watchlist page's state: the watchlist kept in the browser session,
 * created with three default symbols on first visit, extended by the "Add"
 * button and shortened by the "Remove Selected" button. The list is mutated
 * in place in the session, so the session is a class whose field the
 * methods update.
 */
module Watchlist {
  import opened Wrappers
  import OrderedDict

  /** The list a new session starts from. */
  const Defaults: seq<string> := ["RELIANCE.NS", "TCS.NS", "HDFCBANK.NS"]

  /** `str.upper()` on one character, ASCII letters only. */
  function UpperChar(c: char): char
  {
    if 'a' <= c <= 'z' then (c as int - 32) as char else c
  }

  /** `str.upper()`, ASCII letters only. */
  function Upper(s: string): (u: string)
    ensures |u| == |s|
    ensures forall i :: 0 <= i < |s| ==> u[i] == UpperChar(s[i])
  {
    seq(|s|, i requires 0 <= i < |s| => UpperChar(s[i]))
  }

  /** Upper-casing twice changes nothing more. */
  lemma UpperIdempotent(s: string)
    ensures Upper(Upper(s)) == Upper(s)
  {
    forall i | 0 <= i < |s| ensures Upper(Upper(s))[i] == Upper(s)[i] {
      assert UpperChar(UpperChar(s[i])) == UpperChar(s[i]);
    }
  }

  /** The watchlist after "Add to Watchlist" with the text box holding s. */
  function Added(l: seq<string>, s: string): seq<string>
  {
    if s == "" then l
    else if Upper(s) in l then l
    else l + [Upper(s)]
  }

  /** `l.remove(x)`: drops the first occurrence of x. */
  function RemoveFirst(l: seq<string>, x: string): seq<string>
  {
    if |l| == 0 then []
    else if l[0] == x then l[1..]
    else [l[0]] + RemoveFirst(l[1..], x)
  }

  /** The watchlist after "Remove Selected" with `remove` picked, in pick order. */
  function RemovedEach(l: seq<string>, remove: seq<string>): seq<string>
  {
    if |remove| == 0 then l
    else
      var w := RemovedEach(l, remove[..|remove| - 1]);
      var x := remove[|remove| - 1];
      if x in w then RemoveFirst(w, x) else w
  }

  /** The elements of l not in rm, in their order in l. */
  function Keep(l: seq<string>, rm: seq<string>): seq<string>
  {
    if |l| == 0 then []
    else (if l[0] in rm then [] else [l[0]]) + Keep(l[1..], rm)
  }

  class Session {
    /** `st.session_state['watchlist']`, absent before the first visit. */
    var watchlist: Option<seq<string>>

    /** A watchlist never lists a symbol twice. */
    predicate Valid()
      reads this
    {
      watchlist.Some? ==> OrderedDict.Distinct(watchlist.value)
    }

    /** A fresh browser session. */
    constructor ()
      ensures watchlist == None && Valid()
    {
      watchlist := None;
    }

    /** Creates the default watchlist unless the session already has one. */
    method InitWatchlist()
      modifies this
      requires Valid()
      ensures Valid()
      ensures watchlist == if old(watchlist).None? then Some(Defaults) else old(watchlist)
    {
      if watchlist.None? {
        watchlist := Some(Defaults);
      }
    }

    /** "Add to Watchlist" pressed with the text box holding newStock. */
    method AddToWatchlist(newStock: string)
      modifies this
      requires watchlist.Some? && Valid()
      ensures Valid()
      ensures watchlist == Some(Added(old(watchlist).value, newStock))
    {
      if newStock != "" {
        if Upper(newStock) !in watchlist.value {
          watchlist := Some(watchlist.value + [Upper(newStock)]);
        }
      }
      AddedKeepsDistinct(old(watchlist).value, newStock);
    }

    /** "Remove Selected" pressed with `remove` picked. */
    method RemoveSelected(remove: seq<string>)
      modifies this
      requires watchlist.Some? && Valid()
      ensures Valid()
      ensures watchlist == Some(RemovedEach(old(watchlist).value, remove))
    {
      var l := watchlist.value;
      for k := 0 to |remove|
        invariant l == RemovedEach(old(watchlist).value, remove[..k])
      {
        assert remove[..k + 1][..k] == remove[..k];
        var stock := remove[k];
        if stock in l {
          l := RemoveFirst(l, stock);
        }
      }
      assert remove[..|remove|] == remove;
      RemovedEachOnDistinct(old(watchlist).value, remove);
      watchlist := Some(l);
    }
  }

  /** The default watchlist lists no symbol twice. */
  lemma DefaultsDistinct()
    ensures OrderedDict.Distinct(Defaults)
  {
  }

  /**
   * Adding keeps the list free of repeats, keeps what was there in place,
   * adds at most one symbol (the upper-cased input, at the end) and is
   * idempotent; an empty text box adds nothing.
   */
  lemma AddedKeepsDistinct(l: seq<string>, s: string)
    ensures OrderedDict.Distinct(l) ==> OrderedDict.Distinct(Added(l, s))
    ensures l <= Added(l, s) && |Added(l, s)| <= |l| + 1
    ensures s != "" ==> Upper(s) in Added(l, s)
    ensures s == "" ==> Added(l, s) == l
    ensures forall x | x in Added(l, s) && x !in l :: x == Upper(s)
    ensures Added(Added(l, s), s) == Added(l, s)
  {
  }

  lemma {:induction false} KeepMembers(l: seq<string>, rm: seq<string>)
    ensures forall y :: y in Keep(l, rm) <==> y in l && y !in rm
    ensures OrderedDict.Distinct(l) ==> OrderedDict.Distinct(Keep(l, rm))
  {
    if |l| > 0 {
      KeepMembers(l[1..], rm);
      assert l == [l[0]] + l[1..];
      if OrderedDict.Distinct(l) {
        assert OrderedDict.Distinct(l[1..]);
        assert l[0] !in l[1..];
      }
    }
  }

  lemma {:induction false} KeepNothing(l: seq<string>, rm: seq<string>)
    requires forall y | y in l :: y !in rm
    ensures Keep(l, rm) == l
  {
    if |l| > 0 {
      assert l[0] in l;
      KeepNothing(l[1..], rm);
      assert l == [l[0]] + l[1..];
    }
  }

  lemma {:induction false} KeepTwice(l: seq<string>, rm: seq<string>, x: string)
    ensures Keep(Keep(l, rm), [x]) == Keep(l, rm + [x])
  {
    if |l| > 0 {
      KeepTwice(l[1..], rm, x);
      var head := if l[0] in rm then [] else [l[0]];
      var k := Keep(l, rm);
      assert k == head + Keep(l[1..], rm);
      if l[0] !in rm {
        assert k[0] == l[0] && k[1..] == Keep(l[1..], rm);
      } else {
        assert k == Keep(l[1..], rm);
      }
    }
  }

  /** On a list without repeats, `remove` drops exactly the one occurrence. */
  lemma {:induction false} RemoveFirstOnDistinct(l: seq<string>, x: string)
    requires OrderedDict.Distinct(l)
    ensures RemoveFirst(l, x) == Keep(l, [x])
  {
    if |l| > 0 {
      assert OrderedDict.Distinct(l[1..]);
      if l[0] == x {
        forall y | y in l[1..] ensures y !in [x] {
          assert l[0] !in l[1..];
        }
        KeepNothing(l[1..], [x]);
      } else {
        RemoveFirstOnDistinct(l[1..], x);
      }
    }
  }

  /**
   * Removing the picked symbols from a watchlist without repeats leaves
   * exactly the symbols that were not picked, in their original order, and
   * still without repeats.
   */
  lemma {:induction false} RemovedEachOnDistinct(l: seq<string>, remove: seq<string>)
    requires OrderedDict.Distinct(l)
    ensures RemovedEach(l, remove) == Keep(l, remove)
    ensures OrderedDict.Distinct(RemovedEach(l, remove))
    ensures forall y :: y in RemovedEach(l, remove) <==> y in l && y !in remove
  {
    if |remove| == 0 {
      KeepNothing(l, remove);
    } else {
      var init, x := remove[..|remove| - 1], remove[|remove| - 1];
      RemovedEachOnDistinct(l, init);
      var w := RemovedEach(l, init);
      KeepMembers(l, init);
      KeepTwice(l, init, x);
      assert init + [x] == remove;
      if x in w {
        RemoveFirstOnDistinct(w, x);
      } else {
        KeepNothing(w, [x]);
      }
    }
    KeepMembers(l, remove);
  }

  /** Removing a symbol that is not listed changes nothing. */
  lemma {:induction false} RemoveAbsent(l: seq<string>, x: string)
    requires x !in l
    ensures RemoveFirst(l, x) == l
  {
    if |l| > 0 {
      assert l[0] in l;
      RemoveAbsent(l[1..], x);
      assert l == [l[0]] + l[1..];
    }
  }
}
