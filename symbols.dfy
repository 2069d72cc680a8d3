/**
 * Symbol selection of the backfiller: the list is seeded with one empty
 * string, extended with the listed tickers the glob pattern matches, in
 * listing order, and then passed through `unique`, which keeps the first
 * occurrence of every element.
 */
module Symbols {

  predicate NoDuplicates<T(==)>(s: seq<T>)
  {
    forall i, j :: 0 <= i < j < |s| ==> s[i] != s[j]
  }

  /** The index of the first occurrence of x in s. */
  function IndexOf<T(==)>(s: seq<T>, x: T): (k: nat)
    requires x in s
    ensures k < |s| && s[k] == x && x !in s[..k]
  {
    if s[0] == x then 0
    else
      assert s == [s[0]] + s[1..];
      1 + IndexOf(s[1..], x)
  }

  /**
   * The distinct elements of s in the order of their first occurrence; the
   * value `unique` computes, read off the input one element at a time.
   */
  function FirstOccurrences(s: seq<string>): (r: seq<string>)
    ensures forall x :: x in r <==> x in s
    ensures NoDuplicates(r)
    ensures |r| <= |s|
    decreases |s|
  {
    if s == [] then []
    else
      var u := FirstOccurrences(s[..|s| - 1]);
      assert s == s[..|s| - 1] + [s[|s| - 1]];
      if s[|s| - 1] in u then u else u + [s[|s| - 1]]
  }

  /** unique (backfiller.go): de-duplicates with a key map and an append loop. */
  method Unique(stringSlice: seq<string>) returns (list: seq<string>)
    ensures list == FirstOccurrences(stringSlice)
  {
    list := [];
    var keys: map<string, bool> := map[];
    for i := 0 to |stringSlice|
      invariant list == FirstOccurrences(stringSlice[..i])
      invariant forall x :: x in keys <==> x in list
    {
      var entry := stringSlice[i];
      assert stringSlice[..i + 1][..i] == stringSlice[..i];
      if entry !in keys {
        keys := keys[entry := true];
        list := list + [entry];
      }
    }
    assert stringSlice[..|stringSlice|] == stringSlice;
  }

  /** A duplicate-free sequence is its own list of first occurrences. */
  lemma {:induction false} FirstOccurrencesOfDistinct(s: seq<string>)
    requires NoDuplicates(s)
    ensures FirstOccurrences(s) == s
    decreases |s|
  {
    if s != [] {
      var p := s[..|s| - 1];
      assert NoDuplicates(p);
      FirstOccurrencesOfDistinct(p);
      assert s[|s| - 1] !in p;
      assert s == p + [s[|s| - 1]];
    }
  }

  /** De-duplicating once is as good as de-duplicating twice. */
  lemma FirstOccurrencesIdempotent(s: seq<string>)
    ensures FirstOccurrences(FirstOccurrences(s)) == FirstOccurrences(s)
  {
    FirstOccurrencesOfDistinct(FirstOccurrences(s));
  }

  /** The first element of a non-empty input is kept at the front. */
  lemma {:induction false} FirstOccurrencesHead(s: seq<string>)
    requires |s| > 0
    ensures |FirstOccurrences(s)| > 0 && FirstOccurrences(s)[0] == s[0]
    decreases |s|
  {
    if |s| > 1 {
      var p := s[..|s| - 1];
      FirstOccurrencesHead(p);
      assert p[0] == s[0];
    }
  }

  lemma {:induction false} IndexOfPrefix<T>(s: seq<T>, t: seq<T>, x: T)
    requires x in s
    ensures IndexOf(s + t, x) == IndexOf(s, x)
    decreases |s|
  {
    if s[0] != x {
      assert (s + t)[1..] == s[1..] + t;
      assert s == [s[0]] + s[1..];
      IndexOfPrefix(s[1..], t, x);
    }
  }

  /**
   * The kept elements appear in the order of their first occurrences in the
   * input: an element listed earlier occurred first earlier.
   */
  lemma {:induction false} FirstOccurrencesOrder(s: seq<string>)
    ensures forall i, j :: 0 <= i < j < |FirstOccurrences(s)| ==>
      IndexOf(s, FirstOccurrences(s)[i]) < IndexOf(s, FirstOccurrences(s)[j])
    decreases |s|
  {
    if s != [] {
      var p := s[..|s| - 1];
      var x := s[|s| - 1];
      var u := FirstOccurrences(p);
      assert s == p + [x];
      FirstOccurrencesOrder(p);
      forall y | y in u ensures IndexOf(s, y) == IndexOf(p, y) < |p| {
        IndexOfPrefix(p, [x], y);
      }
      if x !in u {
        IndexOfAppended(p, x);
        var r := u + [x];
        forall i, j | 0 <= i < j < |r| ensures IndexOf(s, r[i]) < IndexOf(s, r[j]) {
          assert r[i] == u[i] && r[i] in u;
          if j < |u| {
            assert r[j] == u[j] && r[j] in u;
          }
        }
      } else {
        forall i, j | 0 <= i < j < |u| ensures IndexOf(s, u[i]) < IndexOf(s, u[j]) {
          assert u[i] in u && u[j] in u;
        }
      }
    }
  }

  /** The listed tickers the pattern matches, in listing order. */
  function MatchingTickers(tickers: seq<string>, matches: string -> bool): (r: seq<string>)
    ensures forall x :: x in r <==> x in tickers && matches(x)
    ensures |r| <= |tickers|
    decreases |tickers|
  {
    if tickers == [] then []
    else
      var last := tickers[|tickers| - 1];
      assert tickers == tickers[..|tickers| - 1] + [last];
      MatchingTickers(tickers[..|tickers| - 1], matches) + (if matches(last) then [last] else [])
  }

  /** The symbol list the backfill loops walk over. */
  function SymbolList(tickers: seq<string>, matches: string -> bool): seq<string>
  {
    FirstOccurrences([""] + MatchingTickers(tickers, matches))
  }

  /** Symbol-list construction in main (backfiller.go). */
  method SelectSymbols(tickers: seq<string>, matches: string -> bool) returns (symbolList: seq<string>)
    ensures symbolList == SymbolList(tickers, matches)
  {
    symbolList := [""];
    for i := 0 to |tickers|
      invariant symbolList == [""] + MatchingTickers(tickers[..i], matches)
    {
      assert tickers[..i + 1][..i] == tickers[..i];
      if matches(tickers[i]) {
        symbolList := symbolList + [tickers[i]];
      }
    }
    assert tickers[..|tickers|] == tickers;
    symbolList := Unique(symbolList);
  }

  /**
   * A symbol list that starts with the empty symbol, holds no duplicates,
   * and otherwise holds exactly the non-empty matching tickers.
   */
  predicate WellFormedSymbolList(list: seq<string>, tickers: seq<string>, matches: string -> bool)
  {
    && |list| >= 1 && list[0] == ""
    && NoDuplicates(list)
    && (forall i :: 1 <= i < |list| ==> list[i] != "" && list[i] in tickers && matches(list[i]))
    && (forall t :: t in tickers && matches(t) && t != "" ==> t in list)
  }

  /**
   * The symbol list starts with the empty symbol, holds no duplicates, holds
   * exactly the matching tickers besides it, and keeps them in the order of
   * their first listing.
   */
  lemma SymbolListShape(tickers: seq<string>, matches: string -> bool)
    ensures WellFormedSymbolList(SymbolList(tickers, matches), tickers, matches)
  {
    var candidates := [""] + MatchingTickers(tickers, matches);
    var list := SymbolList(tickers, matches);
    FirstOccurrencesHead(candidates);
    forall i | 1 <= i < |list| ensures list[i] != "" && list[i] in tickers && matches(list[i]) {
      assert list[0] != list[i];
      assert list[i] in candidates;
    }
    forall t | t in tickers && matches(t) && t != "" ensures t in list {
      assert t in candidates;
    }
  }

  /** A pattern that matches everything (the default "*") selects every listed ticker. */
  lemma MatchAllSelectsEveryTicker(tickers: seq<string>, matches: string -> bool)
    requires forall t :: matches(t)
    ensures forall t :: t in SymbolList(tickers, matches) <==> t == "" || t in tickers
  {
    SymbolListShape(tickers, matches);
    var list := SymbolList(tickers, matches);
    forall t | t in list ensures t == "" || t in tickers {
      var i :| 0 <= i < |list| && list[i] == t;
    }
  }

  /**
   * Past the seeded empty symbol, the symbols follow the order in which the
   * tickers were first listed.
   */
  lemma SymbolListOrder(tickers: seq<string>, matches: string -> bool)
    ensures forall i, j :: 1 <= i < j < |SymbolList(tickers, matches)| ==>
      SymbolList(tickers, matches)[i] in tickers && SymbolList(tickers, matches)[j] in tickers &&
      IndexOf(tickers, SymbolList(tickers, matches)[i]) < IndexOf(tickers, SymbolList(tickers, matches)[j])
  {
    var candidates := [""] + MatchingTickers(tickers, matches);
    var list := SymbolList(tickers, matches);
    SymbolListShape(tickers, matches);
    FirstOccurrencesOrder(candidates);
    forall i, j | 1 <= i < j < |list|
      ensures IndexOf(tickers, list[i]) < IndexOf(tickers, list[j])
    {
      var a, b := list[i], list[j];
      var m := MatchingTickers(tickers, matches);
      assert IndexOf(candidates, a) < IndexOf(candidates, b);
      assert a in m && b in m;
      assert candidates[1..] == m;
      assert IndexOf(candidates, a) == 1 + IndexOf(m, a);
      assert IndexOf(candidates, b) == 1 + IndexOf(m, b);
      MatchingOrder(tickers, matches, a, b);
    }
  }

  /** A new element appended at the end is first found there. */
  lemma IndexOfAppended<T>(s: seq<T>, x: T)
    requires x !in s
    ensures IndexOf(s + [x], x) == |s|
  {
    var k := IndexOf(s + [x], x);
    assert (s + [x])[..|s|] == s;
  }

  /** Filtering keeps the listing order of first occurrences. */
  lemma {:induction false} MatchingOrder(tickers: seq<string>, matches: string -> bool, a: string, b: string)
    requires a in MatchingTickers(tickers, matches) && b in MatchingTickers(tickers, matches)
    requires IndexOf(MatchingTickers(tickers, matches), a) < IndexOf(MatchingTickers(tickers, matches), b)
    ensures IndexOf(tickers, a) < IndexOf(tickers, b)
    decreases |tickers|
  {
    var p := tickers[..|tickers| - 1];
    var x := tickers[|tickers| - 1];
    var mp := MatchingTickers(p, matches);
    var tail := if matches(x) then [x] else [];
    assert tickers == p + [x];
    assert MatchingTickers(tickers, matches) == mp + tail;
    if b in mp {
      IndexOfPrefix(mp, tail, b);
      var ka := IndexOf(mp + tail, a);
      assert (mp + tail)[ka] == mp[ka];
      assert a in mp;
      IndexOfPrefix(mp, tail, a);
      MatchingOrder(p, matches, a, b);
      IndexOfPrefix(p, [x], a);
      IndexOfPrefix(p, [x], b);
    } else {
      assert b == x && b !in p;
      IndexOfAppended(p, x);
      IndexOfPrefix(p, [x], a);
    }
  }
}
