/** Mapping, filtering and sorting, and what permuting the input leaves alone. */
module Sequences {

  function Map<A, B>(s: seq<A>, f: A -> B): (r: seq<B>)
    ensures |r| == |s| && forall i :: 0 <= i < |s| ==> r[i] == f(s[i])
  {
    seq(|s|, i requires 0 <= i < |s| => f(s[i]))
  }

  function Filter<A>(s: seq<A>, keep: A -> bool): seq<A> {
    if s == [] then [] else Filter(s[..|s| - 1], keep) + if keep(s[|s| - 1]) then [s[|s| - 1]] else []
  }

  ghost predicate NoRepeats<A>(s: seq<A>) { forall i, j :: 0 <= i < j < |s| ==> s[i] != s[j] }

  predicate Ascends<A>(s: seq<A>, rank: A -> real) { forall i, j :: 0 <= i < j < |s| ==> rank(s[i]) <= rank(s[j]) }

  /** slices.Sort: insertion, by ascending rank. */
  function SortBy<A>(s: seq<A>, rank: A -> real): seq<A> {
    if s == [] then [] else PlaceBy(s[|s| - 1], SortBy(s[..|s| - 1], rank), rank)
  }

  function PlaceBy<A>(e: A, s: seq<A>, rank: A -> real): seq<A> {
    if s == [] || rank(e) < rank(s[0]) then [e] + s else [s[0]] + PlaceBy(e, s[1..], rank)
  }

  lemma Associates<A>(a: seq<A>, b: seq<A>, c: seq<A>)
    ensures a + (b + c) == a + b + c
  {
  }

  lemma {:induction false} PlaceByKeeps<A>(e: A, s: seq<A>, rank: A -> real)
    ensures multiset(PlaceBy(e, s, rank)) == multiset(s) + multiset{e}
  {
    if s != [] && !(rank(e) < rank(s[0])) {
      PlaceByKeeps(e, s[1..], rank);
      assert s == [s[0]] + s[1..];
    }
  }

  lemma {:induction false} PlaceByAscends<A>(e: A, s: seq<A>, rank: A -> real)
    requires Ascends(s, rank)
    ensures Ascends(PlaceBy(e, s, rank), rank)
  {
    if s != [] && !(rank(e) < rank(s[0])) {
      var t := PlaceBy(e, s[1..], rank);
      PlaceByAscends(e, s[1..], rank);
      PlaceByKeeps(e, s[1..], rank);
      forall j | 0 <= j < |t| ensures rank(s[0]) <= rank(t[j]) {
        assert t[j] in multiset(t);
        assert t[j] == e || t[j] in s[1..];
      }
    }
  }

  lemma {:induction false} SortByKeeps<A>(s: seq<A>, rank: A -> real)
    ensures multiset(SortBy(s, rank)) == multiset(s) && Ascends(SortBy(s, rank), rank)
  {
    if s != [] {
      var r := s[..|s| - 1];
      assert s == r + [s[|s| - 1]];
      SortByKeeps(r, rank);
      PlaceByKeeps(s[|s| - 1], SortBy(r, rank), rank);
      PlaceByAscends(s[|s| - 1], SortBy(r, rank), rank);
    }
  }

  lemma SameItems<A(!new)>(a: seq<A>, b: seq<A>)
    requires multiset(a) == multiset(b)
    ensures |a| == |b| && forall x :: x in a <==> x in b
  {
    assert |a| == |multiset(a)| && |b| == |multiset(b)|;
    forall x ensures x in a <==> x in b {
      assert x in a <==> x in multiset(a);
    }
  }

  lemma {:induction false} Filters<A(!new)>(s: seq<A>, keep: A -> bool)
    ensures forall x :: x in Filter(s, keep) <==> x in s && keep(x)
    ensures NoRepeats(s) ==> NoRepeats(Filter(s, keep))
  {
    if s != [] {
      var r := s[..|s| - 1];
      assert s == r + [s[|s| - 1]];
      Filters(r, keep);
    }
  }

  /** Filtering an ascending sequence leaves it ascending. */
  lemma {:induction false} FilterAscends<A(!new)>(s: seq<A>, keep: A -> bool, rank: A -> real)
    requires Ascends(s, rank)
    ensures Ascends(Filter(s, keep), rank)
  {
    if s != [] {
      var r := s[..|s| - 1];
      FilterAscends(r, keep, rank);
      Filters(r, keep);
      var f := Filter(r, keep);
      forall i | 0 <= i < |f| ensures rank(f[i]) <= rank(s[|s| - 1]) {
        var x := f[i];
        assert x in r;
        var j :| 0 <= j < |r| && r[j] == x;
        assert rank(s[j]) <= rank(s[|s| - 1]);
      }
    }
  }

  lemma {:induction false} FilterNone<A(!new)>(s: seq<A>, keep: A -> bool)
    requires forall e :: e in s ==> !keep(e)
    ensures Filter(s, keep) == []
  {
    if s != [] {
      assert s[|s| - 1] in s;
      FilterNone(s[..|s| - 1], keep);
    }
  }

  lemma FilterOne<A>(s: seq<A>, e: A, keep: A -> bool)
    ensures Filter(s + [e], keep) == Filter(s, keep) + if keep(e) then [e] else []
  {
    assert (s + [e])[..|s|] == s;
  }

  lemma {:induction false} FilterPermutes<A>(s: seq<A>, t: seq<A>, keep: A -> bool)
    ensures Filter(s + t, keep) == Filter(s, keep) + Filter(t, keep)
  {
    if t == [] {
      assert s + t == s;
    } else {
      var n := |t| - 1;
      assert (s + t)[..|s + t| - 1] == s + t[..n];
      FilterPermutes(s, t[..n], keep);
    }
  }

  // ---------------------------------------------------------------- first occurrences

  /** Each item once, in the order of first occurrences. */
  function Deduped<A(==)>(s: seq<A>): seq<A> {
    if s == [] then [] else
      var r := Deduped(s[..|s| - 1]);
      if s[|s| - 1] in r then r else r + [s[|s| - 1]]
  }

  /** An item's first place. */
  function First<A(==)>(s: seq<A>, x: A): nat { if s == [] || s[0] == x then 0 else 1 + First(s[1..], x) }

  lemma {:induction false} FirstNext<A>(s: seq<A>, e: A, x: A)
    ensures First(s, x) <= |s| && (x !in s ==> First(s, x) == |s|)
    ensures x in s ==> First(s + [e], x) == First(s, x) < |s|
    ensures x == e && x !in s ==> First(s + [e], x) == |s|
  {
    if s != [] {
      assert (s + [e])[1..] == s[1..] + [e];
      FirstNext(s[1..], e, x);
    }
  }

  /** The same items, each once, ordered by where each first occurs. */
  lemma {:induction false} DedupedIs<A(!new)>(s: seq<A>)
    ensures NoRepeats(Deduped(s)) && forall x :: x in Deduped(s) <==> x in s
    ensures forall i, j :: 0 <= i < j < |Deduped(s)| ==> First(s, Deduped(s)[i]) < First(s, Deduped(s)[j])
  {
    if s != [] {
      var t, e := s[..|s| - 1], s[|s| - 1];
      assert s == t + [e];
      DedupedIs(t);
      forall x | x in s ensures x in t ==> First(s, x) == First(t, x) < |t|
                        ensures x !in t ==> x == e && First(s, x) == |t| {
        FirstNext(t, e, x);
      }
    }
  }

  lemma {:induction false} DedupedAgain<A>(s: seq<A>)
    requires NoRepeats(s)
    ensures Deduped(s) == s
  {
    if s != [] {
      var t := s[..|s| - 1];
      assert s == t + [s[|s| - 1]];
      DedupedAgain(t);
    }
  }

  // ---------------------------------------------------------------- repeats

  lemma {:induction false} AtMostOnce<A>(s: seq<A>, x: A)
    requires NoRepeats(s)
    ensures multiset(s)[x] == if x in s then 1 else 0
  {
    if s != [] {
      var r := s[..|s| - 1];
      assert s == r + [s[|s| - 1]];
      AtMostOnce(r, x);
    }
  }

  lemma {:induction false} OnceEach<A(!new)>(s: seq<A>)
    requires forall x :: multiset(s)[x] <= 1
    ensures NoRepeats(s)
  {
    if s != [] {
      var r := s[..|s| - 1];
      var e := s[|s| - 1];
      assert s == r + [e];
      forall x ensures multiset(r)[x] <= 1 {
        assert multiset(s)[x] <= 1;
      }
      OnceEach(r);
      assert multiset(s)[e] <= 1;
      assert e !in multiset(r);
    }
  }

  lemma Reordered<A(!new)>(a: seq<A>, b: seq<A>)
    requires multiset(a) == multiset(b) && NoRepeats(a)
    ensures NoRepeats(b)
  {
    forall x ensures multiset(b)[x] <= 1 {
      AtMostOnce(a, x);
    }
    OnceEach(b);
  }

  lemma JoinedOnce<A(!new)>(a: seq<A>, b: seq<A>)
    requires NoRepeats(a) && NoRepeats(b) && forall x :: x in a ==> x !in b
    ensures NoRepeats(a + b)
  {
    forall i, j | 0 <= i < j < |a + b| ensures (a + b)[i] != (a + b)[j] {
      var x := (a + b)[i];
      assert i < |a| ==> x in a;
      assert i < |a| <= j ==> (a + b)[j] in b;
    }
  }

  /** Two sequences without repeats and with the same items are permutations. */
  lemma SameOnce<A(!new)>(a: seq<A>, b: seq<A>)
    requires NoRepeats(a) && NoRepeats(b) && forall x :: x in a <==> x in b
    ensures multiset(a) == multiset(b)
  {
    forall x ensures multiset(a)[x] == multiset(b)[x] {
      AtMostOnce(a, x);
      AtMostOnce(b, x);
    }
  }

  lemma {:induction false} AtMost<A(!new)>(s: seq<A>, u: set<A>)
    requires NoRepeats(s) && forall v :: v in s ==> v in u
    ensures |s| <= |u|
  {
    if s != [] {
      var n := |s| - 1;
      forall v | v in s[..n] ensures v in u - {s[n]} {
        assert v in s;
      }
      assert s[n] in s;
      AtMost(s[..n], u - {s[n]});
    }
  }

  /** Of two sequences as long, without repeats, neither holds only items of the other
      unless both hold the same. */
  lemma Pigeonhole<A(!new)>(a: seq<A>, b: seq<A>, r: A) returns (e: A)
    requires NoRepeats(a) && |a| == |b| && r in b && r !in a
    ensures e in a && e !in b
  {
    var u := set x | x in b;
    SetSize(b, u);
    if forall x :: x in a ==> x in b {
      AtMost(a, u - {r});
    }
    e :| e in a && e !in b;
  }

  lemma {:induction false} SetSize<A(!new)>(s: seq<A>, u: set<A>)
    requires forall x :: x in u ==> x in s
    ensures |u| <= |s|
  {
    if s == [] {
      assert u == {};
    } else {
      var n := |s| - 1;
      forall x | x in u - {s[n]} ensures x in s[..n] {
        assert x in s;
      }
      SetSize(s[..n], u - {s[n]});
    }
  }

  // ---------------------------------------------------------------- permutations

  /** Where an item is, and what is around it. */
  lemma Around<A>(s: seq<A>, e: A) returns (l: seq<A>, r: seq<A>)
    requires e in s
    ensures s == l + [e] + r && multiset(s) == multiset(l + r) + multiset{e}
  {
    var i :| 0 <= i < |s| && s[i] == e;
    l, r := s[..i], s[i + 1..];
    assert s == l + [e] + r;
  }

  /** Of two permutations, the last item of one taken out of both. */
  lemma LastOut<A(!new)>(a: seq<A>, b: seq<A>) returns (r: seq<A>, e: A, u: seq<A>, v: seq<A>)
    requires multiset(a) == multiset(b) && a != []
    ensures r == a[..|a| - 1] && e == a[|a| - 1] && a == r + [e] && b == u + [e] + v && multiset(r) == multiset(u + v)
  {
    r, e := a[..|a| - 1], a[|a| - 1];
    SameItems(a, b);
    assert a == r + [e];
    assert e in b by { assert e in a; }
    u, v := Around(b, e);
    assert multiset(r) == multiset(a) - multiset{e};
    assert multiset(u + v) == multiset(b) - multiset{e};
  }

  lemma MapAppends<A, B>(l: seq<A>, r: seq<A>, f: A -> B)
    ensures Map(l + r, f) == Map(l, f) + Map(r, f)
  {
  }

  lemma {:induction false} MapPermutes<A(!new), B>(a: seq<A>, b: seq<A>, f: A -> B)
    requires multiset(a) == multiset(b)
    ensures multiset(Map(a, f)) == multiset(Map(b, f))
  {
    hide Map;
    SameItems(a, b);
    if a == [] {
      assert b == [];
    } else {
      var r, e, u, v := LastOut(a, b);
      MapPermutes(r, u + v, f);
      MapAppends(r, [e], f);
      MapAppends(u + [e], v, f);
      MapAppends(u, [e], f);
      MapAppends(u, v, f);
    }
  }

  /** Functions that agree on the items map them alike. */
  lemma MapsAlike<A(!new), B>(s: seq<A>, f: A -> B, g: A -> B)
    requires forall x :: x in s ==> f(x) == g(x)
    ensures Map(s, f) == Map(s, g)
  {
    forall i | 0 <= i < |s| ensures f(s[i]) == g(s[i]) {
      var x := s[i];
      assert x in s;
    }
  }

  /** A set's items, each once, in whatever order it gives them. */
  method Enumerate<A(==,!new)>(s: set<A>) returns (items: seq<A>)
    ensures NoRepeats(items) && |items| == |s| && forall x :: x in items <==> x in s
  {
    var left := s;
    items := [];
    while left != {}
      invariant left <= s && NoRepeats(items) && |items| + |left| == |s|
      invariant forall x :: x in items <==> x in s && x !in left
    {
      var x :| x in left;
      left := left - {x};
      items := items + [x];
    }
  }
}
