/** TopK: the k best offers, kept in a heap with its worst at the root. */
module TopKs {
  import opened HeapOrder

  /** One offer. Offers rank by score descending, then key ascending. */
  datatype Entry = Entry(key: int, score: real)

  predicate Better(a: Entry, b: Entry) { a.score > b.score || (a.score == b.score && a.key < b.key) }

  predicate Sorted(s: seq<Entry>) { forall i, j :: 0 <= i < j < |s| ==> !Better(s[j], s[i]) }

  // ---------------------------------------------------------------- sorting

  /** sort.Slice, best first. */
  function Sort(s: seq<Entry>): (r: seq<Entry>)
    ensures |r| == |s|
  {
    if s == [] then [] else Place(s[|s| - 1], Sort(s[..|s| - 1]))
  }

  function Place(e: Entry, s: seq<Entry>): (r: seq<Entry>)
    ensures |r| == |s| + 1
  {
    if s == [] || Better(e, s[0]) then [e] + s else [s[0]] + Place(e, s[1..])
  }

  /** What a ranking keeps of all the offers: the k best, or all when k is not positive. */
  function Best(s: seq<Entry>, k: int): seq<Entry> {
    var r := Sort(s);
    if k <= 0 || |r| <= k then r else r[..k]
  }

  lemma {:induction false} PlaceKeeps(e: Entry, s: seq<Entry>)
    ensures multiset(Place(e, s)) == multiset(s) + multiset{e}
  {
    if s != [] && !Better(e, s[0]) {
      PlaceKeeps(e, s[1..]);
      assert s == [s[0]] + s[1..];
    }
  }

  lemma {:induction false} PlaceSorts(e: Entry, s: seq<Entry>)
    requires Sorted(s)
    ensures Sorted(Place(e, s))
  {
    if s != [] && !Better(e, s[0]) {
      var t := Place(e, s[1..]);
      PlaceSorts(e, s[1..]);
      PlaceKeeps(e, s[1..]);
      forall j | 0 <= j < |t| ensures !Better(t[j], s[0]) {
        assert t[j] in multiset(t);
      }
    }
  }

  lemma {:induction false} SortSorts(s: seq<Entry>)
    ensures multiset(Sort(s)) == multiset(s) && Sorted(Sort(s))
  {
    if s != [] {
      var r := s[..|s| - 1];
      assert s == r + [s[|s| - 1]];
      SortSorts(r);
      PlaceKeeps(s[|s| - 1], Sort(r));
      PlaceSorts(s[|s| - 1], Sort(r));
    }
  }

  lemma HeadLeads(s: seq<Entry>, e: Entry)
    requires Sorted(s) && e in multiset(s)
    ensures !Better(e, s[0])
  {
    var j :| 0 <= j < |s| && s[j] == e;
  }

  lemma Heads(a: seq<Entry>, b: seq<Entry>)
    requires multiset(a) == multiset(b) && Sorted(a) && Sorted(b) && a != []
    ensures b != [] && a[0] == b[0]
  {
    assert |a| == |multiset(a)|;
    assert |b| == |multiset(b)|;
    assert a[0] in multiset(b) && b[0] in multiset(a);
    HeadLeads(a, b[0]);
    HeadLeads(b, a[0]);
  }

  lemma Tail(s: seq<Entry>)
    requires s != []
    ensures multiset(s[1..]) == multiset(s) - multiset{s[0]}
    ensures Sorted(s) ==> Sorted(s[1..])
  {
    assert s == [s[0]] + s[1..];
  }

  /** The ranking order is total, so one sorted sequence holds given offers. */
  lemma {:induction false} SortedUnique(a: seq<Entry>, b: seq<Entry>)
    requires multiset(a) == multiset(b) && Sorted(a) && Sorted(b)
    ensures a == b
  {
    hide Sorted, Better;
    if a != [] {
      Heads(a, b);
      Tail(a);
      Tail(b);
      SortedUnique(a[1..], b[1..]);
      assert a == [a[0]] + a[1..] && b == [b[0]] + b[1..];
    } else {
      assert |b| == |multiset(b)|;
    }
  }

  /** The order of offers changes nothing. */
  lemma BestPermutes(a: seq<Entry>, b: seq<Entry>, k: int)
    requires multiset(a) == multiset(b)
    ensures Best(a, k) == Best(b, k)
  {
    SortSorts(a);
    SortSorts(b);
    SortedUnique(Sort(a), Sort(b));
  }

  lemma BestOffered(s: seq<Entry>, k: int, e: Entry)
    requires e in Best(s, k)
    ensures e in s
  {
    SortSorts(s);
    assert e in multiset(Sort(s));
  }

  /** No dropped offer ranks before a kept one. */
  predicate Above(kept: seq<Entry>, dropped: seq<Entry>) {
    forall i, j :: 0 <= i < |kept| && 0 <= j < |dropped| ==> !Better(dropped[j], kept[i])
  }

  /** What is left when no dropped offer beats a kept one is the best of them all. */
  lemma KeptIsBest(offers: seq<Entry>, kept: seq<Entry>, dropped: seq<Entry>, k: int)
    requires multiset(offers) == multiset(kept) + multiset(dropped) && Above(kept, dropped)
    requires if k <= 0 then dropped == [] else |kept| <= k && (dropped != [] ==> |kept| == k)
    ensures Sort(kept) == Best(offers, k)
  {
    hide Sort;
    var a, b := Sort(kept), Sort(dropped);
    SortSorts(kept);
    SortSorts(dropped);
    SortSorts(offers);
    forall i, j | 0 <= i < |a| && 0 <= j < |b| ensures !Better(b[j], a[i]) {
      assert a[i] in multiset(a) && b[j] in multiset(b);
      assert a[i] in kept && b[j] in dropped;
    }
    assert Sorted(a + b);
    SortedUnique(a + b, Sort(offers));
    assert |offers| == |multiset(offers)| == |kept| + |dropped|;
  }

  // ---------------------------------------------------------------- the heap

  /** The heap order: a parent never ranks before its children. */
  predicate NotBetter(a: Entry, b: Entry) { !Better(a, b) }

  lemma NotBetterIsOrder()
    ensures IsOrder(NotBetter)
  {
  }

  class TopK {
    const k: int
    var entries: seq<Entry>
    ghost var offered: seq<Entry>
    ghost var dropped: seq<Entry>

    /** Kept and dropped offers make up all of them, and none dropped beats one kept. */
    ghost predicate Valid()
      reads this
    {
      && multiset(offered) == multiset(entries) + multiset(dropped)
      && Above(entries, dropped)
      && (if k <= 0 then dropped == []
          else |entries| <= k && (dropped != [] ==> |entries| == k) && Heaped(entries, NotBetter, 0))
    }

    constructor (k: int)
      ensures Valid() && this.k == k && offered == []
    {
      this.k := k;
      entries := [];
      offered := [];
      dropped := [];
    }

    predicate WorseThan(i: nat, j: nat)
      requires i < |entries| && j < |entries|
      reads this
    {
      Better(entries[j], entries[i])
    }

    method PercolateUp(start: nat)
      requires LooseAbove(entries, NotBetter, start)
      modifies `entries
      ensures Heaped(entries, NotBetter, 0) && multiset(entries) == multiset(old(entries))
    {
      hide LooseAbove, Heaped, IsOrder, HeapOrder.Swap;
      NotBetterIsOrder();
      InHeap(entries, start);
      var index: nat := start;
      while index > 0
        invariant LooseAbove(entries, NotBetter, index) && index < |entries|
                && multiset(entries) == multiset(old(entries))
      {
        var parent := (index - 1) / 2;
        if !WorseThan(index, parent) {
          break;
        }
        StepUp(entries, NotBetter, index);
        SwapKeeps(entries, index, parent);
        entries := Swap(entries, index, parent);
        index := parent;
        InHeap(entries, index);
      }
      SettledUp(entries, NotBetter, index);
    }

    static lemma InHeap(s: seq<Entry>, h: nat)
      requires LooseAbove(s, NotBetter, h) || LooseBelow(s, NotBetter, 0, h)
      ensures h < |s|
    {
    }

    method PercolateDown(start: nat)
      requires LooseBelow(entries, NotBetter, 0, start)
      modifies `entries
      ensures Heaped(entries, NotBetter, 0) && multiset(entries) == multiset(old(entries))
    {
      hide LooseBelow, Heaped, IsOrder, HeapOrder.Swap;
      NotBetterIsOrder();
      InHeap(entries, start);
      var index: nat := start;
      while true
        invariant LooseBelow(entries, NotBetter, 0, index) && index < |entries|
                && multiset(entries) == multiset(old(entries))
        decreases |entries| - index
      {
        var left, right := 2 * index + 1, 2 * index + 2;
        var worst: nat := index;
        if left < |entries| && WorseThan(left, worst) {
          worst := left;
        }
        if right < |entries| && WorseThan(right, worst) {
          worst := right;
        }
        if worst == index {
          break;
        }
        StepDown(entries, NotBetter, 0, index, worst);
        SwapKeeps(entries, index, worst);
        SwapSize(entries, index, worst);
        entries := Swap(entries, index, worst);
        index := worst;
        InHeap(entries, index);
      }
      SettledDown(entries, NotBetter, 0, index);
    }

    static lemma SwapSize(s: seq<Entry>, i: nat, j: nat)
      requires i < |s| && j < |s|
      ensures |Swap(s, i, j)| == |s|
    {
    }

    /** Keeps the offer, or drops it or the worst kept one. */
    method Offer(key: int, score: real)
      requires Valid()
      modifies this
      ensures Valid() && offered == old(offered) + [Entry(key, score)]
    {
      hide IsOrder, Above;
      var e := Entry(key, score);
      if k <= 0 || |entries| < k {
        Append(e);
        return;
      }
      var root := entries[0];
      if !(score > root.score || (score == root.score && key < root.key)) {
        DropOffer(entries, dropped, e);
        offered := offered + [e];
        dropped := dropped + [e];
        return;
      }
      Replace(e);
    }

    method Append(e: Entry)
      requires Valid() && (k <= 0 || |entries| < k)
      modifies this
      ensures Valid() && offered == old(offered) + [e]
    {
      hide IsOrder, Above, Better;
      NothingDropped(entries, dropped);
      ghost var was := entries;
      entries := entries + [e];
      if k > 0 {
        Appended(was, e);
        PercolateUp(|entries| - 1);
      }
      SizeOf(entries, was + [e]);
      offered := offered + [e];
      NothingDropped(entries, dropped);
    }

    method Replace(e: Entry)
      requires Valid() && 0 < k <= |entries| && Better(e, entries[0])
      modifies this
      ensures Valid() && offered == old(offered) + [e]
    {
      hide IsOrder, Above, Better, LooseBelow, Heaped;
      DropRoot(entries, dropped, e);
      ghost var was := entries;
      entries := entries[0 := e];
      PercolateDown(0);
      SizeOf(entries, was[0 := e]);
      AboveSame(was[0 := e], entries, dropped + [was[0]]);
      Traded(offered, was, dropped, e);
      offered := offered + [e];
      dropped := dropped + [was[0]];
    }

    /** The root's place taken by a new offer, and the root dropped. */
    static lemma Traded(offered: seq<Entry>, kept: seq<Entry>, dropped: seq<Entry>, e: Entry)
      requires kept != [] && multiset(offered) == multiset(kept) + multiset(dropped)
      ensures multiset(offered + [e]) == multiset(kept[0 := e]) + multiset(dropped + [kept[0]])
    {
      assert kept == [kept[0]] + kept[1..] && kept[0 := e] == [e] + kept[1..];
    }

    static lemma SizeOf(a: seq<Entry>, b: seq<Entry>)
      requires multiset(a) == multiset(b)
      ensures |a| == |b|
    {
      assert |a| == |multiset(a)|;
      assert |b| == |multiset(b)|;
    }

    static lemma NothingDropped(kept: seq<Entry>, dropped: seq<Entry>)
      ensures dropped == [] ==> Above(kept, dropped)
    {
    }

    static lemma Appended(s: seq<Entry>, e: Entry)
      requires Heaped(s, NotBetter, 0)
      ensures LooseAbove(s + [e], NotBetter, |s|)
    {
      forall i: nat | i < |s| ensures Edge(s + [e], NotBetter, 0, i) {
        assert Edge(s, NotBetter, 0, i);
      }
    }

    /** An offer no better than the root is no better than any kept one. */
    static lemma DropOffer(s: seq<Entry>, dropped: seq<Entry>, e: Entry)
      requires s != [] && Heaped(s, NotBetter, 0) && Above(s, dropped) && !Better(e, s[0])
      ensures Above(s, dropped + [e])
    {
      NotBetterIsOrder();
      forall i | 0 <= i < |s| ensures !Better(e, s[i]) {
        RootOver(s, NotBetter, i);
      }
    }

    /** Dropping the root for a better offer keeps the order of kept and dropped. */
    static lemma DropRoot(s: seq<Entry>, dropped: seq<Entry>, e: Entry)
      requires s != [] && Heaped(s, NotBetter, 0) && Above(s, dropped) && Better(e, s[0])
      ensures LooseBelow(s[0 := e], NotBetter, 0, 0) && Above(s[0 := e], dropped + [s[0]])
    {
      NotBetterIsOrder();
      var t := s[0 := e];
      forall i | 0 <= i < |s| ensures !Better(s[0], s[i]) {
        RootOver(s, NotBetter, i);
      }
      forall i: nat | i < |t| && i != 1 && i != 2 ensures Edge(t, NotBetter, 0, i) {
        assert Edge(s, NotBetter, 0, i);
      }
      forall i, j | 0 <= i < |t| && 0 <= j < |dropped| ensures !Better(dropped[j], t[i]) {
        assert !Better(dropped[j], s[0]);
      }
    }

    static lemma AboveSame(a: seq<Entry>, b: seq<Entry>, dropped: seq<Entry>)
      requires multiset(a) == multiset(b) && Above(a, dropped)
      ensures Above(b, dropped)
    {
      forall i | 0 <= i < |b| ensures b[i] in a {
        assert b[i] in multiset(b);
      }
    }

    /** Empties the TopK into the best offers, best first, whatever the offer order. */
    method Drain() returns (best: seq<Entry>)
      requires Valid()
      modifies this
      ensures best == Best(old(offered), k)
      ensures Valid() && offered == [] && entries == []
    {
      KeptIsBest(offered, entries, dropped, k);
      best := Sort(entries);
      entries := [];
      offered := [];
      dropped := [];
    }
  }
}
