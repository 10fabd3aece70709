/** Ranking a query's candidates: each key at its nearest copy, in a bounded heap. */
module RPRanking {
  import opened Heaps
  import opened Keys
  import opened RPSpec

  type Entry<!V> = Item<Key, Point<V>>

  function EntryOf<V>(p: Point<V>, far: V -> nat): Entry<V> { Item(p.key, p, far(p.value)) }

  ghost predicate DistinctKeys<V(!new)>(items: seq<Entry<V>>) {
    forall i, j :: 0 <= i < j < |items| ==> items[i].key != items[j].key
  }

  /** Some item has a key, at no more than a distance. */
  ghost predicate Covers<V(!new)>(items: seq<Entry<V>>, key: Key, far: nat) {
    exists i :: 0 <= i < |items| && items[i].key == key && items[i].priority <= far
  }

  /** Each candidate key once, at a nearest copy. */
  ghost predicate Once<V(!new)>(c: seq<Point<V>>, far: V -> nat, items: seq<Entry<V>>) {
    && DistinctKeys(items)
    && (forall i :: 0 <= i < |items| ==> items[i].value in c && items[i] == EntryOf(items[i].value, far))
    && (forall x :: x in c ==> Covers(items, x.key, far(x.value)))
  }

  lemma NoneOnce<V(!new)>(far: V -> nat)
    ensures Once<V>([], far, [])
  {
  }

  ghost predicate Slots<V(!new)>(items: seq<Entry<V>>, at: map<Key, nat>) {
    && (forall k :: k in at ==> at[k] < |items| && items[at[k]].key == k)
    && (forall i :: 0 <= i < |items| ==> items[i].key in at && at[items[i].key] == i)
  }

  method Dedup<V(!new)>(c: seq<Point<V>>, far: V -> nat) returns (items: seq<Entry<V>>)
    ensures Once(c, far, items) && (c != [] ==> items != [])
  {
    hide Once;
    items := [];
    var at: map<Key, nat> := map[];
    assert Once([], far, items) by { NoneOnce(far); }
    for i := 0 to |c|
      invariant Once(c[..i], far, items) && Slots(items, at) && (i > 0 ==> items != [])
    {
      assert c[..i + 1] == c[..i] + [c[i]];
      var item := EntryOf(c[i], far);
      if item.key in at {
        if item.priority < items[at[item.key]].priority {
          Nearer(c[..i], far, items, at[item.key], c[i]);
          items := items[at[item.key] := item];
        } else {
          Farther(c[..i], far, items, at[item.key], c[i]);
        }
      } else {
        NewKey(c[..i], far, items, c[i]);
        at := at[item.key := |items|];
        items := items + [item];
      }
    }
    assert c[..|c|] == c;
  }

  lemma CoversNearer<V(!new)>(items: seq<Entry<V>>, j: nat, item: Entry<V>, key: Key, far: nat)
    requires j < |items| && items[j].key == item.key && item.priority <= items[j].priority && Covers(items, key, far)
    ensures Covers(items[j := item], key, far)
  {
    var i :| 0 <= i < |items| && items[i].key == key && items[i].priority <= far;
    assert items[j := item][i].key == key;
  }

  lemma CoversMore<V(!new)>(items: seq<Entry<V>>, item: Entry<V>, key: Key, far: nat)
    requires Covers(items, key, far)
    ensures Covers(items + [item], key, far)
  {
    var i :| 0 <= i < |items| && items[i].key == key && items[i].priority <= far;
    assert (items + [item])[i].key == key;
  }

  lemma CoversAt<V(!new)>(items: seq<Entry<V>>, i: nat, key: Key, far: nat)
    requires i < |items| && items[i].key == key && items[i].priority <= far
    ensures Covers(items, key, far)
  {
  }

  lemma Nearer<V(!new)>(c: seq<Point<V>>, far: V -> nat, items: seq<Entry<V>>, j: nat, p: Point<V>)
    requires Once(c, far, items) && j < |items| && items[j].key == p.key && far(p.value) < items[j].priority
    ensures Once(c + [p], far, items[j := EntryOf(p, far)])
  {
    hide Covers;
    var item := EntryOf(p, far);
    CoversAt(items[j := item], j, p.key, far(p.value));
    forall x | x in c ensures Covers(items[j := item], x.key, far(x.value)) {
      CoversNearer(items, j, item, x.key, far(x.value));
    }
  }

  lemma NewKey<V(!new)>(c: seq<Point<V>>, far: V -> nat, items: seq<Entry<V>>, p: Point<V>)
    requires Once(c, far, items) && forall i :: 0 <= i < |items| ==> items[i].key != p.key
    ensures Once(c + [p], far, items + [EntryOf(p, far)])
  {
    hide Covers;
    var item := EntryOf(p, far);
    CoversAt(items + [item], |items|, p.key, far(p.value));
    forall x | x in c ensures Covers(items + [item], x.key, far(x.value)) {
      CoversMore(items, item, x.key, far(x.value));
    }
  }

  lemma Farther<V(!new)>(c: seq<Point<V>>, far: V -> nat, items: seq<Entry<V>>, j: nat, p: Point<V>)
    requires Once(c, far, items) && j < |items| && items[j].key == p.key && far(p.value) >= items[j].priority
    ensures Once(c + [p], far, items)
  {
    hide Covers;
    CoversAt(items, j, p.key, far(p.value));
  }

  // ---------------------------------------------------------------- the bounded heap

  /** What the heap holds of the items offered so far: the k nearest. */
  ghost predicate Holds<V(!new)>(items: seq<Entry<V>>, held: map<Key, Entry<V>>, size: nat, k: nat) {
    && size <= k
    && (forall i :: 0 <= i < |items| && items[i].key in held ==> held[items[i].key] == items[i])
    && (forall key :: key in held ==> exists i :: 0 <= i < |items| && items[i].key == key)
    && (forall i, key :: 0 <= i < |items| && items[i].key !in held && key in held ==>
       items[i].priority >= held[key].priority)
    && (size < k ==> forall i :: 0 <= i < |items| ==> items[i].key in held)
  }

  lemma HoldsRoom<V(!new)>(items: seq<Entry<V>>, held: map<Key, Entry<V>>, size: nat, k: nat, item: Entry<V>)
    requires Holds(items, held, size, k) && size < k && forall i :: 0 <= i < |items| ==> items[i].key != item.key
    ensures item.key !in held && Holds(items + [item], held[item.key := item], size + 1, k)
  {
    var s := items + [item];
    var h := held[item.key := item];
    forall key | key in h ensures exists i :: 0 <= i < |s| && s[i].key == key {
      if key == item.key {
        assert s[|items|].key == key;
      } else {
        var i :| 0 <= i < |items| && items[i].key == key;
        assert s[i].key == key;
      }
    }
  }

  lemma HoldsSwap<V(!new)>(items: seq<Entry<V>>, held: map<Key, Entry<V>>, k: nat, item: Entry<V>, top: Entry<V>)
    requires Holds(items, held, k, k) && forall i :: 0 <= i < |items| ==> items[i].key != item.key
    requires top.key in held && held[top.key] == top && item.priority < top.priority
            && forall x :: x in held ==> top.priority >= held[x].priority
    ensures item.key !in held && Holds(items + [item], (held - {top.key})[item.key := item], k, k)
  {
    var s := items + [item];
    var h := (held - {top.key})[item.key := item];
    forall key | key in h ensures exists i :: 0 <= i < |s| && s[i].key == key {
      if key == item.key {
        assert s[|items|].key == key;
      } else {
        var i :| 0 <= i < |items| && items[i].key == key;
        assert s[i].key == key;
      }
    }
  }

  lemma HoldsSkip<V(!new)>(items: seq<Entry<V>>, held: map<Key, Entry<V>>, k: nat, item: Entry<V>, top: Entry<V>)
    requires Holds(items, held, k, k) && forall i :: 0 <= i < |items| ==> items[i].key != item.key
    requires item.priority >= top.priority && forall x :: x in held ==> top.priority >= held[x].priority
    ensures item.key !in held && Holds(items + [item], held, k, k)
  {
    var s := items + [item];
    forall key | key in held ensures exists i :: 0 <= i < |s| && s[i].key == key {
      var i :| 0 <= i < |items| && items[i].key == key;
      assert s[i].key == key;
    }
  }

  method Offer<V(!new)>(pq: Heap<Key, Point<V>>, ghost before: seq<Entry<V>>, item: Entry<V>, k: nat)
    requires pq.Valid() && Holds(before, pq.Contents(), |pq.items|, k) && k > 0
    requires forall i :: 0 <= i < |before| ==> before[i].key != item.key
    modifies pq
    ensures pq.Valid() && Holds(before + [item], pq.Contents(), |pq.items|, k)
  {
    hide Holds, Heap.Valid, Heap.Contents;
    if |pq.items| < k {
      HoldsRoom(before, pq.Contents(), |pq.items|, k, item);
      pq.Push(item);
      return;
    }
    assert |pq.items| == k by { NoMore(before, pq.Contents(), |pq.items|, k); }
    Root(pq);
    var top := pq.items[0];
    if item.priority < top.priority {
      HoldsSwap(before, pq.Contents(), k, item, top);
      var _ := pq.Pop();
      pq.Push(item);
    } else {
      HoldsSkip(before, pq.Contents(), k, item, top);
    }
  }

  lemma NoMore<V(!new)>(items: seq<Entry<V>>, held: map<Key, Entry<V>>, size: nat, k: nat)
    requires Holds(items, held, size, k)
    ensures size <= k
  {
  }

  /** The root is stored under its key and no item has a higher priority. */
  lemma Root<V(!new)>(pq: Heap<Key, Point<V>>)
    requires pq.Valid() && pq.items != []
    ensures pq.items[0].key in pq.Contents() && pq.Contents()[pq.items[0].key] == pq.items[0]
    ensures forall x :: x in pq.Contents() ==> pq.items[0].priority >= pq.Contents()[x].priority
  {
    Heap.RootLeads(pq.items, pq.lookup);
    Heap.StoredKeys(pq.items, pq.lookup);
  }

  /** Distinct keys, nearest first. */
  ghost predicate InOrder<V(!new)>(out: seq<Point<V>>, far: V -> nat) {
    forall i, j :: 0 <= i < j < |out| ==> out[i].key != out[j].key && far(out[i].value) <= far(out[j].value)
  }

  /** What was drained is as far as everything left, whose keys it does not share. */
  ghost predicate Beyond<V(!new)>(left: map<Key, Entry<V>>, out: seq<Point<V>>, far: V -> nat) {
    forall i, key :: 0 <= i < |out| && key in left ==> out[i].key != key && left[key].priority <= far(out[i].value)
  }

  /** The queue emptied from the farthest, so the nearest comes first. */
  ghost predicate Drained<V(!new)>(held: map<Key, Entry<V>>, left: map<Key, Entry<V>>, out: seq<Point<V>>,
      far: V -> nat) {
    && InOrder(out, far) && Beyond(left, out, far)
    && (forall i :: 0 <= i < |out| ==> out[i].key in held && held[out[i].key] == EntryOf(out[i], far))
    && (forall key :: key in left ==> key in held && left[key] == held[key])
    && (forall key :: key in held ==> key in left || !Absent(out, key))
  }

  lemma DrainStep<V(!new)>(held: map<Key, Entry<V>>, left: map<Key, Entry<V>>, out: seq<Point<V>>, far: V -> nat,
      top: Entry<V>)
    requires Drained(held, left, out, far) && top.key in left && left[top.key] == top && top == EntryOf(top.value, far)
    requires forall x :: x in left ==> top.priority >= left[x].priority
    ensures Drained(held, left - {top.key}, [top.value] + out, far)
  {
    OrderStep(left, out, far, top);
    hide InOrder, Beyond, Absent;
    forall key ensures Absent([top.value] + out, key) <==> key != top.key && Absent(out, key) {
      AbsentStep(top.value, out, key);
    }
  }

  lemma AbsentStep<V(!new)>(p: Point<V>, out: seq<Point<V>>, key: Key)
    ensures Absent([p] + out, key) <==> key != p.key && Absent(out, key)
  {
    var o := [p] + out;
    assert o[0] == p;
    assert forall i :: 0 <= i < |out| ==> o[i + 1] == out[i];
    assert forall i :: 0 < i < |o| ==> o[i] == out[i - 1];
  }

  lemma OrderStep<V(!new)>(left: map<Key, Entry<V>>, out: seq<Point<V>>, far: V -> nat, top: Entry<V>)
    requires InOrder(out, far) && Beyond(left, out, far) && top.key in left && left[top.key] == top
            && top == EntryOf(top.value, far)
    requires forall x :: x in left ==> top.priority >= left[x].priority
    ensures InOrder([top.value] + out, far) && Beyond(left - {top.key}, [top.value] + out, far)
  {
  }

  method Drain<V(!new)>(pq: Heap<Key, Point<V>>, far: V -> nat) returns (out: seq<Point<V>>)
    requires pq.Valid() && forall x :: x in pq.Contents() ==> pq.Contents()[x] == EntryOf(pq.Contents()[x].value, far)
    modifies pq
    ensures Drained(old(pq.Contents()), map[], out, far) && |out| == |old(pq.items)|
  {
    hide Drained, Heap.Valid, Heap.Contents, EntryOf;
    out := [];
    ghost var held := pq.Contents();
    assert Drained(held, held, [], far) by { NoneDrained(held, far); }
    while |pq.items| > 0
      invariant pq.Valid() && Drained(held, pq.Contents(), out, far) && |out| + |pq.items| == |old(pq.items)|
      invariant forall x :: x in pq.Contents() ==> pq.Contents()[x] == EntryOf(pq.Contents()[x].value, far)
      decreases |pq.items|
    {
      Root(pq);
      DrainStep(held, pq.Contents(), out, far, pq.items[0]);
      var item := pq.Pop();
      out := [item.value.value] + out;
    }
    EmptyHeap(pq);
  }

  lemma NoneDrained<V(!new)>(held: map<Key, Entry<V>>, far: V -> nat)
    ensures Drained(held, held, [], far)
  {
  }

  lemma EmptyHeap<V(!new)>(pq: Heap<Key, Point<V>>)
    requires pq.Valid() && pq.items == []
    ensures pq.Contents() == map[]
  {
    Heap.NothingStored(pq.items, pq.lookup);
  }

  /** The k nearest of the candidates, nearest first. */
  method RankNearest<V(!new)>(c: seq<Point<V>>, far: V -> nat, k: nat) returns (out: seq<Point<V>>)
    requires k > 0
    ensures Nearest(c, far, k, out)
  {
    hide Once, Holds, Heap.Valid, Heap.Contents, Drained, Nearest, EntryOf;
    var items := Dedup(c, far);
    var pq := new Heap<Key, Point<V>>([]);
    assert pq.Contents() == map[] by { EmptyHeap(pq); }
    assert Holds<V>([], map[], 0, k) by { NoneHeld<V>(k); }
    for i := 0 to |items|
      invariant fresh(pq) && pq.Valid() && Holds(items[..i], pq.Contents(), |pq.items|, k)
    {
      assert items[..i + 1] == items[..i] + [items[i]];
      assert forall j :: 0 <= j < i ==> items[..i][j].key != items[i].key by { Distinct(c, far, items); }
      Offer(pq, items[..i], items[i], k);
    }
    assert items[..|items|] == items;
    ghost var held, size := pq.Contents(), |pq.items|;
    HeldEntries(c, far, items, held, size, k);
    out := Drain(pq, far);
    DrainedNearest(c, far, items, held, size, k, out);
  }

  lemma NoneHeld<V(!new)>(k: nat)
    ensures Holds<V>([], map[], 0, k)
  {
  }

  lemma Distinct<V(!new)>(c: seq<Point<V>>, far: V -> nat, items: seq<Entry<V>>)
    requires Once(c, far, items)
    ensures forall i, j :: 0 <= i < j < |items| ==> items[i].key != items[j].key
  {
  }

  lemma HeldEntries<V(!new)>(c: seq<Point<V>>, far: V -> nat, items: seq<Entry<V>>, held: map<Key, Entry<V>>,
      size: nat, k: nat)
    requires Once(c, far, items) && Holds(items, held, size, k)
    ensures forall x :: x in held ==> held[x] == EntryOf(held[x].value, far)
  {
    forall x | x in held ensures held[x] == EntryOf(held[x].value, far) {
      var i :| 0 <= i < |items| && items[i].key == x;
    }
  }

  lemma DrainedEntry<V(!new)>(c: seq<Point<V>>, far: V -> nat, items: seq<Entry<V>>, held: map<Key, Entry<V>>,
      size: nat, k: nat, p: Point<V>)
    requires Once(c, far, items) && Holds(items, held, size, k) && p.key in held && held[p.key] == EntryOf(p, far)
    ensures NearestCopy(c, far, p)
  {
    var j :| 0 <= j < |items| && items[j].key == p.key;
    assert held[items[j].key] == items[j];
    forall x | x in c && x.key == p.key ensures far(p.value) <= far(x.value) {
      assert Covers(items, x.key, far(x.value));
      var i :| 0 <= i < |items| && items[i].key == x.key && items[i].priority <= far(x.value);
      assert i == j;
    }
  }

  lemma LeftOut<V(!new)>(c: seq<Point<V>>, far: V -> nat, items: seq<Entry<V>>, held: map<Key, Entry<V>>, size: nat,
      k: nat, out: seq<Point<V>>, x: Point<V>)
    requires Once(c, far, items) && Holds(items, held, size, k) && Drained(held, map[], out, far) && x in c
            && Absent(out, x.key)
    ensures size == k && AllWithin(out, far, far(x.value))
  {
    assert Covers(items, x.key, far(x.value));
    var j :| 0 <= j < |items| && items[j].key == x.key && items[j].priority <= far(x.value);
    assert x.key !in held;
  }

  lemma DrainedNearest<V(!new)>(c: seq<Point<V>>, far: V -> nat, items: seq<Entry<V>>, held: map<Key, Entry<V>>,
      size: nat, k: nat, out: seq<Point<V>>)
    requires Once(c, far, items) && Holds(items, held, size, k) && Drained(held, map[], out, far) && |out| == size
    ensures Nearest(c, far, k, out)
  {
    hide Once, Holds, NearestCopy, Absent, AllWithin;
    assert size <= k by { NoMore(items, held, size, k); }
    forall i | 0 <= i < |out| ensures NearestCopy(c, far, out[i]) {
      DrainedEntry(c, far, items, held, size, k, out[i]);
    }
    forall x | x in c && Absent(out, x.key) ensures |out| == k && AllWithin(out, far, far(x.value)) {
      LeftOut(c, far, items, held, size, k, out, x);
    }
  }
}
