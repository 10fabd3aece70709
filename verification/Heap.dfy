/** Heap: a max-heap by priority with a key lookup. */
module Heaps {
  import opened HeapOrder
  import opened Wrappers

  datatype Item<K, V> = Item(key: K, value: V, priority: nat)

  predicate AtLeast<K(==,!new), V(!new)>(a: Item<K, V>, b: Item<K, V>) { a.priority >= b.priority }

  lemma AtLeastIsOrder<K(!new), V(!new)>()
    ensures IsOrder<Item<K, V>>(AtLeast)
  {
  }

  /** The lookup maps each key to its one slot. */
  ghost predicate Indexed<K(!new), V(!new)>(items: seq<Item<K, V>>, lookup: map<K, nat>) {
    && (forall k :: k in lookup ==> lookup[k] < |items| && items[lookup[k]].key == k)
    && (forall i :: 0 <= i < |items| ==> items[i].key in lookup && lookup[items[i].key] == i)
  }

  /** What is stored, by key. */
  ghost function Stored<K(!new), V(!new)>(items: seq<Item<K, V>>, lookup: map<K, nat>): map<K, Item<K, V>> {
    map k | k in lookup && lookup[k] < |items| :: items[lookup[k]]
  }

  function Reindexed<K(==,!new), V(!new)>(items: seq<Item<K, V>>, lookup: map<K, nat>, i: nat, j: nat): map<K, nat>
    requires i < |items| && j < |items|
  {
    lookup[items[i].key := i][items[j].key := j]
  }

  lemma SameMap<K(!new), V(!new)>(a: map<K, Item<K, V>>, b: map<K, Item<K, V>>)
    requires forall k :: k in a <==> k in b
    requires forall k :: k in a && k in b ==> a[k] == b[k]
    ensures a == b
  {
    assert a.Keys == b.Keys;
  }

  lemma SwapIndexed<K(!new), V(!new)>(items: seq<Item<K, V>>, lookup: map<K, nat>, i: nat, j: nat)
    requires i < |items| && j < |items| && Indexed(items, lookup)
    ensures var s := items[i := items[j]][j := items[i]];
            Indexed(s, Reindexed(s, lookup, i, j)) && Stored(s, Reindexed(s, lookup, i, j)) == Stored(items, lookup)
  {
    var s := items[i := items[j]][j := items[i]];
    SameMap(Stored(s, Reindexed(s, lookup, i, j)), Stored(items, lookup));
  }

  /** Moving the last item into slot i, whose key leaves the lookup. */
  lemma MoveIndexed<K(!new), V(!new)>(items: seq<Item<K, V>>, lookup: map<K, nat>, i: nat)
    requires i + 1 < |items| && Indexed(items, lookup)
    ensures var s := items[i := items[|items| - 1]][..|items| - 1];
            var m := (lookup - {items[i].key})[s[i].key := i];
            Indexed(s, m) && Stored(s, m) == Stored(items, lookup) - {items[i].key}
  {
    var s := items[i := items[|items| - 1]][..|items| - 1];
    var m := (lookup - {items[i].key})[s[i].key := i];
    SameMap(Stored(s, m), Stored(items, lookup) - {items[i].key});
  }

  lemma DropLastIndexed<K(!new), V(!new)>(items: seq<Item<K, V>>, lookup: map<K, nat>)
    requires items != [] && Indexed(items, lookup)
    ensures var n := |items| - 1;
            Indexed(items[..n], lookup - {items[n].key})
                && Stored(items[..n], lookup - {items[n].key}) == Stored(items, lookup) - {items[n].key}
  {
    var n := |items| - 1;
    SameMap(Stored(items[..n], lookup - {items[n].key}), Stored(items, lookup) - {items[n].key});
  }

  lemma AppendIndexed<K(!new), V(!new)>(items: seq<Item<K, V>>, lookup: map<K, nat>, x: Item<K, V>)
    requires Indexed(items, lookup) && x.key !in lookup
    ensures Indexed(items + [x], lookup[x.key := |items|])
    ensures Stored(items + [x], lookup[x.key := |items|]) == Stored(items, lookup)[x.key := x]
  {
    SameMap(Stored(items + [x], lookup[x.key := |items|]), Stored(items, lookup)[x.key := x]);
  }

  lemma AppendHeaped<K(!new), V(!new)>(items: seq<Item<K, V>>, x: Item<K, V>)
    requires Heaped(items, AtLeast, 0)
    ensures LooseAbove(items + [x], AtLeast, |items|)
  {
    forall i: nat | i < |items| ensures Edge(items + [x], AtLeast, 0, i) {
      assert Edge(items, AtLeast, 0, i);
    }
  }

  lemma DropLastHeaped<K(!new), V(!new)>(items: seq<Item<K, V>>)
    requires items != [] && Heaped(items, AtLeast, 0)
    ensures Heaped(items[..|items| - 1], AtLeast, 0)
  {
    var s := items[..|items| - 1];
    forall i: nat | i < |s| ensures Edge(s, AtLeast, 0, i) {
      assert Edge(items, AtLeast, 0, i);
    }
  }

  /** The last item moved into slot i leaves a heap loose in one direction only. */
  lemma MoveHeaped<K(!new), V(!new)>(items: seq<Item<K, V>>, i: nat)
    requires i + 1 < |items| && Heaped(items, AtLeast, 0)
    ensures var s := items[i := items[|items| - 1]][..|items| - 1];
            if i > 0 && s[i].priority > s[(i - 1) / 2].priority then LooseAbove(s, AtLeast, i)
                else LooseBelow(s, AtLeast, 0, i)
  {
    var s := items[i := items[|items| - 1]][..|items| - 1];
    assert Edge(items, AtLeast, 0, i);
    forall c: nat | c < |s| && c != i ensures (c - 1) / 2 != i ==> Edge(s, AtLeast, 0, c) {
      assert Edge(items, AtLeast, 0, c);
    }
    forall c: nat | c < |s| && (c == 2 * i + 1 || c == 2 * i + 2) ensures items[i].priority >= s[c].priority {
      assert Edge(items, AtLeast, 0, c);
    }
  }

  class Heap<K(==,!new), V(!new)> {
    var items: seq<Item<K, V>>
    var lookup: map<K, nat>

    ghost predicate Valid()
      reads this
    {
      Heaped(items, AtLeast, 0) && Indexed(items, lookup)
    }

    ghost function Contents(): map<K, Item<K, V>>
      reads this
    {
      Stored(items, lookup)
    }

    /** Builds a heap from items of distinct keys, bottom-up. */
    constructor (start: seq<Item<K, V>>)
      requires forall i, j :: 0 <= i < j < |start| ==> start[i].key != start[j].key
      ensures Valid() && |items| == |start|
      ensures forall k :: k in Contents() <==> exists i :: 0 <= i < |start| && start[i].key == k
      ensures forall i :: 0 <= i < |start| ==> Contents()[start[i].key] == start[i]
    {
      items := start;
      lookup := map[];
      new;
      hide Heaped, LooseBelow, IsOrder;
      for i := 0 to |items|
        invariant items == start
        invariant forall k :: k in lookup ==> lookup[k] < i && items[lookup[k]].key == k
        invariant forall j :: 0 <= j < i ==> items[j].key in lookup && lookup[items[j].key] == j
      {
        lookup := lookup[items[i].key := i];
      }
      ghost var was := Contents();
      assert forall i :: 0 <= i < |start| ==> was[start[i].key] == start[i];
      var i: nat := |items| / 2;
      LeavesHeaped(items);
      while i > 0
        invariant i <= |items| / 2 && |items| == |start| && Indexed(items, lookup) && Contents() == was
                && Heaped(items, AtLeast, i)
      {
        i := i - 1;
        LooseAt(items, i);
        PercolateDown(i, i);
      }
    }

    static lemma LeavesHeaped(s: seq<Item<K, V>>)
      ensures Heaped(s, AtLeast, |s| / 2)
    {
    }

    static lemma LooseAt(s: seq<Item<K, V>>, i: nat)
      requires i < |s| && Heaped(s, AtLeast, i + 1)
      ensures LooseBelow(s, AtLeast, i, i)
    {
      forall c: nat | c < |s| && c != 2 * i + 1 && c != 2 * i + 2 ensures Edge(s, AtLeast, i, c) {
        assert Edge(s, AtLeast, i + 1, c);
      }
    }

    method SwapSlots(i: nat, j: nat)
      requires i < |items| && j < |items| && Indexed(items, lookup)
      modifies this
      ensures items == Swap(old(items), i, j) && Indexed(items, lookup) && Contents() == old(Contents())
    {
      SwapIndexed(items, lookup, i, j);
      items := items[i := items[j]][j := items[i]];
      lookup := lookup[items[i].key := i][items[j].key := j];
    }

    method PercolateUp(start: nat)
      requires LooseAbove(items, AtLeast, start) && Indexed(items, lookup)
      modifies this
      ensures Valid() && Contents() == old(Contents()) && |items| == |old(items)|
    {
      hide LooseAbove, Heaped, IsOrder, Indexed, Stored;
      AtLeastIsOrder<K, V>();
      InHeap(items, start);
      var index: nat := start;
      while index > 0
        invariant LooseAbove(items, AtLeast, index) && index < |items| == |old(items)| && Indexed(items, lookup)
                && Contents() == old(Contents())
      {
        var parent := (index - 1) / 2;
        if items[parent].priority >= items[index].priority {
          break;
        }
        StepUp(items, AtLeast, index);
        SwapSlots(index, parent);
        index := parent;
      }
      SettledUp(items, AtLeast, index);
    }

    static lemma InHeap(s: seq<Item<K, V>>, h: nat)
      requires LooseAbove(s, AtLeast, h)
      ensures h < |s|
    {
    }

    method PercolateDown(start: nat, ghost from: nat)
      requires LooseBelow(items, AtLeast, from, start) && from <= start < |items| && Indexed(items, lookup)
      modifies this
      ensures Heaped(items, AtLeast, from) && Indexed(items, lookup) && Contents() == old(Contents())
              && |items| == |old(items)|
    {
      hide LooseBelow, Heaped, IsOrder, Indexed, Stored;
      AtLeastIsOrder<K, V>();
      var index: nat := start;
      while true
        invariant LooseBelow(items, AtLeast, from, index) && from <= index < |items| == |old(items)|
        invariant Indexed(items, lookup) && Contents() == old(Contents())
        decreases |items| - index
      {
        var left, right := 2 * index + 1, 2 * index + 2;
        var largest: nat := index;
        if left < |items| && items[left].priority > items[largest].priority {
          largest := left;
        }
        if right < |items| && items[right].priority > items[largest].priority {
          largest := right;
        }
        if largest == index {
          break;
        }
        StepDown(items, AtLeast, from, index, largest);
        SwapSlots(index, largest);
        index := largest;
      }
      SettledDown(items, AtLeast, from, index);
    }

    /** Stores the item, unless its key already holds a higher priority. */
    method Push(item: Item<K, V>)
      requires Valid()
      modifies this
      ensures Valid()
      ensures Contents() ==
              if item.key in old(Contents()) && old(Contents())[item.key].priority > item.priority then old(Contents())
                            else old(Contents())[item.key := item]
      ensures |items| == |old(items)| + if item.key in old(Contents()) then 0 else 1
    {
      hide Heaped, LooseAbove, Stored;
      StoredKeys(items, lookup);
      if item.key in lookup {
        if items[lookup[item.key]].priority > item.priority {
          return;
        }
        var _ := Remove(item.key);
        StoredKeys(items, lookup);
        ReplaceSame(old(Contents()), item);
      }
      AppendHeaped(items, item);
      AppendIndexed(items, lookup, item);
      items := items + [item];
      lookup := lookup[item.key := |items| - 1];
      PercolateUp(|items| - 1);
    }

    static lemma ReplaceSame(m: map<K, Item<K, V>>, item: Item<K, V>)
      ensures (m - {item.key})[item.key := item] == m[item.key := item]
    {
    }

    static lemma StoredKeys(s: seq<Item<K, V>>, m: map<K, nat>)
      requires Indexed(s, m)
      ensures forall k :: k in Stored(s, m) <==> k in m
      ensures forall k :: k in m ==> Stored(s, m)[k] == s[m[k]]
    {
    }

    /** Deletes what is stored under key. */
    method Remove(key: K) returns (found: bool)
      requires Valid()
      modifies this
      ensures Valid() && found == (key in old(Contents())) && Contents() == old(Contents()) - {key}
      ensures |items| == |old(items)| - if found then 1 else 0
    {
      hide Heaped, LooseAbove, LooseBelow, Stored;
      StoredKeys(items, lookup);
      if key !in lookup {
        return false;
      }
      var index := lookup[key];
      if index == 0 {
        var first := Pop();
        return true;
      }
      var size := |items|;
      if index == size - 1 {
        DropLastHeaped(items);
        DropLastIndexed(items, lookup);
        lookup := lookup - {key};
        items := items[..size - 1];
        return true;
      }
      MoveHeaped(items, index);
      MoveIndexed(items, lookup, index);
      items := items[index := items[size - 1]][..size - 1];
      lookup := (lookup - {key})[items[index].key := index];
      var parent := (index - 1) / 2;
      if items[index].priority > items[parent].priority {
        PercolateUp(index);
      } else {
        PercolateDown(index, 0);
      }
      return true;
    }

    /** Removes and returns an item of the highest priority. */
    method Pop() returns (top: Option<Item<K, V>>)
      requires Valid()
      modifies this
      ensures Valid() && (top.None? <==> old(Contents()) == map[])
      ensures top.None? ==> Contents() == old(Contents())
      ensures |items| == |old(items)| - if top.Some? then 1 else 0
      ensures top.Some? ==> && top.value == old(items)[0]
                            && top.value.key in old(Contents()) && old(Contents())[top.value.key] == top.value
                            && Contents() == old(Contents()) - {top.value.key}
                            && forall k :: k in old(Contents()) ==> top.value.priority >= old(Contents())[k].priority
    {
      hide Heaped, LooseAbove, LooseBelow, Stored;
      StoredKeys(items, lookup);
      var size := |items|;
      if size == 0 {
        NothingStored(items, lookup);
        return None;
      }
      RootLeads(items, lookup);
      var first := items[0];
      assert first.key in lookup;
      if size == 1 {
        DropLastHeaped(items);
        DropLastIndexed(items, lookup);
        assert items[..0] == [];
        items := [];
        lookup := lookup - {first.key};
      } else {
        MoveHeaped(items, 0);
        MoveIndexed(items, lookup, 0);
        items := items[0 := items[size - 1]][..size - 1];
        lookup := (lookup - {first.key})[items[0].key := 0];
        PercolateDown(0, 0);
      }
      return Some(first);
    }

    static lemma NothingStored(s: seq<Item<K, V>>, m: map<K, nat>)
      requires Indexed(s, m) && s == []
      ensures Stored(s, m) == map[]
    {
    }

    static lemma RootLeads(s: seq<Item<K, V>>, m: map<K, nat>)
      requires Heaped(s, AtLeast, 0) && Indexed(s, m) && s != []
      ensures forall k :: k in Stored(s, m) ==> s[0].priority >= Stored(s, m)[k].priority
    {
      AtLeastIsOrder<K, V>();
      forall k | k in Stored(s, m) ensures s[0].priority >= Stored(s, m)[k].priority {
        RootOver(s, AtLeast, m[k]);
      }
    }
  }
}
