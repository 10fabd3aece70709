/** A bounded cache that evicts the least recently used entry: a map for lookup, and a
    list that keeps the recency order. */
module LruCaches {
  import opened Sequences
  import opened Wrappers

  // ---------------------------------------------------------------- recency, as values

  /** What a cache holds, most recently used first. */
  type Recent<K, V> = seq<(K, V)>

  function Without<K(==), V>(s: Recent<K, V>, k: K): Recent<K, V> {
    if s == [] then [] else (if s[0].0 == k then [] else [s[0]]) + Without(s[1..], k)
  }

  function Lookup<K(==), V>(s: Recent<K, V>, k: K): Option<V> {
    if s == [] then None else if s[0].0 == k then Some(s[0].1) else Lookup(s[1..], k)
  }

  /** The entry most recently used. */
  function Front<K(==), V>(s: Recent<K, V>, k: K, v: V): Recent<K, V> { [(k, v)] + Without(s, k) }

  function Fit<A>(s: seq<A>, n: nat): seq<A> { if |s| <= n then s else s[..n] }

  function Keys<K, V>(s: Recent<K, V>): (r: seq<K>)
    ensures |r| == |s| && forall i :: 0 <= i < |s| ==> r[i] == s[i].0
  {
    Map(s, (e: (K, V)) => e.0)
  }

  // ---------------------------------------------------------------- the cache

  class Entry<K, V> {
    const key: K
    var value: V

    constructor (key: K, value: V)
      ensures this.key == key && this.value == value
    {
      this.key := key;
      this.value := value;
    }

    function Pair(): (K, V)
      reads this
    {
      (key, value)
    }
  }

  function Pairs<K, V>(s: seq<Entry<K, V>>): (r: Recent<K, V>)
    reads s
    ensures |r| == |s| && forall i :: 0 <= i < |s| ==> r[i] == (s[i].key, s[i].value)
  {
    if s == [] then [] else Pairs(s[..|s| - 1]) + [s[|s| - 1].Pair()]
  }

  /** container/list's MoveToFront and Remove, by key. */
  function Others<K(==), V>(s: seq<Entry<K, V>>, k: K): seq<Entry<K, V>> {
    if s == [] then [] else (if s[0].key == k then [] else [s[0]]) + Others(s[1..], k)
  }

  ghost predicate DistinctKeys<K, V>(s: seq<Entry<K, V>>) {
    forall i, j :: 0 <= i < j < |s| ==> s[i].key != s[j].key
  }

  lemma TailDistinct<K, V>(s: seq<Entry<K, V>>)
    requires DistinctKeys(s) && s != []
    ensures DistinctKeys(s[1..]) && forall i :: 0 <= i < |s[1..]| ==> s[1..][i].key != s[0].key
  {
  }

  lemma FrontDistinct<K, V>(e: Entry<K, V>, s: seq<Entry<K, V>>)
    requires DistinctKeys(s) && forall i :: 0 <= i < |s| ==> s[i].key != e.key
    ensures DistinctKeys([e] + s)
  {
  }

  ghost predicate Keyed<K, V>(s: seq<Entry<K, V>>, k: K) { exists i :: 0 <= i < |s| && s[i].key == k }

  lemma {:induction false} OthersAre<K, V>(s: seq<Entry<K, V>>, k: K)
    requires DistinctKeys(s)
    ensures DistinctKeys(Others(s, k)) && |Others(s, k)| == |s| - if Keyed(s, k) then 1 else 0
    ensures forall i :: 0 <= i < |Others(s, k)| ==> Others(s, k)[i] in s && Others(s, k)[i].key != k
    ensures forall i :: 0 <= i < |s| && s[i].key != k ==> s[i] in Others(s, k)
  {
    if s != [] {
      var t := s[1..];
      TailDistinct(s);
      OthersAre(t, k);
      assert forall i :: 0 <= i < |s| ==> s[i] == if i == 0 then s[0] else t[i - 1];
      assert Keyed(s, k) <==> s[0].key == k || Keyed(t, k) by { KeyedFront(s, k); }
      hide DistinctKeys, Keyed;
      if s[0].key != k {
        FrontDistinct(s[0], Others(t, k));
      } else {
        KeyedNot(t, k);
      }
    }
  }

  lemma KeyedNot<K, V>(s: seq<Entry<K, V>>, k: K)
    requires forall i :: 0 <= i < |s| ==> s[i].key != k
    ensures !Keyed(s, k)
  {
  }

  lemma KeyedFront<K, V>(s: seq<Entry<K, V>>, k: K)
    requires s != []
    ensures Keyed(s, k) <==> s[0].key == k || Keyed(s[1..], k)
  {
    if Keyed(s[1..], k) {
      var i :| 0 <= i < |s[1..]| && s[1..][i].key == k;
      assert s[i + 1].key == k;
    }
  }

  lemma {:induction false} PairsOthers<K, V>(s: seq<Entry<K, V>>, k: K)
    ensures Pairs(Others(s, k)) == Without(Pairs(s), k)
  {
    hide Pairs;
    if s == [] {
      assert Pairs(s) == [];
    } else {
      PairsOthers(s[1..], k);
      assert s == [s[0]] + s[1..];
      PairsJoin([s[0]], s[1..]);
      assert Pairs(s)[1..] == Pairs(s[1..]);
      PairsJoin(if s[0].key == k then [] else [s[0]], Others(s[1..], k));
    }
  }

  lemma PairsJoin<K, V>(s: seq<Entry<K, V>>, t: seq<Entry<K, V>>)
    ensures Pairs(s + t) == Pairs(s) + Pairs(t)
  {
  }

  lemma {:induction false} WithoutNone<K, V>(s: Recent<K, V>, k: K)
    requires forall i :: 0 <= i < |s| ==> s[i].0 != k
    ensures Without(s, k) == s && Lookup(s, k) == None
  {
    if s != [] {
      WithoutNone(s[1..], k);
    }
  }

  lemma {:induction false} LookupAt<K, V>(s: Recent<K, V>, i: nat)
    requires i < |s| && forall j :: 0 <= j < i ==> s[j].0 != s[i].0
    ensures Lookup(s, s[i].0) == Some(s[i].1)
  {
    if i > 0 {
      LookupAt(s[1..], i - 1);
    }
  }

  /** A map and a list that hold the same entries, each under its own key. */
  ghost predicate Linked<K(!new), V>(items: map<K, Entry<K, V>>, order: seq<Entry<K, V>>) {
    && DistinctKeys(order)
    && (forall k :: k in items ==> items[k] in order && items[k].key == k)
    && (forall i :: 0 <= i < |order| ==> order[i].key in items && items[order[i].key] == order[i])
  }

  /** The same entries, in some order. */
  ghost predicate Same<K, V>(s: seq<Entry<K, V>>, t: seq<Entry<K, V>>) {
    |s| == |t| && forall i :: 0 <= i < |t| ==> t[i] in s
  }

  lemma LinkedFront<K(!new), V>(items: map<K, Entry<K, V>>, order: seq<Entry<K, V>>, elem: Entry<K, V>)
    requires Linked(items, order) && elem in order
    ensures var t := [elem] + Others(order, elem.key); Linked(items, t) && Same(order, t)
  {
    OthersAre(order, elem.key);
    var i :| 0 <= i < |order| && order[i] == elem;
    hide Others;
  }

  lemma LinkedPush<K(!new), V>(items: map<K, Entry<K, V>>, order: seq<Entry<K, V>>, e: Entry<K, V>)
    requires Linked(items, order) && e.key !in items
    ensures Linked(items[e.key := e], [e] + order)
  {
  }

  lemma LinkedDrop<K(!new), V>(items: map<K, Entry<K, V>>, order: seq<Entry<K, V>>)
    requires Linked(items, order) && order != []
    ensures var n := |order| - 1; Linked(items - {order[n].key}, order[..n])
  {
    var n := |order| - 1;
    assert order == order[..n] + [order[n]];
  }

  lemma LinkedRemove<K(!new), V>(items: map<K, Entry<K, V>>, order: seq<Entry<K, V>>, key: K)
    requires Linked(items, order) && key in items
    ensures Linked(items - {key}, Others(order, key)) && |Others(order, key)| == |order| - 1
    ensures forall i :: 0 <= i < |Others(order, key)| ==> Others(order, key)[i] in order
  {
    var i :| 0 <= i < |order| && order[i] == items[key];
    OthersAre(order, key);
    hide Others;
  }

  class LRUCache<K(==, !new), V> {
    var capacity: nat
    var items: map<K, Entry<K, V>>
    var order: seq<Entry<K, V>>

    ghost predicate Valid()
      reads this
    {
      0 < capacity && |order| <= capacity && Linked(items, order)
    }

    /** What the cache holds, most recently used first. */
    function Recency(): Recent<K, V>
      reads this, order
    {
      Pairs(order)
    }

    constructor (capacity: nat)
      requires 0 < capacity
      ensures Valid() && this.capacity == capacity && order == []
    {
      this.capacity := capacity;
      items := map[];
      order := [];
    }

    lemma LookupItems(key: K)
      requires Valid()
      ensures Lookup(Recency(), key) == if key in items then Some(items[key].value) else None
      ensures key !in items ==> Without(Recency(), key) == Recency()
      ensures key in items ==> items[key] in order && items[key].key == key
    {
      if key in items {
        var i :| 0 <= i < |order| && order[i] == items[key];
        LookupAt(Recency(), i);
      } else {
        WithoutNone(Recency(), key);
      }
    }

    /** The value, which becomes the most recently used. */
    method Get(key: K) returns (r: Option<V>)
      requires Valid()
      modifies `order
      ensures Valid() && Same(old(order), order)
      ensures r == Lookup(old(Recency()), key)
      ensures Recency() == if r.Some? then Front(old(Recency()), key, r.value) else old(Recency())
    {
      hide Linked, Pairs, Without, Lookup, Same;
      LookupItems(key);
      if key !in items {
        SameItself(order);
        return None;
      }
      MoveToFront(items[key]);
      return Some(items[key].value);
    }

    method MoveToFront(elem: Entry<K, V>)
      requires Valid() && elem in order
      modifies `order
      ensures Valid() && Same(old(order), order)
      ensures Recency() == Front(old(Recency()), elem.key, elem.value)
    {
      hide Linked, Pairs, Others, Without, Same;
      LinkedFront(items, order, elem);
      PairsOthers(order, elem.key);
      PairsJoin([elem], Others(order, elem.key));
      PairsOne(elem);
      order := [elem] + Others(order, elem.key);
      SameSize(old(order), order);
    }

    /** The key's value, the most recently used. A new key past the capacity evicts the
        least recently used. */
    method Put(key: K, value: V)
      requires Valid()
      modifies this, order
      ensures Valid() && capacity == old(capacity)
      ensures forall i :: 0 <= i < |order| ==> order[i] in old(order) || fresh(order[i])
      ensures Recency() == Fit(Front(old(Recency()), key, value), capacity)
    {
      hide Linked, Pairs, Others, Without, Lookup, Same;
      LookupItems(key);
      if key in items {
        Overwrite(items[key], value);
        SameSize(old(order), order);
        return;
      }
      var e := new Entry(key, value);
      PairsJoin([e], order);
      PairsOne(e);
      LinkedPush(items, order, e);
      order := [e] + order;
      items := items[key := e];
      if |order| > capacity {
        DropLast();
      }
    }

    method Overwrite(elem: Entry<K, V>, value: V)
      requires Valid() && elem in order
      modifies `order, elem
      ensures Valid() && Same(old(order), order)
      ensures Recency() == Fit(Front(old(Recency()), elem.key, value), capacity)
    {
      hide Linked, Others, Without, Same;
      ghost var was := Recency();
      ghost var i := PlaceOf(elem);
      elem.value := value;
      assert Recency() == was[i := (elem.key, value)];
      WithoutChanged(was, i, value);
      MoveToFront(elem);
      SameSize(old(order), order);
    }

    lemma PlaceOf(elem: Entry<K, V>) returns (i: nat)
      requires Linked(items, order) && elem in order
      ensures i < |order| && order[i] == elem && forall j :: 0 <= j < |order| && j != i ==> order[j] != elem
    {
      i :| 0 <= i < |order| && order[i] == elem;
    }

    /** Evicts the least recently used entry. */
    method DropLast()
      requires order != [] && Linked(items, order)
      modifies `order, `items
      ensures Linked(items, order) && order == old(order)[..|old(order)| - 1]
      ensures Recency() == old(Recency())[..|old(order)| - 1]
    {
      hide Linked;
      LinkedDrop(items, order);
      var n := |order| - 1;
      var oldest := order[n];
      order := order[..n];
      items := items - {oldest.key};
    }

    /** Whether the key was there. */
    method Delete(key: K) returns (found: bool)
      requires Valid()
      modifies `order, `items
      ensures Valid() && forall i :: 0 <= i < |order| ==> order[i] in old(order)
      ensures found <==> Lookup(old(Recency()), key).Some?
      ensures Recency() == Without(old(Recency()), key)
    {
      hide Linked, Pairs, Others, Without, Lookup;
      LookupItems(key);
      if key !in items {
        return false;
      }
      LinkedRemove(items, order, key);
      PairsOthers(order, key);
      order := Others(order, key);
      items := items - {key};
      return true;
    }

    method Clear()
      requires Valid()
      modifies `order, `items
      ensures Valid() && Recency() == []
    {
      items := map[];
      order := [];
    }

    /** How many entries had to go, or None and no change for a capacity that is not
        positive. */
    method Resize(capacity: int) returns (evicted: Option<nat>)
      requires Valid()
      modifies this
      ensures Valid() && forall i :: 0 <= i < |order| ==> order[i] in old(order)
      ensures evicted.None? <==> capacity <= 0
      ensures evicted.None? ==> this.capacity == old(this.capacity) && Recency() == old(Recency())
      ensures evicted.Some? ==>
                && this.capacity == capacity && Recency() == Fit(old(Recency()), capacity)
                && evicted.value == |old(order)| - |order|
    {
      hide Linked, Pairs;
      if capacity <= 0 {
        return None;
      }
      var entries := 0;
      while this.capacity > capacity && |order| > capacity
        invariant Linked(items, order) && |order| <= |old(order)| && entries == |old(order)| - |order|
        invariant order == old(order)[..|order|] && Recency() == old(Recency())[..|order|]
        invariant this.capacity == old(this.capacity) && (|order| < capacity ==> order == old(order))
      {
        DropLast();
        entries := entries + 1;
      }
      this.capacity := capacity;
      return Some(entries);
    }
  }

  lemma {:induction false} WithoutChanged<K, V>(s: Recent<K, V>, i: nat, v: V)
    requires i < |s|
    ensures Without(s[i := (s[i].0, v)], s[i].0) == Without(s, s[i].0)
  {
    if i > 0 {
      WithoutChanged(s[1..], i - 1, v);
      assert s[i := (s[i].0, v)][1..] == s[1..][i - 1 := (s[i].0, v)];
    } else {
      assert s[0 := (s[0].0, v)][1..] == s[1..];
    }
  }

  /** A capacity that is not positive is an error. */
  method NewLRUCache<K(==, !new), V>(capacity: int) returns (c: Option<LRUCache<K, V>>)
    ensures c.None? <==> capacity <= 0
    ensures c.Some? ==>
              && fresh(c.value) && c.value.Valid() && c.value.capacity == capacity
              && c.value.order == [] && c.value.Recency() == []
  {
    if capacity <= 0 {
      return None;
    }
    var cache := new LRUCache(capacity);
    return Some(cache);
  }

  lemma PairsOne<K, V>(e: Entry<K, V>)
    ensures Pairs([e]) == [(e.key, e.value)]
  {
  }

  lemma SameSize<K, V>(s: seq<Entry<K, V>>, t: seq<Entry<K, V>>)
    requires Same(s, t)
    ensures |s| == |t| && forall i :: 0 <= i < |t| ==> t[i] in s
  {
  }

  lemma SameItself<K, V>(s: seq<Entry<K, V>>)
    ensures Same(s, s)
  {
  }

  lemma {:induction false} WithoutIs<K(!new), V(!new)>(s: Recent<K, V>, k: K)
    ensures forall i :: 0 <= i < |Without(s, k)| ==> Without(s, k)[i] in s && Without(s, k)[i].0 != k
    ensures Without(Without(s, k), k) == Without(s, k)
  {
    if s != [] {
      var r := Without(s[1..], k);
      WithoutIs(s[1..], k);
      assert forall i :: 0 <= i < |r| ==> r[i] in s[1..];
      assert forall e :: e in s[1..] ==> e in s;
      if s[0].0 == k {
        assert Without(s, k) == r;
      } else {
        var t := [s[0]] + r;
        assert t[1..] == r && Without(s, k) == t;
      }
    }
  }
}
