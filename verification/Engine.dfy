/** The engine's plan cache: a query planned before, or an equal one, stands in for the
    query asked, whatever the hash function does. */
module Engines {
  import opened LruCaches
  import opened Queries
  import opened Sequences
  import opened Wrappers

  /** A cache entry: the query as parsed, and the one planned in its place. */
  datatype CachedQuery = CachedQuery(parsed: Query, optimised: Query)

  function KeyOf<K>(h: Hasher<K>, q: Query): K { h.hash(Material(h, q)) }

  // ---------------------------------------------------------------- what a run leaves cached

  function Sans<A(==)>(s: seq<A>, x: A): seq<A> {
    if s == [] then [] else (if s[0] == x then [] else [s[0]]) + Sans(s[1..], x)
  }

  /** Each key once, the last used first. */
  function LastUsed<K(==)>(h: Hasher<K>, asked: seq<Query>): seq<K> {
    if asked == [] then [] else
      var k := KeyOf(h, asked[|asked| - 1]);
      [k] + Sans(LastUsed(h, asked[..|asked| - 1]), k)
  }

  /** The query asked last under a key. */
  function LastUnder<K(==)>(h: Hasher<K>, asked: seq<Query>, k: K): Option<Query> {
    if asked == [] then None
    else if KeyOf(h, asked[|asked| - 1]) == k then Some(asked[|asked| - 1])
    else LastUnder(h, asked[..|asked| - 1], k)
  }

  lemma {:induction false} SansIs<A(!new)>(s: seq<A>, x: A)
    requires NoRepeats(s)
    ensures NoRepeats(Sans(s, x)) && forall y :: y in Sans(s, x) <==> y in s && y != x
  {
    if s != [] {
      var t := s[1..];
      TailOnce(s);
      SansIs(t, x);
      assert s == [s[0]] + t;
      if s[0] != x {
        FrontOnce(s[0], Sans(t, x));
      }
    }
  }

  lemma TailOnce<A>(s: seq<A>)
    requires NoRepeats(s) && s != []
    ensures NoRepeats(s[1..]) && s[0] !in s[1..]
  {
  }

  lemma FrontOnce<A>(x: A, s: seq<A>)
    requires NoRepeats(s) && x !in s
    ensures NoRepeats([x] + s)
  {
  }

  lemma NoneOnce<A>()
    ensures NoRepeats<A>([])
  {
  }

  lemma {:induction false} LastUsedOnce<K(!new)>(h: Hasher<K>, asked: seq<Query>)
    ensures NoRepeats(LastUsed(h, asked))
  {
    hide KeyOf, Sans, NoRepeats;
    if asked == [] {
      NoneOnce<K>();
    } else {
      var r, k := LastUsed(h, asked[..|asked| - 1]), KeyOf(h, asked[|asked| - 1]);
      LastUsedOnce(h, asked[..|asked| - 1]);
      SansIs(r, k);
      FrontOnce(k, Sans(r, k));
    }
  }

  /** What a cut leaves out costs the rest at most one place. */
  lemma {:induction false} SansCut<A(!new)>(s: seq<A>, n: nat, x: A)
    requires NoRepeats(s) && n <= |s|
    ensures Sans(s[..n], x) <= Sans(s, x) && n - 1 <= |Sans(s[..n], x)| <= n
    ensures x !in s[..n] ==> |Sans(s[..n], x)| == n
  {
    if n > 0 {
      var t := s[1..];
      assert s[..n][1..] == t[..n - 1];
      assert s == [s[0]] + t;
      SansCut(t, n - 1, x);
      if s[0] == x {
        assert x !in t[..n - 1];
      }
    }
  }

  /** Using a key in a cache of n leaves the n keys used last. */
  lemma UsedNext<A(!new)>(s: seq<A>, n: nat, x: A)
    requires NoRepeats(s) && n > 0
    ensures Fit([x] + Sans(Fit(s, n), x), n) == Fit([x] + Sans(s, x), n)
  {
    if |s| > n {
      SansCut(s, n, x);
      var a, b := Sans(s[..n], x), Sans(s, x);
      assert a == b[..|a|];
    }
  }

  lemma {:induction false} KeysWithout<K(!new), V>(s: Recent<K, V>, k: K)
    ensures Keys(Without(s, k)) == Sans(Keys(s), k)
  {
    if s != [] {
      KeysWithout(s[1..], k);
      assert Keys(s)[1..] == Keys(s[1..]);
    }
  }

  lemma {:induction false} LookupIn<K(!new), V>(s: Recent<K, V>, k: K)
    ensures Lookup(s, k).Some? <==> k in Keys(s)
    ensures Lookup(s, k).Some? ==> exists i :: 0 <= i < |s| && s[i] == (k, Lookup(s, k).value)
  {
    if s != [] {
      LookupIn(s[1..], k);
      assert Keys(s) == [s[0].0] + Keys(s[1..]);
      if s[0].0 != k && Lookup(s, k).Some? {
        var i :| 0 <= i < |s[1..]| && s[1..][i] == (k, Lookup(s, k).value);
        assert s[i + 1] == (k, Lookup(s, k).value);
      } else if s[0].0 == k {
        assert s[0] == (k, Lookup(s, k).value);
      }
    }
  }

  // ---------------------------------------------------------------- entries

  /** An entry planned for the query last asked under its key, or one equal to it. */
  ghost predicate Planned<K>(h: Hasher<K>, asked: seq<Query>, e: (K, CachedQuery)) {
    && e.1.optimised == Optimised(e.1.parsed) && KeyOf(h, e.1.parsed) == e.0
    && LastUnder(h, asked, e.0).Some? && e.1.parsed.Equal(LastUnder(h, asked, e.0).value)
  }

  /** What a run of plans leaves cached: the last keys used, each with what was planned. */
  ghost predicate Keeps<K(!new)>(h: Hasher<K>, asked: seq<Query>, capacity: nat, s: Recent<K, CachedQuery>) {
    && Keys(s) == Fit(LastUsed(h, asked), capacity)
    && forall i :: 0 <= i < |s| ==> Planned(h, asked, s[i])
  }

  /** Whether a cached query stands in for q. */
  predicate Hits<K(==)>(h: Hasher<K>, s: Recent<K, CachedQuery>, q: Query) {
    var e := Lookup(s, KeyOf(h, q));
    e.Some? && e.value.parsed.Equal(q)
  }

  /** A query is planned from the cache exactly when its key is among the last used ones
      and the query last asked under it is equal. */
  lemma HitsIff<K(!new)>(h: Hasher<K>, asked: seq<Query>, capacity: nat, s: Recent<K, CachedQuery>, q: Query)
    requires Keeps(h, asked, capacity, s)
    ensures Hits(h, s, q) <==>
            && KeyOf(h, q) in Fit(LastUsed(h, asked), capacity)
            && LastUnder(h, asked, KeyOf(h, q)).Some? && LastUnder(h, asked, KeyOf(h, q)).value.Equal(q)
  {
    hide Material, Optimised, Query.Equal;
    LookupIn(s, KeyOf(h, q));
    if Lookup(s, KeyOf(h, q)).Some? {
      var e := Lookup(s, KeyOf(h, q)).value;
      var i :| 0 <= i < |s| && s[i] == (KeyOf(h, q), e);
      assert Planned(h, asked, s[i]);
      var last := LastUnder(h, asked, KeyOf(h, q)).value;
      EqualAsks(e.parsed, last, q, 0);
      EqualAsks(last, e.parsed, q, 0);
    }
  }

  lemma {:induction false} SansShorter<A>(s: seq<A>, x: A)
    ensures |Sans(s, x)| <= |s| && (x in s ==> |Sans(s, x)| < |s|)
  {
    if s != [] {
      SansShorter(s[1..], x);
      assert s == [s[0]] + s[1..];
    }
  }

  lemma KeysFront<K(!new), V>(s: Recent<K, V>, k: K, v: V)
    ensures Keys(Front(s, k, v)) == [k] + Sans(Keys(s), k)
  {
    KeysWithout(s, k);
  }

  lemma LastUsedNext<K>(h: Hasher<K>, asked: seq<Query>, q: Query)
    ensures LastUsed(h, asked + [q]) == [KeyOf(h, q)] + Sans(LastUsed(h, asked), KeyOf(h, q))
  {
    assert (asked + [q])[..|asked|] == asked;
  }

  lemma LastUnderNext<K>(h: Hasher<K>, asked: seq<Query>, q: Query, k: K)
    ensures LastUnder(h, asked + [q], k) == if KeyOf(h, q) == k then Some(q) else LastUnder(h, asked, k)
  {
    assert (asked + [q])[..|asked|] == asked;
  }

  /** Moving a query's entry, or its new one, to the front keeps the record. */
  lemma KeepsNext<K(!new)>(h: Hasher<K>, asked: seq<Query>, n: nat, s: Recent<K, CachedQuery>, q: Query, e: CachedQuery)
    requires n > 0 && Keeps(h, asked, n, s)
    requires e.parsed.Equal(q) && e.optimised == Optimised(e.parsed) && KeyOf(h, e.parsed) == KeyOf(h, q)
    ensures Keeps(h, asked + [q], n, Fit(Front(s, KeyOf(h, q), e), n))
    ensures KeyOf(h, q) in Keys(s) ==> |Front(s, KeyOf(h, q), e)| <= n
  {
    hide KeyOf, Optimised, Query.Equal, LastUsed, LastUnder, Without, Lookup, Sans, NoRepeats, Keys;
    var k := KeyOf(h, q);
    var t := Front(s, k, e);
    KeysFront(s, k, e);
    LastUsedOnce(h, asked);
    LastUsedNext(h, asked, q);
    UsedNext(LastUsed(h, asked), n, k);
    SansShorter(Keys(s), k);
    FitKeys(t, n);
    WithoutIs(s, k);
    forall i | 0 <= i < |Fit(t, n)| ensures Planned(h, asked + [q], Fit(t, n)[i]) {
      LastUnderNext(h, asked, q, t[i].0);
      if i > 0 {
        assert t[i] == Without(s, k)[i - 1];
        var j :| 0 <= j < |s| && s[j] == t[i];
      }
    }
  }

  lemma FitKeys<K, V>(s: Recent<K, V>, n: nat)
    ensures Keys(Fit(s, n)) == Fit(Keys(s), n) && |Keys(s)| == |s|
  {
  }

  lemma EqualToItself(q: Query, r: Query)
    ensures q.Equal(q) && r.Equal(r)
  {
  }

  /** An entry found and then replaced. */
  lemma ReplacedFront<K(!new), V(!new)>(s: Recent<K, V>, k: K, found: Option<V>, v: V)
    ensures Front(if found.Some? then Front(s, k, found.value) else s, k, v) == Front(s, k, v)
  {
    WithoutIs(s, k);
    if found.Some? {
      assert Front(s, k, found.value)[1..] == Without(s, k);
    }
  }

  /** A cached query equal to q was planned into one that asks what q's plan would. */
  lemma StandsIn<K(!new)>(h: Hasher<K>, asked: seq<Query>, n: nat, s: Recent<K, CachedQuery>, q: Query, e: CachedQuery)
    requires n > 0 && Keeps(h, asked, n, s) && Lookup(s, KeyOf(h, q)) == Some(e) && e.parsed.Equal(q)
    ensures e.optimised.Equal(Optimised(q)) && forall now :: Asks(e.optimised, now) == Asks(Optimised(q), now)
    ensures Keeps(h, asked + [q], n, Front(s, KeyOf(h, q), e))
  {
    hide Material, Optimised, Query.Equal, Asks, Without, LastUsed, LastUnder;
    LookupIn(s, KeyOf(h, q));
    var i :| 0 <= i < |s| && s[i] == (KeyOf(h, q), e);
    assert Planned(h, asked, s[i]);
    KeepsNext(h, asked, n, s, q, e);
    OptimisedEqual(e.parsed, q);
    forall now ensures Asks(e.optimised, now) == Asks(Optimised(q), now) {
      EqualAsks(e.optimised, Optimised(q), q, now);
    }
  }

  // ---------------------------------------------------------------- the engine

  class Engine<K(==, !new)> {
    const hasher: Hasher<K>
    const cache: LRUCache<K, CachedQuery>
    /** The queries planned since the cache was last empty. */
    ghost var asked: seq<Query>

    ghost predicate Valid()
      reads this, cache, cache.order
    {
      cache.Valid() && Keeps(hasher, asked, cache.capacity, cache.Recency())
    }

    /** An engine is brought up only with a cache known good. */
    constructor (hasher: Hasher<K>, cache: LRUCache<K, CachedQuery>)
      requires cache.Valid() && cache.Recency() == []
      ensures Valid() && asked == [] && this.hasher == hasher && this.cache == cache
    {
      this.hasher := hasher;
      this.cache := cache;
      asked := [];
    }

    static method Start(hasher: Hasher<K>, capacity: int) returns (e: Option<Engine<K>>)
      ensures e.None? <==> capacity <= 0
      ensures e.Some? ==> fresh(e.value) && fresh(e.value.cache) && e.value.Valid() && e.value.asked == []
    {
      hide LRUCache.Valid, LRUCache.Recency, Keeps;
      var cache := NewLRUCache<K, CachedQuery>(capacity);
      if cache.None? {
        return None;
      }
      var engine := new Engine(hasher, cache.value);
      return Some(engine);
    }

    /** The query to run for q: what the pipeline makes of q itself, or of an equal query
        planned before; either way it asks the same. */
    method Plan(q: Query) returns (r: Query)
      requires Valid()
      modifies `asked, cache, cache.order
      ensures Valid() && cache.capacity == old(cache.capacity) && asked == old(asked) + [q]
      ensures r.Equal(Optimised(q)) && forall now :: Asks(r, now) == Asks(Optimised(q), now)
      ensures !Hits(hasher, old(cache.Recency()), q) ==> r == Optimised(q)
      ensures forall i :: 0 <= i < |cache.order| ==> cache.order[i] in old(cache.order) || fresh(cache.order[i])
    {
      hide Keeps, Material, Optimised, Query.Equal, Asks, Without, Lookup, Pairs, Linked, Same;
      var key := HashOf(hasher, q);
      ghost var was := cache.Recency();
      ghost var before := cache.order;
      var cached := cache.Get(key);
      SameSize(before, cache.order);
      if cached.Some? && cached.value.parsed.Equal(q) {
        r := cached.value.optimised;
        StandsIn(hasher, asked, cache.capacity, was, q, cached.value);
      } else {
        r := Optimise(q);
        EqualToItself(q, r);
        WithoutIs(was, key);
        cache.Put(key, CachedQuery(q, r));
        ReplacedFront(was, key, cached, CachedQuery(q, r));
        KeepsNext(hasher, asked, cache.capacity, was, q, CachedQuery(q, r));
      }
      asked := asked + [q];
    }

    /** Stop: the cache is cleared. */
    method Stop()
      requires Valid()
      modifies `asked, cache
      ensures Valid() && cache.Recency() == [] && asked == []
    {
      cache.Clear();
      asked := [];
    }
  }
}
