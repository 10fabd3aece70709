/** The vector index: a forest that keeps stale copies until it is rebuilt, the debt that
    bounds them, and readings re-ranked against the live vectors. */
module VectorIndexes {
  import opened Keys
  import opened RPSpec
  import opened RPTrees
  import opened Sequences
  import opened VectorReading
  import TopKs

  const DEFAULT_FLUSH_FACTOR := 2
  const DEFAULT_LEAF_SIZE := 32
  const DEFAULT_OVERFETCH := 32

  function OrDefault(n: int, d: nat): nat { if n <= 0 then d else n }

  // ---------------------------------------------------------------- a forest

  ghost function Footprint<V(!new)>(f: seq<RPTree<V>>): set<object>
    reads set i | 0 <= i < |f| :: f[i]
  {
    (set i | 0 <= i < |f| :: f[i] as object) + (set i, o | 0 <= i < |f| && o in f[i].Repr :: o)
  }

  /** Trees of one kind, apart from each other: the first n hold t, the rest s. */
  ghost predicate Holding<V(!new)>(f: seq<RPTree<V>>, n: nat, t: multiset<Point<V>>, s: multiset<Point<V>>,
      dims: V -> nat, dim: nat, overfetch: nat)
    reads Footprint(f)
  {
    && (forall i :: 0 <= i < |f| ==>
       f[i].Valid() && f[i].dims == dims && f[i].dim == dim && f[i].overfetch == overfetch)
    && (forall i :: 0 <= i < |f| ==> multiset(Points(f[i].root.shape)) == if i < n then t else s)
    && (forall i, j :: 0 <= i < j < |f| ==> f[i].Repr !! f[j].Repr)
  }

  /** Every tree holding the same points. */
  ghost predicate Stocked<V(!new)>(f: seq<RPTree<V>>, s: multiset<Point<V>>, dims: V -> nat, dim: nat, overfetch: nat)
    reads Footprint(f)
  {
    Holding(f, 0, s, s, dims, dim, overfetch)
  }

  /** One tree of a forest grown. */
  method PlantOne<V(!new)>(f: seq<RPTree<V>>, i: nat, p: Point<V>, ghost s: multiset<Point<V>>, dims: V -> nat,
      dim: nat, ghost overfetch: nat)
    requires i < |f| && Holding(f, i, s + multiset{p}, s, dims, dim, overfetch) && dims(p.value) == dim
    modifies Footprint(f)
    ensures Holding(f, i + 1, s + multiset{p}, s, dims, dim, overfetch) && fresh(Footprint(f) - old(Footprint(f)))
  {
    var draw: nat := *;
    var ok := f[i].Insert(p, draw);
    forall j | 0 <= j < |f| && j != i ensures f[j].Repr == old(f[j].Repr) && f[j].root == old(f[j].root)
        && f[j].root.shape == old(f[j].root.shape) && f[j].Valid() {
      assert f[j].Repr !! old(f[i].Repr);
    }
  }

  /** A point in every tree. */
  method Plant<V(!new)>(f: seq<RPTree<V>>, p: Point<V>, ghost s: multiset<Point<V>>, dims: V -> nat, dim: nat,
      ghost overfetch: nat)
    requires Stocked(f, s, dims, dim, overfetch) && dims(p.value) == dim
    modifies Footprint(f)
    ensures Stocked(f, s + multiset{p}, dims, dim, overfetch) && fresh(Footprint(f) - old(Footprint(f)))
  {
    hide Holding, Footprint;
    NoneYet(f, s + multiset{p}, s, dims, dim, overfetch);
    for i := 0 to |f|
      invariant Holding(f, i, s + multiset{p}, s, dims, dim, overfetch) && fresh(Footprint(f) - old(Footprint(f)))
    {
      label L:
      PlantOne(f, i, p, s, dims, dim, overfetch);
      forall o | o in Footprint(f) && o !in old@L(Footprint(f)) ensures fresh(o) {
        assert old(allocated(o)) ==> old@L(allocated(o));
      }
    }
    AllOfThem(f, s + multiset{p}, s, dims, dim, overfetch);
  }

  lemma NoneYet<V(!new)>(f: seq<RPTree<V>>, t: multiset<Point<V>>, s: multiset<Point<V>>, dims: V -> nat, dim: nat,
      overfetch: nat)
    requires Holding(f, 0, s, s, dims, dim, overfetch)
    ensures Holding(f, 0, t, s, dims, dim, overfetch)
  {
  }

  lemma AllOfThem<V(!new)>(f: seq<RPTree<V>>, t: multiset<Point<V>>, s: multiset<Point<V>>, dims: V -> nat, dim: nat,
      overfetch: nat)
    requires Holding(f, |f|, t, s, dims, dim, overfetch)
    ensures Holding(f, 0, t, t, dims, dim, overfetch)
  {
  }

  /** Empty trees, each with its own directions. */
  method PlantNew<V(!new)>(dims: V -> nat, bases: (nat, nat) -> Basis<V>, dim: nat, projDim: nat, numTrees: nat,
      leafSize: nat, overfetch: nat)
    returns (f: seq<RPTree<V>>)
    requires overfetch >= 1
    ensures |f| == numTrees && Stocked(f, multiset{}, dims, dim, overfetch) && fresh(Footprint(f))
  {
    f := [];
    assert Stocked(f, multiset{}, dims, dim, overfetch) && Footprint(f) == {};
    while |f| < numTrees
      invariant |f| <= numTrees && Stocked(f, multiset{}, dims, dim, overfetch) && fresh(Footprint(f))
    {
      f := PlantAnother(f, dims, bases(dim, |f|), dim, projDim, leafSize, overfetch);
    }
  }

  method PlantAnother<V(!new)>(f: seq<RPTree<V>>, dims: V -> nat, basis: Basis<V>, dim: nat, projDim: nat,
      leafSize: nat, overfetch: nat)
    returns (g: seq<RPTree<V>>)
    requires overfetch >= 1 && Stocked(f, multiset{}, dims, dim, overfetch)
    ensures |g| == |f| + 1 && Stocked(g, multiset{}, dims, dim, overfetch) && fresh(Footprint(g) - old(Footprint(f)))
  {
    hide Sound;
    var t := new RPTree<V>(basis, dims, dim, projDim, leafSize, overfetch);
    g := f + [t];
  }

  /** The trees an index holds, all over the same points. */
  class Forest<V(!new)> {
    const dims: V -> nat
    const dim: nat
    const overfetch: nat
    var trees: seq<RPTree<V>>
    ghost var stored: multiset<Point<V>>
    ghost var Repr: set<object>

    ghost predicate Valid()
      reads this, Repr
    {
      && this in Repr && overfetch >= 1
      && (forall i :: 0 <= i < |trees| ==> trees[i] in Repr)
      && Footprint(trees) <= Repr && this !in Footprint(trees)
      && Stocked(trees, stored, dims, dim, overfetch)
    }

    constructor (dims: V -> nat, bases: (nat, nat) -> Basis<V>, dim: nat, projDim: nat, numTrees: nat, leafSize: nat,
        overfetch: nat)
      requires overfetch >= 1
      ensures Valid() && fresh(Repr) && |trees| == numTrees && stored == multiset{}
      ensures this.dims == dims && this.dim == dim && this.overfetch == overfetch
    {
      hide Stocked, Footprint;
      this.dims, this.dim, this.overfetch := dims, dim, overfetch;
      trees, stored, Repr := [], multiset{}, {this};
      new;
      trees := PlantNew(dims, bases, dim, projDim, numTrees, leafSize, overfetch);
      Repr := {this} + Footprint(trees);
      InFootprint(trees);
    }

    /** A point in every tree. */
    method Insert(p: Point<V>)
      requires Valid() && dims(p.value) == dim
      modifies Repr
      ensures Valid() && fresh(Repr - old(Repr)) && stored == old(stored) + multiset{p} && trees == old(trees)
    {
      hide Stocked, Footprint;
      Plant(trees, p, stored, dims, dim, overfetch);
      InFootprint(trees);
      stored := stored + multiset{p};
      Repr := Repr + Footprint(trees);
    }

    static lemma InFootprint(f: seq<RPTree<V>>)
      ensures forall i :: 0 <= i < |f| ==> f[i] in Footprint(f)
    {
    }

    /** How many entries each tree holds, live or stale. */
    method Entries() returns (n: nat)
      requires Valid()
      ensures trees != [] ==> n == |stored|
    {
      if trees == [] {
        return 0;
      }
      assert |Points(trees[0].root.shape)| == |multiset(Points(trees[0].root.shape))|;
      return trees[0].length;
    }
  }

  // ---------------------------------------------------------------- the index

  /** Every live key's current vector among the points stored. */
  ghost predicate Current<V(!new)>(vectors: map<Key, V>, stored: multiset<Point<V>>, dims: V -> nat, dim: nat) {
    forall k :: k in vectors ==> Point(k, vectors[k]) in stored && dims(vectors[k]) == dim
  }

  /** What rebuilding has cost so far, with the stale copies still to pay for, is covered
      by the updates and deletes made. */
  predicate Covered(factor: nat, stored: nat, live: nat, mutations: nat, rebuilt: nat) {
    factor >= 2 ==> rebuilt + stored <= mutations + live
  }

  /** The debt after a mutation that left n entries: a flush drops the stale ones and costs
      the live ones, and happens exactly when there are too many entries. */
  predicate Settled(factor: nat, trees: nat, n: nat, live: nat, before: nat, stored: nat, rebuilt: nat) {
    if trees > 0 && n > factor * live then stored == live && rebuilt == before + live
        else stored == n && rebuilt == before
  }

  /** The filter of a search that names none. */
  function Any(): Key -> bool { (x: Key) => true }

  datatype Outcome = Done | BadDimension | NotFound | NothingIndexed

  ghost predicate HitBySome<V(!new)>(hits: seq<seq<Point<V>>>, x: Key) {
    exists i :: 0 <= i < |hits| && !Absent(hits[i], x)
  }

  /** The pool offered so far: the live keys among those seen. */
  ghost predicate Pools<V(!new)>(vectors: map<Key, V>, seen: set<Key>, pool: seq<Key>) {
    NoRepeats(pool) && forall x :: x in pool <==> x in seen && x in vectors
  }

  class VectorIndex<V(!new, ==)> {
    const dims: V -> nat
    const bases: (nat, nat) -> Basis<V>
    const projDim: nat
    const numTrees: nat
    const flushFactor: nat
    const leafSize: nat
    const overfetch: nat
    var forest: Forest<V>
    var vectors: map<Key, V>
    var dim: nat
    ghost var mutations: nat
    ghost var rebuilt: nat

    ghost predicate Valid()
      reads this, forest, forest.Repr
    {
      && flushFactor >= 1 && leafSize >= 1 && overfetch >= 1
      && this !in forest.Repr && forest.Valid()
      && forest.dims == dims && forest.dim == dim && forest.overfetch == overfetch
      && (|forest.trees| == numTrees || (dim == 0 && forest.trees == []))
      && (dim == 0 ==> vectors == map[] && forest.stored == multiset{} && rebuilt == 0)
      && Current(vectors, forest.stored, dims, dim)
    }

    /** Rebuilding is paid for by the mutations made. */
    ghost predicate Paid()
      reads this, forest
    {
      if forest.trees == [] then rebuilt == 0 else Covered(flushFactor, |forest.stored|, |vectors|, mutations, rebuilt)
    }

    /** The entries a tree holds are bounded by the live vectors. */
    ghost predicate Compact()
      reads this, forest
    {
      forest.trees == [] || |forest.stored| <= flushFactor * |vectors|
    }

    constructor (dims: V -> nat, bases: (nat, nat) -> Basis<V>, dim: nat, projDim: nat, numTrees: nat,
        flushFactor: int, leafSize: int, overfetch: int)
      ensures Valid() && Paid() && Compact() && fresh(forest.Repr) && vectors == map[] && this.dim == dim
              && this.dims == dims
      ensures this.numTrees == numTrees && this.flushFactor == OrDefault(flushFactor, DEFAULT_FLUSH_FACTOR)
      ensures mutations == 0 && rebuilt == 0 && forest.stored == multiset{}
      ensures this.overfetch == OrDefault(overfetch, DEFAULT_OVERFETCH)
    {
      hide Forest.Valid;
      var f := new Forest<V>(dims, bases, dim, projDim, if dim > 0 then numTrees else 0,
                 OrDefault(leafSize, DEFAULT_LEAF_SIZE), OrDefault(overfetch, DEFAULT_OVERFETCH));
      this.dims, this.bases, this.dim, this.projDim, this.numTrees := dims, bases, dim, projDim, numTrees;
      this.flushFactor := OrDefault(flushFactor, DEFAULT_FLUSH_FACTOR);
      this.leafSize := OrDefault(leafSize, DEFAULT_LEAF_SIZE);
      this.overfetch := OrDefault(overfetch, DEFAULT_OVERFETCH);
      forest, vectors, mutations, rebuilt := f, map[], 0, 0;
    }

    /** The live keys in ascending order. */
    method SortedKeys() returns (keys: seq<Key>)
      ensures NoRepeats(keys) && |keys| == |vectors| && forall k :: k in keys <==> k in vectors
      ensures Ascends(keys, ByHash())
    {
      hide SortBy, NoRepeats, Ascends;
      var found := Enumerate(vectors.Keys);
      keys := SortBy(found, ByHash());
      SortByKeeps(found, ByHash());
      SameItems(found, keys);
      Reordered(found, keys);
    }

    static function ByHash(): Key -> real { (k: Key) => k.hash as real }

    /** A forest over the live vectors alone, planted in key order. */
    method Build() returns (f: Forest<V>)
      requires Valid()
      ensures fresh(f.Repr) && f.Valid() && f.dims == dims && f.dim == dim && f.overfetch == overfetch
      ensures |f.trees| == numTrees && |f.stored| == |vectors| && Current(vectors, f.stored, dims, dim)
    {
      hide Forest.Valid, Current, NoRepeats, Ascends;
      f := new Forest<V>(dims, bases, dim, projDim, numTrees, leafSize, overfetch);
      var keys := SortedKeys();
      for i := 0 to |keys|
        invariant fresh(f.Repr) && f.Valid() && |f.trees| == numTrees && |f.stored| == i
        invariant forall j :: 0 <= j < i ==> keys[j] in vectors && Point(keys[j], vectors[keys[j]]) in f.stored
      {
        var k := keys[i];
        assert k in keys;
        DimOf(vectors, forest.stored, dims, dim, k);
        f.Insert(Point(k, vectors[k]));
      }
      forall k | k in vectors ensures Point(k, vectors[k]) in f.stored && dims(vectors[k]) == dim {
        assert k in keys;
        DimOf(vectors, forest.stored, dims, dim, k);
      }
      AllCurrent(vectors, f.stored, dims, dim);
    }

    /** Rebuilds the forest from the live vectors. */
    method Flush()
      requires Valid()
      modifies this
      ensures Valid() && fresh(forest.Repr) && |forest.stored| == |vectors| && |forest.trees| == numTrees
      ensures vectors == old(vectors) && dim == old(dim) && mutations == old(mutations) && rebuilt == old(rebuilt)
    {
      hide Forest.Valid, Current;
      var f := Build();
      forest := f;
    }

    static lemma DimOf(vectors: map<Key, V>, stored: multiset<Point<V>>, dims: V -> nat, dim: nat, k: Key)
      requires Current(vectors, stored, dims, dim) && k in vectors
      ensures dims(vectors[k]) == dim
    {
    }

    static lemma AllCurrent(vectors: map<Key, V>, stored: multiset<Point<V>>, dims: V -> nat, dim: nat)
      requires forall k :: k in vectors ==> Point(k, vectors[k]) in stored && dims(vectors[k]) == dim
      ensures Current(vectors, stored, dims, dim)
    {
    }

    /** Rebuilds once a tree holds more than the allowed entries per live vector. */
    method MaybeFlush()
      requires Valid() && Paid()
      modifies this
      ensures Valid() && Paid() && Compact() && fresh(forest.Repr - old(forest.Repr))
      ensures vectors == old(vectors) && dim == old(dim) && mutations == old(mutations)
      ensures Settled(flushFactor, old(|forest.trees|), old(|forest.stored|), |vectors|, old(rebuilt), |forest.stored|,
              rebuilt)
      ensures |forest.trees| == old(|forest.trees|) || |forest.trees| == numTrees
      ensures old(|forest.trees|) == 0 || old(|forest.stored|) <= flushFactor * |vectors| ==>
              forest.stored == old(forest.stored)
    {
      hide Forest.Valid, Current;
      var n := forest.Entries();
      if forest.trees == [] || n <= flushFactor * |vectors| {
        return;
      }
      Pays(flushFactor, |forest.stored|, |vectors|);
      Flush();
      rebuilt := rebuilt + |vectors|;
    }

    static lemma Pays(factor: nat, stored: nat, live: nat)
      requires stored > factor * live
      ensures factor >= 2 ==> stored > live + live
      ensures factor >= 1 ==> live <= factor * live
    {
      if factor >= 1 {
        assert factor * live >= live;
      }
      if factor >= 2 {
        assert factor * live >= 2 * live;
      }
    }

    /** Adds or replaces a vector; re-asserting the one stored changes nothing. */
    method Insert(key: Key, value: V) returns (r: Outcome)
      requires Valid() && Paid() && Compact()
      modifies this, forest.Repr
      ensures Valid() && Paid() && Compact() && fresh(forest.Repr - old(forest.Repr))
      ensures r == if dims(value) == 0 || (old(dim) != 0 && dims(value) != old(dim)) then BadDimension else Done
      ensures vectors == if r == Done then old(vectors)[key := value] else old(vectors)
      ensures dim == if old(dim) == 0 && r == Done then dims(value) else old(dim)
      ensures mutations == old(mutations) + if r == Done && key in old(vectors)
              && old(vectors)[key] != value then 1 else 0
      ensures r != Done || (key in old(vectors) && old(vectors)[key] == value) ==>
                forest.stored == old(forest.stored) && rebuilt == old(rebuilt)
      ensures r == Done && !(key in old(vectors) && old(vectors)[key] == value) ==>
                Settled(flushFactor, numTrees, old(|forest.stored|) + 1, |vectors|, old(rebuilt), |forest.stored|,
                    rebuilt)
                && (numTrees == 0 || old(|forest.stored|) + 1 <= flushFactor * |vectors| ==>
                      forest.stored == old(forest.stored) + multiset{Point(key, value)})
    {
      hide Forest.Valid, Current;
      if dims(value) == 0 {
        return BadDimension;
      }
      if dim == 0 {
        var f := new Forest<V>(dims, bases, dims(value), projDim, numTrees, leafSize, overfetch);
        NoneCurrent(dims, dims(value));
        dim, forest := dims(value), f;
      }
      if dims(value) != dim {
        return BadDimension;
      }
      if key in vectors && vectors[key] == value {
        return Done;
      }
      Store(key, value);
      MaybeFlush();
      return Done;
    }

    static lemma NoneCurrent(dims: V -> nat, dim: nat)
      ensures Current(map[], multiset{}, dims, dim)
    {
    }

    /** The live map and every tree given a key's new vector. */
    method Store(key: Key, value: V)
      requires Valid() && Paid() && dims(value) == dim && dim != 0 && (key !in vectors || vectors[key] != value)
      modifies this, forest.Repr
      ensures Valid() && Paid() && fresh(forest.Repr - old(forest.Repr))
      ensures vectors == old(vectors)[key := value] && dim == old(dim)
      ensures mutations == old(mutations) + if key in old(vectors) then 1 else 0
      ensures forest.stored == old(forest.stored) + multiset{Point(key, value)}
      ensures |forest.trees| == old(|forest.trees|) && rebuilt == old(rebuilt)
    {
      hide Forest.Valid, Current;
      CurrentMore(vectors, forest.stored, dims, dim, key, value);
      if key in vectors {
        mutations := mutations + 1;
      }
      vectors := vectors[key := value];
      forest.Insert(Point(key, value));
    }

    static lemma CurrentMore(vectors: map<Key, V>, stored: multiset<Point<V>>, dims: V -> nat, dim: nat, key: Key,
        value: V)
      requires Current(vectors, stored, dims, dim) && dims(value) == dim
      ensures Current(vectors[key := value], stored + multiset{Point(key, value)}, dims, dim)
      ensures |vectors[key := value]| == |vectors| + if key in vectors then 0 else 1
    {
      assert vectors[key := value].Keys == vectors.Keys + {key};
    }

    /** Replaces the vector stored under a key. */
    method Update(key: Key, value: V) returns (r: Outcome)
      requires Valid() && Paid() && Compact()
      modifies this, forest.Repr
      ensures Valid() && Paid() && Compact() && fresh(forest.Repr - old(forest.Repr))
      ensures r == if key !in old(vectors) then NotFound
                   else if dims(value) == 0 || (old(dim) != 0 && dims(value) != old(dim)) then BadDimension else Done
      ensures dim == old(dim) || old(dim) == 0
      ensures vectors == if r == Done then old(vectors)[key := value] else old(vectors)
      ensures r == Done && old(vectors)[key] != value ==>
                mutations == old(mutations) + 1
                && Settled(flushFactor, numTrees, old(|forest.stored|) + 1, |vectors|, old(rebuilt), |forest.stored|,
                   rebuilt)
                && (numTrees == 0 || old(|forest.stored|) + 1 <= flushFactor * |vectors| ==>
                      forest.stored == old(forest.stored) + multiset{Point(key, value)})
    {
      hide *;
      if key !in vectors {
        return NotFound;
      }
      r := Insert(key, value);
    }

    /** Drops a vector; its copies stay in the forest until it is rebuilt. */
    method Delete(key: Key) returns (r: Outcome)
      requires Valid() && Paid() && Compact()
      modifies this
      ensures Valid() && Paid() && Compact() && fresh(forest.Repr - old(forest.Repr))
      ensures r == (if key in old(vectors) then Done else NotFound) && vectors == old(vectors) - {key}
      ensures mutations == old(mutations) + if r == Done then 1 else 0
      ensures r == Done ==>
              Settled(flushFactor, old(|forest.trees|), old(|forest.stored|), |vectors|, old(rebuilt), |forest.stored|,
              rebuilt)
      ensures r != Done ==> forest == old(forest) && |forest.stored| == old(|forest.stored|) && rebuilt == old(rebuilt)
    {
      hide Forest.Valid, Current;
      if key !in vectors {
        return NotFound;
      }
      CurrentLess(vectors, forest.stored, dims, dim, key);
      vectors := vectors - {key};
      mutations := mutations + 1;
      MaybeFlush();
      return Done;
    }

    static lemma CurrentLess(vectors: map<Key, V>, stored: multiset<Point<V>>, dims: V -> nat, dim: nat, key: Key)
      requires Current(vectors, stored, dims, dim) && key in vectors
      ensures Current(vectors - {key}, stored, dims, dim) && |vectors - {key}| == |vectors| - 1
    {
      assert (vectors - {key}).Keys == vectors.Keys - {key};
    }

    static lemma {:induction false} LiveStored(vectors: map<Key, V>, stored: multiset<Point<V>>, dims: V -> nat,
        dim: nat)
      requires Current(vectors, stored, dims, dim)
      ensures |vectors| <= |stored|
      decreases |vectors|
    {
      if vectors != map[] {
        var k :| k in vectors;
        var p := Point(k, vectors[k]);
        CurrentLess(vectors, stored, dims, dim, k);
        LiveStored(vectors - {k}, stored - multiset{p}, dims, dim);
      }
    }

    /** With a factor of at least two, the live vectors rebuilt by every flush so far are
        no more than the updates and deletes made. */
    lemma RebuildsArePaid()
      requires Valid() && Paid() && flushFactor >= 2
      ensures rebuilt <= mutations
    {
      LiveStored(vectors, forest.stored, dims, dim);
    }

    // -------------------------------------------------------------- readings

    /** A tree's hits offered, each live key once across the forest, at the distance of its
        live vector. */
    method PoolHits(nodes: seq<Point<V>>, far: V -> nat, before: set<Key>, ranker: TopKs.TopK, ghost pool: seq<Key>)
      returns (seen: set<Key>, ghost after: seq<Key>)
      requires ranker.Valid() && ranker.offered == Map(pool, Offered(vectors, far)) && Pools(vectors, before, pool)
      modifies ranker
      ensures ranker.Valid() && ranker.offered == Map(after, Offered(vectors, far)) && Pools(vectors, seen, after)
      ensures forall x :: x in seen <==> x in before || !Absent(nodes, x)
    {
      hide TopKs.TopK.Valid, Map;
      seen, after := before, pool;
      for i := 0 to |nodes|
        invariant ranker.Valid() && ranker.offered == Map(after, Offered(vectors, far)) && Pools(vectors, seen, after)
        invariant forall x :: x in seen <==> x in before || exists j :: 0 <= j < i && nodes[j].key == x
      {
        var key := nodes[i].key;
        if key in seen {
          continue;
        }
        seen := seen + {key};
        if key !in vectors {
          continue;
        }
        ranker.Offer(key.hash, -(far(vectors[key]) as real));
        MapAppends(after, [key], Offered(vectors, far));
        OneOffer(vectors, far, key);
        after := after + [key];
      }
    }

    static lemma OneOffer(vectors: map<Key, V>, far: V -> nat, key: Key)
      requires key in vectors
      ensures Map([key], Offered(vectors, far)) == [TopKs.Entry(key.hash, -(far(vectors[key]) as real))]
    {
    }

    /** What a tree's hits are: the nearest of what its walk gathers, and of every accepted
        copy when there are no more of them than it may gather. */
    ghost static predicate HitsOf(s: Shape<V>, b: Basis<V>, query: V, far: V -> nat, k: int, overfetch: nat,
        keep: Key -> bool, hits: seq<Point<V>>)
      requires k > 0
    {
      && Nearest(Gathered(s, k * overfetch, Projected(b, query), keep), far, k, hits)
      && (|Accepted(s, keep)| <= k * overfetch ==> Nearest(Accepted(s, keep), far, k, hits))
    }

    static function Projected(b: Basis<V>, query: V): nat -> real { (row: nat) => b(query, row) }

    /** The pool a reading ranks: the live keys among every tree's hits. */
    ghost predicate Pooled(query: V, far: V -> nat, k: int, keep: Key -> bool, hits: seq<seq<Point<V>>>, pool: seq<Key>)
      requires k > 0
      reads this, forest, forest.Repr
    {
      && |hits| == |forest.trees|
      && (forall i :: 0 <= i < |hits| && forest.trees[i] in forest.Repr && forest.trees[i].root in forest.Repr ==>
            HitsOf(forest.trees[i].root.shape, forest.trees[i].basis, query, far, k, overfetch, keep, hits[i]))
      && NoRepeats(pool)
      && (forall x :: x in pool <==> x in vectors && HitBySome(hits, x))
    }

    lemma TreeAt(i: nat)
      requires Valid() && i < |forest.trees|
      ensures var t := forest.trees[i];
              t in forest.Repr && t.root in forest.Repr && t.Valid() && t.dims == dims && t.dim == dim
                  && t.overfetch == overfetch
              && multiset(Points(t.root.shape)) == forest.stored
    {
      var t := forest.trees[i];
      assert t.root in t.Repr;
      assert t.root in Footprint(forest.trees);
    }

    /** One reading with a budget: every tree's hits pooled and re-ranked against the live
        vectors. */
    method ReadNearest(query: V, far: V -> nat, k: int, keep: Key -> bool)
      returns (out: seq<Neighbour>, ghost hits: seq<seq<Point<V>>>, ghost pool: seq<Key>)
      requires Valid() && dims(query) == dim && k > 0
      ensures Pooled(query, far, k, keep, hits, pool) && out == Negated(TopKs.Best(Map(pool, Offered(vectors, far)), k))
      ensures forall x :: x in pool ==> keep(x)
      ensures Honest(vectors, keep, far, out) && |out| <= k
    {
      hide TopKs.TopK.Valid, RPTree.Valid, Forest.Valid, Current, NoRepeats, TopKs.Best, Map, HitsOf, Absent, HitBySome;
      var seen: set<Key> := {};
      hits, pool := [], [];
      var ranker := new TopKs.TopK(k);
      NothingPooled(vectors, far);
      NoHits();
      for i := 0 to |forest.trees|
        invariant fresh(ranker) && ranker.Valid() && ranker.k == k
                && ranker.offered == Map(pool, Offered(vectors, far)) && Pools(vectors, seen, pool)
        invariant (forall x :: x in seen ==> keep(x)) && forall x :: x in seen <==> HitBySome(hits, x)
        invariant |hits| == i && forall j :: 0 <= j < i ==>
                    HitsOf(forest.trees[j].root.shape, forest.trees[j].basis, query, far, k, overfetch, keep, hits[j])
      {
        TreeAt(i);
        var t := forest.trees[i];
        var r := t.Nearest(query, Projected(t.basis, query), far, k, keep);
        TreeHits(t.root.shape, t.basis, query, far, k, overfetch, keep, r.value);
        seen, pool := PoolHits(r.value, far, seen, ranker, pool);
        forall x ensures HitBySome(hits + [r.value], x) <==> HitBySome(hits, x) || !Absent(r.value, x) {
          HitByMore(hits, r.value, x);
        }
        hits := hits + [r.value];
      }
      var best := ranker.Drain();
      out := Negate(best);
      PooledKeys(vectors, seen, pool);
      BestHonest(pool, vectors, keep, far, k);
    }

    static lemma NoHits()
      ensures forall x :: !HitBySome<V>([], x)
    {
    }

    static lemma HitByMore(hits: seq<seq<Point<V>>>, h: seq<Point<V>>, x: Key)
      ensures HitBySome(hits + [h], x) <==> HitBySome(hits, x) || !Absent(h, x)
    {
      hide Absent;
      var more := hits + [h];
      assert more[|hits|] == h && forall i :: 0 <= i < |hits| ==> more[i] == hits[i];
    }

    static lemma NothingPooled(vectors: map<Key, V>, far: V -> nat)
      ensures Map([], Offered(vectors, far)) == [] && Pools(vectors, {}, [])
    {
    }

    static lemma PooledKeys(vectors: map<Key, V>, seen: set<Key>, pool: seq<Key>)
      requires Pools(vectors, seen, pool)
      ensures NoRepeats(pool) && forall x :: x in pool <==> x in seen && x in vectors
    {
    }

    /** A tree's hits are points its filter accepts. */
    static lemma TreeHits(s: Shape<V>, b: Basis<V>, query: V, far: V -> nat, k: int, overfetch: nat, keep: Key -> bool,
        hits: seq<Point<V>>)
      requires k > 0 && Nearest(Gathered(s, k * overfetch, Projected(b, query), keep), far, k, hits)
      requires |Accepted(s, keep)| <= k * overfetch ==> Nearest(Accepted(s, keep), far, k, hits)
      ensures HitsOf(s, b, query, far, k, overfetch, keep, hits) && forall x :: !Absent(hits, x) ==> keep(x)
    {
      hide Gathered, Points;
      var g := Gathered(s, k * overfetch, Projected(b, query), keep);
      GatheredPartitions(s, k * overfetch, Projected(b, query), keep);
      Filters(Points(s), Kept(keep));
      forall i | 0 <= i < |hits| ensures keep(hits[i].key) {
        var p := hits[i];
        assert NearestCopy(g, far, p);
        assert p in multiset(g);
        assert p in multiset(Accepted(s, keep));
        assert p in Accepted(s, keep);
      }
    }

    /** Probed in full, a reading over reliable copies is the k nearest live vectors the
        filter accepts, stale copies or not. */
    lemma ReadingExact(query: V, far: V -> nat, k: int, keep: Key -> bool, hits: seq<seq<Point<V>>>, pool: seq<Key>,
        out: seq<Neighbour>)
      requires Valid() && k > 0 && forest.trees != [] && Pooled(query, far, k, keep, hits, pool)
      requires (forall x :: x in pool ==> keep(x)) && out == Negated(TopKs.Best(Map(pool, Offered(vectors, far)), k))
      ensures forest.trees[0].root in forest.Repr && (forall i :: 0 <= i < |out| ==> out[i].key in vectors)
      ensures var a := Accepted(forest.trees[0].root.shape, keep);
              |a| <= k * overfetch && Reliable(a, vectors, keep, k) ==>
                  NearestLive(vectors, keep, far, k, Read(vectors, out))
    {
      hide TopKs.Best, Map, RankedFrom, Reliable, Nearest, NearestLive, RPTree.Valid, Forest.Valid, Absent;
      TreeAt(0);
      var s := forest.trees[0].root.shape;
      var a := Accepted(s, keep);
      BestRanked(pool, vectors, far, k);
      var best := TopKs.Best(Map(pool, Offered(vectors, far)), k);
      forall i | 0 <= i < |best| ensures Key(best[i].key) in vectors {
        var e := best[i];
        assert e in best;
      }
      assert Read(vectors, out) == Ranked(vectors, best);
      if |a| <= k * overfetch && Reliable(a, vectors, keep, k) {
        HoldsLive(vectors, forest.stored, dims, dim, s, keep);
        assert HitsOf(s, forest.trees[0].basis, query, far, k, overfetch, keep, hits[0]);
        TreeExact(a, vectors, keep, far, k, hits[0], pool, Ranked(vectors, best));
      }
    }

    /** A tree's accepted copies hold every accepted live vector. */
    static lemma HoldsLive(vectors: map<Key, V>, stored: multiset<Point<V>>, dims: V -> nat, dim: nat, s: Shape<V>,
        keep: Key -> bool)
      requires Current(vectors, stored, dims, dim) && multiset(Points(s)) == stored
      ensures VectorReading.Holding(Accepted(s, keep), vectors, keep)
    {
      hide Points;
      Filters(Points(s), Kept(keep));
      forall x | VectorReading.Live(vectors, keep, x) ensures Point(x, vectors[x]) in Accepted(s, keep) {
        var p := Point(x, vectors[x]);
        assert p in stored && Kept(keep)(p);
        assert p in Points(s);
      }
    }

    /** With no more entries than live vectors, each entry is a live vector. */
    static lemma {:induction false} NoGarbage(vectors: map<Key, V>, stored: multiset<Point<V>>, dims: V -> nat,
        dim: nat)
      requires Current(vectors, stored, dims, dim) && |stored| == |vectors|
      ensures forall p :: p in stored ==> p.key in vectors && vectors[p.key] == p.value
      decreases |vectors|
    {
      if vectors != map[] {
        var k :| k in vectors;
        var p := Point(k, vectors[k]);
        CurrentLess(vectors, stored, dims, dim, k);
        NoGarbage(vectors - {k}, stored - multiset{p}, dims, dim);
        assert stored == (stored - multiset{p}) + multiset{p};
      }
    }

    /** Right after a rebuild the copies are reliable for every reading. */
    lemma RebuiltReliable(keep: Key -> bool, k: nat)
      requires Valid() && |forest.stored| == |vectors| && forest.trees != []
      ensures forest.trees[0].root in forest.Repr && Reliable(Accepted(forest.trees[0].root.shape, keep), vectors,
              keep, k)
    {
      hide RPTree.Valid, Forest.Valid, Points;
      TreeAt(0);
      NoGarbage(vectors, forest.stored, dims, dim);
      var s := forest.trees[0].root.shape;
      Filters(Points(s), Kept(keep));
      forall p | p in Accepted(s, keep) ensures p.key in vectors && vectors[p.key] == p.value {
        assert p in Points(s);
        assert p in multiset(Points(s));
      }
    }

    /** One reading without a budget: every accepted live vector, whatever order the map
        gives them in. */
    method ReadAll(far: V -> nat, keep: Key -> bool) returns (out: seq<Neighbour>)
      ensures ReadsAll(far, keep, out) && Honest(vectors, keep, far, out)
    {
      hide TopKs.TopK.Valid, TopKs.Best, Map;
      var every := new TopKs.TopK(0);
      var found := Enumerate(vectors.Keys);
      ghost var pool: seq<Key> := [];
      NothingPooled(vectors, far);
      for i := 0 to |found|
        invariant fresh(every) && every.Valid() && every.k == 0 && every.offered == Map(pool, Offered(vectors, far))
                && NoRepeats(pool)
        invariant forall x :: x in pool <==> x in found[..i] && keep(x)
      {
        var key := found[i];
        assert key in found;
        assert found[..i + 1] == found[..i] + [key];
        if keep(key) {
          every.Offer(key.hash, -(far(vectors[key]) as real));
          MapAppends(pool, [key], Offered(vectors, far));
          OneOffer(vectors, far, key);
          pool := pool + [key];
        }
      }
      assert found[..|found|] == found;
      var best := every.Drain();
      out := Negate(best);
      BestHonest(pool, vectors, keep, far, 0);
      forall keys | NoRepeats(keys) && (forall x :: x in keys <==> x in vectors && keep(x))
        ensures TopKs.Best(Map(keys, Offered(vectors, far)), 0) == best {
        SameOnce(keys, pool);
        MapPermutes(keys, pool, Offered(vectors, far));
        TopKs.BestPermutes(Map(keys, Offered(vectors, far)), Map(pool, Offered(vectors, far)), 0);
      }
    }

    /** Every accepted live key, ranked. */
    ghost predicate ReadsAll(far: V -> nat, keep: Key -> bool, out: seq<Neighbour>)
      reads this
    {
      forall keys :: NoRepeats(keys) && (forall x :: x in keys <==> x in vectors && keep(x))
        ==> out == Negated(TopKs.Best(Map(keys, Offered(vectors, far)), 0))
    }

    /** What one reading of a search is. */
    ghost predicate IsReading(query: V, far: V -> nat, k: int, keep: Key -> bool, out: seq<Neighbour>)
      reads this, forest, forest.Repr
    {
      && Honest(vectors, keep, far, out)
      && (if k <= 0 then ReadsAll(far, keep, out) else
            |out| <= k && exists hits, pool :: IsRanking(query, far, k, keep, hits, pool, out))
    }

    ghost predicate IsRanking(query: V, far: V -> nat, k: int, keep: Key -> bool, hits: seq<seq<Point<V>>>,
        pool: seq<Key>, out: seq<Neighbour>)
      requires k > 0
      reads this, forest, forest.Repr
    {
      && Pooled(query, far, k, keep, hits, pool) && (forall x :: x in pool ==> keep(x))
      && out == Negated(TopKs.Best(Map(pool, Offered(vectors, far)), k))
    }

    static function DistanceTo(query: V, distance: (V, V) -> nat): V -> nat { (v: V) => distance(query, v) }

    /** One reading per filter, or a single unfiltered one. */
    method Search(query: V, distance: (V, V) -> nat, k: int, keeps: seq<Key -> bool>)
      returns (r: Outcome, readings: seq<seq<Neighbour>>)
      requires Valid()
      ensures r == if vectors == map[] then NothingIndexed else if dims(query) != dim then BadDimension else Done
      ensures r == Done ==> var all := if keeps == [] then [Any()] else keeps;
                |readings| == |all| && forall i :: 0 <= i < |all| ==>
                    IsReading(query, DistanceTo(query, distance), k, all[i], readings[i])
      ensures r != Done ==> readings == []
    {
      hide IsReading, Forest.Valid, Current;
      if vectors == map[] {
        return NothingIndexed, [];
      }
      if dims(query) != dim {
        return BadDimension, [];
      }
      var all := if keeps == [] then [Any()] else keeps;
      readings := [];
      for i := 0 to |all|
        invariant |readings| == i
        invariant forall j :: 0 <= j < i ==> IsReading(query, DistanceTo(query, distance), k, all[j], readings[j])
      {
        var out := ReadOne(query, DistanceTo(query, distance), k, all[i]);
        readings := readings + [out];
      }
      return Done, readings;
    }

    method ReadOne(query: V, far: V -> nat, k: int, keep: Key -> bool) returns (out: seq<Neighbour>)
      requires Valid() && dims(query) == dim
      ensures IsReading(query, far, k, keep, out)
    {
      hide Honest, Forest.Valid, Current, Pooled, ReadsAll;
      if k <= 0 {
        out := ReadAll(far, keep);
      } else {
        ghost var hits, pool;
        out, hits, pool := ReadNearest(query, far, k, keep);
        assert IsRanking(query, far, k, keep, hits, pool, out);
      }
    }

    static method Negate(best: seq<TopKs.Entry>) returns (out: seq<Neighbour>)
      ensures out == Negated(best)
    {
      out := [];
      for i := 0 to |best|
        invariant out == Negated(best[..i])
      {
        out := out + [Neighbour(Key(best[i].key), -best[i].score)];
      }
      assert best[..|best|] == best;
    }
  }

  // ---------------------------------------------------------------- what fails

  function Apart(q: nat, v: nat): nat { if v >= q then v - q else q - v }

  const MOVED := Key(1)
  const STAYS := Key(2)

  /** Three copies: a key's vector before and after it moved, and another's between. */
  ghost function Copies(): multiset<Point<nat>> { multiset{Point(MOVED, 0), Point(STAYS, 5), Point(MOVED, 9)} }

  lemma StaleFirst(a: seq<Point<nat>>, far: nat -> nat, hits: seq<Point<nat>>)
    requires multiset(a) == Copies() && far(0) == 0 && far(5) == 5 && far(9) == 9 && Nearest(a, far, 1, hits)
    ensures hits == [Point(MOVED, 0)]
  {
    var p, q := Point(MOVED, 0), Point(STAYS, 5);
    assert p in multiset(a) && q in multiset(a);
    assert p in a && q in a;
    if hits == [] {
      assert Absent(hits, MOVED);
    } else {
      assert NearestCopy(a, far, hits[0]);
      assert hits[0] in multiset(a);
      if hits[0].key == STAYS {
        assert Absent(hits, MOVED);
      }
    }
  }

  lemma StaleReading(idx: VectorIndex<nat>, out: seq<Neighbour>)
    requires idx.Valid() && idx.forest.stored == Copies() && idx.vectors == map[MOVED := 9, STAYS := 5]
    requires idx.overfetch == 32 && |idx.forest.trees| == 1
    requires idx.IsReading(0, VectorIndex<nat>.DistanceTo(0, Apart), 1, Any(), out)
    ensures out == [Neighbour(MOVED, 9.0)]
  {
    hide RPTree.Valid, Forest.Valid, VectorIndex.Valid, VectorIndex.Pooled, Honest, TopKs.Best, Map, Offered;
    var far := VectorIndex<nat>.DistanceTo(0, Apart);
    var keep: Key -> bool := Any();
    var hits, pool :| idx.IsRanking(0, far, 1, keep, hits, pool, out);
    StalePool(idx, far, keep, hits, pool);
    assert Map([MOVED], Offered(idx.vectors, far)) == [TopKs.Entry(MOVED.hash, -9.0)] by {
      VectorIndex<nat>.OneOffer(idx.vectors, far, MOVED);
    }
    OneBest(TopKs.Entry(MOVED.hash, -9.0));
  }

  lemma OneBest(e: TopKs.Entry)
    ensures TopKs.Best([e], 1) == [e]
  {
    TopKs.SortSorts([e]);
    assert |TopKs.Sort([e])| == 1 && TopKs.Sort([e])[0] in multiset([e]);
  }

  lemma StalePool(idx: VectorIndex<nat>, far: nat -> nat, keep: Key -> bool, hits: seq<seq<Point<nat>>>, pool: seq<Key>)
    requires idx.Valid() && idx.forest.stored == Copies() && MOVED in idx.vectors && idx.overfetch == 32
            && |idx.forest.trees| == 1
    requires (forall x :: keep(x)) && far(0) == 0 && far(5) == 5 && far(9) == 9
            && idx.Pooled(0, far, 1, keep, hits, pool)
    ensures pool == [MOVED]
  {
    hide RPTree.Valid, Forest.Valid, VectorIndex.Valid, Points, Gathered, Copies, HitBySome;
    idx.TreeAt(0);
    var t := idx.forest.trees[0];
    var s := t.root.shape;
    AllAccepted(Points(s), keep);
    assert |Points(s)| == |multiset(Points(s))| == 3 by { hide VectorIndex.Pooled; ThreeCopies(); }
    assert VectorIndex<nat>.HitsOf(s, t.basis, 0, far, 1, 32, keep, hits[0]);
    StaleFirst(Accepted(s, keep), far, hits[0]);
    OnlyMoved(idx.vectors, hits, pool);
  }

  lemma ThreeCopies()
    ensures |Copies()| == 3
  {
  }

  lemma {:induction false} AllAccepted(s: seq<Point<nat>>, keep: Key -> bool)
    requires forall x :: keep(x)
    ensures Filter(s, Kept(keep)) == s
  {
    if s != [] {
      AllAccepted(s[..|s| - 1], keep);
      assert keep(s[|s| - 1].key);
      assert s == s[..|s| - 1] + [s[|s| - 1]];
    }
  }

  lemma OnlyMoved(vectors: map<Key, nat>, hits: seq<seq<Point<nat>>>, pool: seq<Key>)
    requires |hits| == 1 && hits[0] == [Point(MOVED, 0)] && MOVED in vectors
    requires NoRepeats(pool) && forall x :: x in pool <==> x in vectors && HitBySome(hits, x)
    ensures pool == [MOVED]
  {
    forall x ensures HitBySome(hits, x) <==> x == MOVED {
      assert hits[0][0].key == MOVED;
    }
    assert MOVED in pool;
    AtMost(pool, {MOVED});
    assert pool[0] in pool;
  }

  lemma OneKey(m: map<Key, nat>)
    ensures m == map[MOVED := 0] ==> |m| == 1
  {
    assert m == map[MOVED := 0] ==> m.Keys == {MOVED};
  }

  lemma TwoKeys(m: map<Key, nat>)
    requires forall k :: k in m <==> k == MOVED || k == STAYS
    ensures |m| == 2
  {
    assert m.Keys == {MOVED, STAYS};
  }

  method TwoInserts() returns (idx: VectorIndex<nat>)
    ensures fresh(idx) && fresh(idx.forest.Repr) && idx.Valid() && idx.Paid() && idx.Compact()
    ensures idx.vectors == map[MOVED := 0, STAYS := 5]
    ensures idx.forest.stored == multiset{Point(MOVED, 0), Point(STAYS, 5)} && |idx.forest.stored| == 2
    ensures idx.flushFactor == 2 && idx.numTrees == 1 && idx.overfetch == 32 && idx.dim == 1
    ensures idx.dims == ((v: nat) => 1)
  {
    hide VectorIndex.Valid, VectorIndex.Paid, VectorIndex.Compact;
    idx := new VectorIndex<nat>((v: nat) => 1, (d: nat, i: nat) => (v: nat, row: nat) => 0.0, 1, 1, 1, 2, 32, 32);
    var r := idx.Insert(MOVED, 0);
    OneKey(idx.vectors);
    assert idx.forest.stored == multiset{Point(MOVED, 0)} && |idx.forest.stored| == 1;
    r := idx.Insert(STAYS, 5);
    TwoKeys(idx.vectors);
    assert idx.forest.stored == multiset{Point(MOVED, 0)} + multiset{Point(STAYS, 5)};
  }

  method MovedIndex() returns (idx: VectorIndex<nat>)
    ensures idx.Valid() && idx.vectors == map[MOVED := 9, STAYS := 5] && idx.forest.stored == Copies()
    ensures idx.overfetch == 32 && idx.dim == 1 && idx.dims == ((v: nat) => 1) && |idx.forest.trees| == 1
  {
    hide VectorIndex.Valid, VectorIndex.Paid, VectorIndex.Compact;
    idx := TwoInserts();
    var r := idx.Update(MOVED, 9);
    TwoKeys(idx.vectors);
    assert idx.forest.stored == multiset{Point(MOVED, 0), Point(STAYS, 5)} + multiset{Point(MOVED, 9)};
    Planted(idx);
  }

  /** An index in which a stale copy hides a nearer live vector: one vector was moved from
      0 to 9, its old copy still comes first, and the one at 5 is never read. */
  method StaleMisses() returns (idx: VectorIndex<nat>, readings: seq<seq<Neighbour>>)
    ensures idx.Valid() && idx.vectors == map[MOVED := 9, STAYS := 5]
    ensures readings == [[Neighbour(MOVED, 9.0)]]
  {
    hide VectorIndex.Valid, VectorIndex.IsReading;
    idx := MovedIndex();
    assert MOVED in idx.vectors && idx.dims(0) == idx.dim;
    var r;
    r, readings := idx.Search(0, Apart, 1, []);
    StaleReading(idx, readings[0]);
  }

  lemma Planted(idx: VectorIndex<nat>)
    requires idx.Valid() && idx.dim == 1 && idx.numTrees == 1
    ensures |idx.forest.trees| == 1
  {
  }

  /** At a factor of one the bound fails: an update in an index of two rebuilds both. */
  method FactorOneRebuildsMore() returns (idx: VectorIndex<int>)
    ensures idx.Valid() && idx.flushFactor == 1 && idx.mutations == 1 && idx.rebuilt == 2
  {
    hide VectorIndex.Valid, VectorIndex.Paid, VectorIndex.Compact;
    idx := new VectorIndex<int>((v: int) => 1, (d: nat, i: nat) => (v: int, row: nat) => 0.0, 1, 1, 1, 1, 1, 1);
    var a, b := Key(1), Key(2);
    var r := idx.Insert(a, 0);
    assert |idx.vectors| == 1;
    r := idx.Insert(b, 0);
    assert idx.vectors.Keys == {a, b} && |idx.vectors| == |idx.vectors.Keys|;
    r := idx.Update(a, 1);
    assert idx.vectors.Keys == {a, b} && |idx.vectors| == |idx.vectors.Keys|;
  }
}
