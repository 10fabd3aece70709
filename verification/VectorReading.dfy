/** What a vector reading makes of its trees' hits: the live keys among them, re-ranked at
    their live distances; and exactly when that is the k nearest live vectors. */
module VectorReading {
  import opened Keys
  import opened RPSpec
  import opened Sequences
  import TopKs

  /** A live key's offer: its distance to the query, negated. */
  function Offered<V>(vectors: map<Key, V>, far: V -> nat): Key -> TopKs.Entry {
    (k: Key) => TopKs.Entry(k.hash, if k in vectors then -(far(vectors[k]) as real) else 0.0)
  }

  /** A key a reading may return. */
  predicate Live<V(!new)>(vectors: map<Key, V>, keep: Key -> bool, x: Key) { x in vectors && keep(x) }

  /** The points a ranking of live keys stands for. */
  function Ranked<V>(vectors: map<Key, V>, best: seq<TopKs.Entry>): seq<Point<V>>
    requires forall e :: e in best ==> Key(e.key) in vectors
  {
    seq(|best|, i requires 0 <= i < |best| => Located(vectors, best, i))
  }

  function Located<V>(vectors: map<Key, V>, best: seq<TopKs.Entry>, i: nat): Point<V>
    requires i < |best| && forall e :: e in best ==> Key(e.key) in vectors
  {
    var e := best[i];
    assert e in best;
    Point(Key(e.key), vectors[Key(e.key)])
  }

  /** A ranking's entries are keys offered, each once, nearest first. */
  ghost predicate RanksKeys<V(!new)>(keys: seq<Key>, vectors: map<Key, V>, far: V -> nat, best: seq<TopKs.Entry>) {
    && (forall i :: 0 <= i < |best| ==>
       Key(best[i].key) in keys && Key(best[i].key) in vectors
       && best[i].score == -(far(vectors[Key(best[i].key)]) as real))
    && (forall i, j :: 0 <= i < j < |best| ==> best[i].key != best[j].key && best[i].score >= best[j].score)
    && (forall i, j :: 0 <= i < j < |best| && best[i].score == best[j].score ==> best[i].key < best[j].key)
  }

  ghost predicate Unranked(best: seq<TopKs.Entry>, x: Key) { forall i :: 0 <= i < |best| ==> best[i].key != x.hash }

  ghost predicate AllScore(best: seq<TopKs.Entry>, bar: real) { forall i :: 0 <= i < |best| ==> best[i].score >= bar }

  /** And a key left out is as far as every one kept. */
  lemma BestOfKeys<V(!new)>(keys: seq<Key>, vectors: map<Key, V>, far: V -> nat, k: int)
    requires NoRepeats(keys) && forall x :: x in keys ==> x in vectors
    ensures var best := TopKs.Best(Map(keys, Offered(vectors, far)), k);
            && |best| == (if k <= 0 || |keys| <= k then |keys| else k)
            && RanksKeys(keys, vectors, far, best)
            && (forall x :: x in keys && Unranked(best, x) ==>
               |best| == k && AllScore(best, -(far(vectors[x]) as real)))
  {
    hide Map, TopKs.Sort, TopKs.Sorted, Offered, RanksKeys, Unranked, AllScore;
    var offers := Map(keys, Offered(vectors, far));
    var all := TopKs.Sort(offers);
    var best := TopKs.Best(offers, k);
    TopKs.SortSorts(offers);
    SortedOffers(keys, vectors, far, all);
    assert best == all[..|best|];
    forall x | x in keys && Unranked(best, x) ensures |best| == k && AllScore(best, -(far(vectors[x]) as real)) {
      CutBefore(keys, vectors, far, all, |best|, x);
    }
    Prefix(keys, vectors, far, all, |best|);
  }

  lemma Prefix<V(!new)>(keys: seq<Key>, vectors: map<Key, V>, far: V -> nat, all: seq<TopKs.Entry>, n: nat)
    requires n <= |all| && RanksKeys(keys, vectors, far, all)
    ensures RanksKeys(keys, vectors, far, all[..n])
  {
  }

  lemma PrefixUnranked(all: seq<TopKs.Entry>, n: nat, x: Key, m: nat)
    requires n <= |all| && m < |all| && Unranked(all[..n], x)
    ensures m < n ==> all[m].key != x.hash
  {
    if m < n {
      assert all[..n][m] == all[m];
    }
  }

  lemma CutBefore<V(!new)>(keys: seq<Key>, vectors: map<Key, V>, far: V -> nat, all: seq<TopKs.Entry>, n: nat, x: Key)
    requires n <= |all| && RanksKeys(keys, vectors, far, all) && x in vectors && Unranked(all[..n], x)
            && !Unranked(all, x)
    ensures n < |all| && AllScore(all[..n], -(far(vectors[x]) as real))
  {
    var m :| 0 <= m < |all| && all[m].key == x.hash;
    PrefixUnranked(all, n, x, m);
  }

  lemma SortedOffers<V(!new)>(keys: seq<Key>, vectors: map<Key, V>, far: V -> nat, all: seq<TopKs.Entry>)
    requires NoRepeats(keys) && (forall x :: x in keys ==> x in vectors) && TopKs.Sorted(all)
    requires multiset(all) == multiset(Map(keys, Offered(vectors, far)))
    ensures |all| == |keys| && RanksKeys(keys, vectors, far, all) && forall x :: x in keys ==> !Unranked(all, x)
  {
    var offers := Map(keys, Offered(vectors, far));
    SameItems(all, offers);
    forall i, j | 0 <= i < j < |offers| ensures offers[i] != offers[j] {
      assert keys[i] != keys[j];
    }
    Reordered(offers, all);
    forall i | 0 <= i < |all| ensures Key(all[i].key) in keys
        && all[i].score == -(far(vectors[Key(all[i].key)]) as real) {
      var e := all[i];
      assert e in all;
      var n :| 0 <= n < |offers| && offers[n] == e;
      assert keys[n] in keys && Key(e.key) == keys[n];
    }
    forall i, j | 0 <= i < j < |all| ensures all[i].key != all[j].key && all[i].score >= all[j].score
        && (all[i].score == all[j].score ==> all[i].key < all[j].key) {
      assert !TopKs.Better(all[j], all[i]);
      assert all[i] != all[j];
    }
    forall x | x in keys ensures !Unranked(all, x) {
      var n :| 0 <= n < |keys| && keys[n] == x;
      var e := offers[n];
      assert e in offers;
      assert e in all;
    }
  }

  /** What a ranking says of the keys it came from: distinct keys in order of distance,
      none left out that is nearer than one kept. */
  ghost predicate RankedFrom<V(!new)>(keys: seq<Key>, vectors: map<Key, V>, far: V -> nat, k: nat, out: seq<Point<V>>) {
    && |out| == (if |keys| <= k then |keys| else k)
    && (forall i :: 0 <= i < |out| ==>
       out[i].key in keys && out[i].key in vectors && out[i].value == vectors[out[i].key])
    && (forall i, j :: 0 <= i < j < |out| ==> out[i].key != out[j].key && far(out[i].value) <= far(out[j].value))
    && (forall x :: x in keys && x in vectors && Absent(out, x) ==> |out| == k && AllWithin(out, far, far(vectors[x])))
  }

  lemma BestRanked<V(!new)>(keys: seq<Key>, vectors: map<Key, V>, far: V -> nat, k: nat)
    requires NoRepeats(keys) && k > 0 && forall x :: x in keys ==> x in vectors
    ensures var best := TopKs.Best(Map(keys, Offered(vectors, far)), k);
            (forall e :: e in best ==> Key(e.key) in vectors)
                && RankedFrom(keys, vectors, far, k, Ranked(vectors, best))
  {
    hide TopKs.Best, Map, Offered, AllWithin, AllScore, Unranked, Absent, RanksKeys, Ranked;
    BestOfKeys(keys, vectors, far, k);
    var best := TopKs.Best(Map(keys, Offered(vectors, far)), k);
    RanksPoints(keys, vectors, far, best);
    forall x | x in keys && x in vectors && Absent(Ranked(vectors, best), x)
      ensures |best| == k && AllWithin(Ranked(vectors, best), far, far(vectors[x])) {
      Dropped(keys, vectors, far, best, x);
    }
  }

  lemma RanksPoints<V(!new)>(keys: seq<Key>, vectors: map<Key, V>, far: V -> nat, best: seq<TopKs.Entry>)
    requires RanksKeys(keys, vectors, far, best)
    ensures forall e :: e in best ==> Key(e.key) in vectors
    ensures var out := Ranked(vectors, best);
            && |out| == |best|
            && (forall i :: 0 <= i < |out| ==>
               out[i].key in keys && out[i].key in vectors && out[i].value == vectors[out[i].key])
            && (forall i, j :: 0 <= i < j < |out| ==>
               out[i].key != out[j].key && far(out[i].value) <= far(out[j].value))
  {
    forall e | e in best ensures Key(e.key) in vectors {
      var i :| 0 <= i < |best| && best[i] == e;
    }
  }

  lemma Dropped<V(!new)>(keys: seq<Key>, vectors: map<Key, V>, far: V -> nat, best: seq<TopKs.Entry>, x: Key)
    requires RanksKeys(keys, vectors, far, best) && x in vectors && forall e :: e in best ==> Key(e.key) in vectors
    requires Absent(Ranked(vectors, best), x)
    ensures Unranked(best, x)
    ensures AllScore(best, -(far(vectors[x]) as real)) ==> AllWithin(Ranked(vectors, best), far, far(vectors[x]))
  {
    var out := Ranked(vectors, best);
    forall i | 0 <= i < |best| ensures best[i].key != x.hash {
      assert out[i].key == Key(best[i].key);
    }
  }

  /** Keys in the order of points. */
  function KeysIn<V>(s: seq<Point<V>>): (r: seq<Key>)
    ensures |r| == |s| && forall i :: 0 <= i < |s| ==> r[i] == s[i].key
  {
    seq(|s|, i requires 0 <= i < |s| => s[i].key)
  }

  datatype Neighbour = Neighbour(key: Key, distance: real)

  function Negated(best: seq<TopKs.Entry>): (r: seq<Neighbour>)
    ensures |r| == |best| && forall i :: 0 <= i < |r| ==> r[i] == Neighbour(Key(best[i].key), -best[i].score)
  {
    seq(|best|, i requires 0 <= i < |best| => Neighbour(Key(best[i].key), -best[i].score))
  }

  /** The live points a reading names. */
  function Read<V>(vectors: map<Key, V>, out: seq<Neighbour>): seq<Point<V>>
    requires forall i :: 0 <= i < |out| ==> out[i].key in vectors
  {
    seq(|out|, i requires 0 <= i < |out| => Point(out[i].key, vectors[out[i].key]))
  }

  /** Live accepted keys, each once, at the distance of its current vector, nearest first
      and ties in key order: no stale copy shows. */
  ghost predicate Honest<V(!new)>(vectors: map<Key, V>, keep: Key -> bool, far: V -> nat, out: seq<Neighbour>) {
    && (forall i :: 0 <= i < |out| ==>
       out[i].key in vectors && keep(out[i].key) && out[i].distance == far(vectors[out[i].key]) as real)
    && (forall i, j :: 0 <= i < j < |out| ==> out[i].key != out[j].key && out[i].distance <= out[j].distance)
    && (forall i, j :: 0 <= i < j < |out| && out[i].distance == out[j].distance ==> out[i].key.hash < out[j].key.hash)
  }

  lemma BestHonest<V(!new)>(pool: seq<Key>, vectors: map<Key, V>, keep: Key -> bool, far: V -> nat, k: int)
    requires NoRepeats(pool) && forall x :: x in pool ==> x in vectors && keep(x)
    ensures var out := Negated(TopKs.Best(Map(pool, Offered(vectors, far)), k));
            Honest(vectors, keep, far, out) && (k > 0 ==> |out| <= k)
  {
    hide TopKs.Best, Map, AllScore, Unranked;
    BestOfKeys(pool, vectors, far, k);
  }

  // ---------------------------------------------------------------- exactness

  /** The k nearest of the live vectors a filter accepts. */
  ghost predicate NearestLive<V(!new)>(vectors: map<Key, V>, keep: Key -> bool, far: V -> nat, k: nat,
      out: seq<Point<V>>) {
    && |out| <= k
    && (forall i, j :: 0 <= i < j < |out| ==> out[i].key != out[j].key && far(out[i].value) <= far(out[j].value))
    && (forall i :: 0 <= i < |out| ==> Live(vectors, keep, out[i].key) && out[i].value == vectors[out[i].key])
    && (forall x :: Live(vectors, keep, x) && Absent(out, x) ==> |out| == k && AllWithin(out, far, far(vectors[x])))
  }

  /** The live keys among a tree's hits. */
  ghost predicate PoolOf<V(!new)>(vectors: map<Key, V>, hits: seq<Point<V>>, pool: seq<Key>) {
    NoRepeats(pool) && forall x :: x in pool <==> x in vectors && !Absent(hits, x)
  }

  /** k keys of a pool at least as near as a live key. */
  ghost predicate Dominated<V(!new)>(pool: seq<Key>, vectors: map<Key, V>, far: V -> nat, k: nat, x: Key)
    requires x in vectors
  {
    exists near: seq<Key> :: Dominates(near, pool, vectors, far, k, x)
  }

  ghost predicate Dominates<V(!new)>(near: seq<Key>, pool: seq<Key>, vectors: map<Key, V>, far: V -> nat, k: nat,
      x: Key)
    requires x in vectors
  {
    NoRepeats(near) && |near| == k && forall y :: y in near ==>
        y in pool && y in vectors && far(vectors[y]) <= far(vectors[x])
  }

  /** Ranking a pool that dominates every live key it lacks gives the k nearest. */
  lemma PoolExact<V(!new)>(pool: seq<Key>, vectors: map<Key, V>, keep: Key -> bool, far: V -> nat, k: nat,
      out: seq<Point<V>>)
    requires RankedFrom(pool, vectors, far, k, out) && forall x :: x in pool ==> Live(vectors, keep, x)
    requires forall x :: Live(vectors, keep, x) && x !in pool ==> Dominated(pool, vectors, far, k, x)
    ensures NearestLive(vectors, keep, far, k, out)
  {
    hide Dominated;
    forall x | Live(vectors, keep, x) && Absent(out, x) ensures |out| == k && AllWithin(out, far, far(vectors[x])) {
      if x !in pool {
        NotInPool(pool, vectors, far, k, out, x);
      }
    }
  }

  lemma NotInPool<V(!new)>(pool: seq<Key>, vectors: map<Key, V>, far: V -> nat, k: nat, out: seq<Point<V>>, x: Key)
    requires RankedFrom(pool, vectors, far, k, out) && x in vectors && Dominated(pool, vectors, far, k, x)
    ensures |out| == k && AllWithin(out, far, far(vectors[x]))
  {
    var near :| Dominates(near, pool, vectors, far, k, x);
    EnoughKeys(near, pool);
    var b := KeysIn(out);
    forall i | 0 <= i < |out| ensures far(out[i].value) <= far(vectors[x]) {
      assert b[i] == out[i].key;
      if out[i].key !in near {
        var e := Pigeonhole(near, b, out[i].key);
        forall m | 0 <= m < |out| ensures out[m].key != e {
          assert b[m] == out[m].key;
        }
        assert Absent(out, e);
      }
    }
  }

  lemma EnoughKeys<A(!new)>(a: seq<A>, keys: seq<A>)
    requires NoRepeats(a) && forall x :: x in a ==> x in keys
    ensures |a| <= |keys|
  {
    var u := set x | x in keys;
    SetSize(keys, u);
    AtMost(a, u);
  }

  /** The keys stored, and those with a copy other than a value. */
  ghost function KeySet<V(!new)>(a: seq<Point<V>>): set<Key> { set p | p in a :: p.key }

  ghost function Movable<V(!new)>(a: seq<Point<V>>, v: V): set<Key> { set p | p in a && p.value != v :: p.key }

  /** A live key with a copy its live vector has replaced. */
  ghost predicate Stale<V(!new)>(a: seq<Point<V>>, vectors: map<Key, V>, h: Key)
    requires h in vectors
  {
    h in Movable(a, vectors[h])
  }

  /** No live key left to hide, or no deleted key stored to hide one, or room for all. */
  ghost predicate NoGhosts<V(!new)>(a: seq<Point<V>>, vectors: map<Key, V>, keep: Key -> bool, k: nat) {
    || |KeySet(a)| <= k
    || (forall x :: !Live(vectors, keep, x))
    || (forall p :: p in a ==> p.key in vectors)
  }

  /** A stale copy cannot crowd out a nearer key: too few keys could come before it, or
      every live key is at the stale one's place. */
  ghost predicate NoImpostor<V(!new)>(a: seq<Point<V>>, vectors: map<Key, V>, keep: Key -> bool, k: nat) {
    forall h :: Live(vectors, keep, h) && Stale(a, vectors, h) ==>
      |Movable(a, vectors[h])| <= k || forall x :: Live(vectors, keep, x) ==> vectors[x] == vectors[h]
  }

  /** What a caller can check of the accepted copies stored before a reading. */
  ghost predicate Reliable<V(!new)>(a: seq<Point<V>>, vectors: map<Key, V>, keep: Key -> bool, k: nat) {
    NoGhosts(a, vectors, keep, k) && NoImpostor(a, vectors, keep, k)
  }

  /** The accepted copies hold every live accepted vector. */
  ghost predicate Holding<V(!new)>(a: seq<Point<V>>, vectors: map<Key, V>, keep: Key -> bool) {
    (forall p :: p in a ==> keep(p.key)) && forall x :: Live(vectors, keep, x) ==> Point(x, vectors[x]) in a
  }

  lemma HitKeys<V(!new)>(a: seq<Point<V>>, far: V -> nat, k: nat, hits: seq<Point<V>>)
    requires Nearest(a, far, k, hits)
    ensures NoRepeats(KeysIn(hits)) && forall y :: y in KeysIn(hits) <==> !Absent(hits, y)
  {
    var keys := KeysIn(hits);
    forall i, j | 0 <= i < j < |keys| ensures keys[i] != keys[j] {
      assert hits[i].key != hits[j].key;
    }
    forall y ensures y in keys <==> !Absent(hits, y) {
      if y in keys {
        var i :| 0 <= i < |keys| && keys[i] == y;
        assert hits[i].key == y;
      }
      if !Absent(hits, y) {
        var i :| 0 <= i < |hits| && hits[i].key == y;
        assert keys[i] == y;
      }
    }
  }

  /** With reliable copies, a live key a tree left out is dominated by its hits. */
  lemma HitsDominate<V(!new)>(a: seq<Point<V>>, vectors: map<Key, V>, keep: Key -> bool, far: V -> nat, k: nat,
      hits: seq<Point<V>>, pool: seq<Key>, x: Key)
    requires Holding(a, vectors, keep) && Reliable(a, vectors, keep, k) && Nearest(a, far, k, hits)
    requires forall y :: y in vectors && !Absent(hits, y) ==> y in pool
    requires Live(vectors, keep, x) && x !in pool
    ensures Dominated(pool, vectors, far, k, x)
  {
    var near := KeysIn(hits);
    HitKeys(a, far, k, hits);
    var q := Point(x, vectors[x]);
    assert q in a && Absent(hits, q.key);
    assert |hits| == k && AllWithin(hits, far, far(vectors[x]));
    MoreKeys(a, hits, far, k, x);
    forall y | y in near ensures y in vectors && far(vectors[y]) <= far(vectors[x]) {
      var i :| 0 <= i < |near| && near[i] == y;
      HitNear(a, vectors, keep, far, k, hits, i, x);
    }
    assert Dominates(near, pool, vectors, far, k, x);
  }

  lemma MoreKeys<V(!new)>(a: seq<Point<V>>, hits: seq<Point<V>>, far: V -> nat, k: nat, x: Key)
    requires Nearest(a, far, k, hits) && |hits| == k && Absent(hits, x) && exists p :: p in a && p.key == x
    ensures |KeySet(a)| > k
  {
    HitKeys(a, far, k, hits);
    var keys := KeysIn(hits) + [x];
    forall y | y in keys ensures y in KeySet(a) {
      if y in KeysIn(hits) {
        var i :| 0 <= i < |hits| && KeysIn(hits)[i] == y;
        assert NearestCopy(a, far, hits[i]);
      }
    }
    assert NoRepeats(keys);
    AtMost(keys, KeySet(a));
  }

  /** A hit is live, and its live vector is no farther than the key left out. */
  lemma HitNear<V(!new)>(a: seq<Point<V>>, vectors: map<Key, V>, keep: Key -> bool, far: V -> nat, k: nat,
      hits: seq<Point<V>>, i: nat, x: Key)
    requires Holding(a, vectors, keep) && Reliable(a, vectors, keep, k) && Nearest(a, far, k, hits) && i < |hits|
    requires Live(vectors, keep, x) && Absent(hits, x) && |hits| == k && AllWithin(hits, far, far(vectors[x]))
            && |KeySet(a)| > k
    ensures hits[i].key in vectors && far(vectors[hits[i].key]) <= far(vectors[x])
  {
    assert NearestCopy(a, far, hits[i]);
    var h := hits[i].key;
    if far(vectors[h]) > far(vectors[x]) {
      var v := vectors[h];
      forall j | 0 <= j < |hits| ensures hits[j].key in Movable(a, v) {
        assert NearestCopy(a, far, hits[j]);
      }
      assert Point(x, vectors[x]) in a;
      assert x in Movable(a, v) && Stale(a, vectors, h);
      HitKeys(a, far, k, hits);
      var keys := KeysIn(hits) + [x];
      assert NoRepeats(keys);
      forall y | y in keys ensures y in Movable(a, v) {
      }
      assert Live(vectors, keep, h);
      AtMost(keys, Movable(a, v));
    }
  }

  // ---- and otherwise some distance shows a wrong reading

  /** One accepted copy for each key of a set. */
  lemma {:induction false} Copies<V(!new)>(a: seq<Point<V>>, ok: V -> bool, s: set<Key>) returns (hits: seq<Point<V>>)
    requires forall y :: y in s ==> exists p :: p in a && p.key == y && ok(p.value)
    ensures |hits| == |s| && NoRepeats(KeysIn(hits))
            && forall i :: 0 <= i < |hits| ==> hits[i] in a && ok(hits[i].value) && hits[i].key in s
    ensures forall y :: y in s <==> !Absent(hits, y)
    decreases |s|
  {
    hits := [];
    if s != {} {
      var y :| y in s;
      var p :| p in a && p.key == y && ok(p.value);
      var r := Copies(a, ok, s - {y});
      hits := r + [p];
      assert hits[|r|] == p;
      forall x ensures x in s <==> !Absent(hits, x) {
        AbsentLast(r, p, x);
      }
    }
  }

  lemma AbsentLast<V(!new)>(r: seq<Point<V>>, p: Point<V>, x: Key)
    ensures Absent(r + [p], x) <==> x != p.key && Absent(r, x)
  {
    var o := r + [p];
    assert o[|r|] == p && forall i :: 0 <= i < |r| ==> o[i] == r[i];
  }

  lemma {:induction false} Subset<A(!new)>(u: set<A>, n: nat) returns (s: set<A>)
    requires n <= |u|
    ensures s <= u && |s| == n
  {
    s := u;
    if n < |u| {
      var x :| x in u;
      s := Subset(u - {x}, n);
    }
  }

  /** Hits all at distance zero are nearest, however many other keys are. */
  lemma AtZero<V(!new)>(a: seq<Point<V>>, far: V -> nat, k: nat, hits: seq<Point<V>>)
    requires |hits| == k && NoRepeats(KeysIn(hits))
            && forall i :: 0 <= i < |hits| ==> hits[i] in a && far(hits[i].value) == 0
    ensures Nearest(a, far, k, hits)
  {
    forall i, j | 0 <= i < j < |hits| ensures hits[i].key != hits[j].key {
      assert KeysIn(hits)[i] != KeysIn(hits)[j];
    }
  }

  /** The reading a tree's hits give. */
  lemma Reading<V(!new)>(vectors: map<Key, V>, far: V -> nat, k: nat, hits: seq<Point<V>>)
    returns (pool: seq<Key>, out: seq<Point<V>>)
    requires k > 0 && NoRepeats(KeysIn(hits))
    ensures PoolOf(vectors, hits, pool) && RankedFrom(pool, vectors, far, k, out) && |pool| <= |hits|
    ensures (exists i :: 0 <= i < |hits| && hits[i].key !in vectors) ==> |pool| < |hits|
  {
    hide RankedFrom, Ranked;
    var keys := KeysIn(hits);
    var live: Key -> bool := y => y in vectors;
    pool := Filter(keys, live);
    Filters(keys, live);
    EnoughKeys(pool, keys);
    forall y ensures y in keys <==> !Absent(hits, y) {
      if y in keys {
        var i :| 0 <= i < |keys| && keys[i] == y;
        assert hits[i].key == y;
      }
      if !Absent(hits, y) {
        var i :| 0 <= i < |hits| && hits[i].key == y;
        assert keys[i] == y;
      }
    }
    if i :| 0 <= i < |hits| && hits[i].key !in vectors {
      assert keys[i] !in pool;
      var more := pool + [keys[i]];
      assert NoRepeats(more);
      EnoughKeys(more, keys);
    }
    BestRanked(pool, vectors, far, k);
    out := Ranked(vectors, TopKs.Best(Map(pool, Offered(vectors, far)), k));
  }

  /** A deleted key's copy can take a live key's place. */
  lemma GhostHides<V(!new)>(a: seq<Point<V>>, vectors: map<Key, V>, keep: Key -> bool, k: nat)
    returns (far: V -> nat, hits: seq<Point<V>>, pool: seq<Key>, out: seq<Point<V>>)
    requires k > 0 && Holding(a, vectors, keep) && !NoGhosts(a, vectors, keep, k)
    ensures Nearest(a, far, k, hits) && PoolOf(vectors, hits, pool) && RankedFrom(pool, vectors, far, k, out)
            && !NearestLive(vectors, keep, far, k, out)
  {
    hide Nearest, RankedFrom;
    far := (v: V) => 0;
    var b :| Live(vectors, keep, b);
    var p :| p in a && p.key !in vectors;
    assert Point(b, vectors[b]) in a;
    var m := KeySet(a);
    assert b in m && p.key in m;
    var s := KeyWith(m, p.key, b, k);
    hits := Copies(a, (v: V) => true, s);
    AtZero(a, far, k, hits);
    assert !Absent(hits, p.key) && Absent(hits, b);
    pool, out := Reading(vectors, far, k, hits);
    ShortPool(pool, vectors, keep, far, k, out, b);
  }

  /** A set of keys with one and without another. */
  lemma KeyWith(m: set<Key>, h: Key, b: Key, k: nat) returns (s: set<Key>)
    requires k > 0 && |m| > k && h in m && b in m && h != b
    ensures s <= m && |s| == k && h in s && b !in s
  {
    var u := m - {b, h};
    assert |u| == |m| - 2;
    var r := Subset(u, k - 1);
    s := r + {h};
  }

  /** A ranking of fewer than k keys that lacks a live one is not the k nearest. */
  lemma ShortPool<V(!new)>(pool: seq<Key>, vectors: map<Key, V>, keep: Key -> bool, far: V -> nat, k: nat,
      out: seq<Point<V>>, b: Key)
    requires RankedFrom(pool, vectors, far, k, out) && |pool| < k && Live(vectors, keep, b) && b !in pool
    ensures !NearestLive(vectors, keep, far, k, out)
  {
    forall i | 0 <= i < |out| ensures out[i].key != b {
    }
    assert Absent(out, b);
  }

  /** A stale copy can bring its key in before a live key that is nearer. */
  lemma StaleHides<V(!new)>(a: seq<Point<V>>, vectors: map<Key, V>, keep: Key -> bool, k: nat)
    returns (far: V -> nat, hits: seq<Point<V>>, pool: seq<Key>, out: seq<Point<V>>)
    requires k > 0 && Holding(a, vectors, keep) && !NoImpostor(a, vectors, keep, k)
    ensures Nearest(a, far, k, hits) && PoolOf(vectors, hits, pool) && RankedFrom(pool, vectors, far, k, out)
            && !NearestLive(vectors, keep, far, k, out)
  {
    var h :| Live(vectors, keep, h) && Stale(a, vectors, h) && |Movable(a, vectors[h])| > k
             && exists x :: Live(vectors, keep, x) && vectors[x] != vectors[h];
    var b :| Live(vectors, keep, b) && vectors[b] != vectors[h];
    var v := vectors[h];
    far := (w: V) => if w == v then 1 else 0;
    hide Nearest, RankedFrom;
    assert Point(b, vectors[b]) in a;
    var m := Movable(a, v);
    assert b in m && h in m;
    var s := KeyWith(m, h, b, k);
    hits := Copies(a, (w: V) => w != v, s);
    AtZero(a, far, k, hits);
    assert !Absent(hits, h) && Absent(hits, b);
    pool, out := Reading(vectors, far, k, hits);
    FartherShown(pool, vectors, keep, far, k, out, h, b);
  }

  /** A ranking that shows a key farther than a live one it lacks is not the k nearest. */
  lemma FartherShown<V(!new)>(pool: seq<Key>, vectors: map<Key, V>, keep: Key -> bool, far: V -> nat, k: nat,
      out: seq<Point<V>>, h: Key, b: Key)
    requires RankedFrom(pool, vectors, far, k, out) && NoRepeats(pool) && |pool| <= k && h in pool && b !in pool
    requires h in vectors && Live(vectors, keep, b) && far(vectors[h]) > far(vectors[b])
    ensures !NearestLive(vectors, keep, far, k, out)
  {
    Shown(pool, vectors, far, k, out, h);
    var i :| 0 <= i < |out| && out[i].key == h;
    forall j | 0 <= j < |out| ensures out[j].key != b {
    }
    assert Absent(out, b) && far(out[i].value) > far(vectors[b]);
  }

  /** A pool that fits is ranked whole. */
  lemma Shown<V(!new)>(pool: seq<Key>, vectors: map<Key, V>, far: V -> nat, k: nat, out: seq<Point<V>>, h: Key)
    requires RankedFrom(pool, vectors, far, k, out) && NoRepeats(pool) && |pool| <= k && h in pool
    ensures exists i :: 0 <= i < |out| && out[i].key == h
  {
    if Absent(out, h) {
      var keys := KeysIn(out) + [h];
      forall i, j | 0 <= i < j < |keys| ensures keys[i] != keys[j] {
      }
      EnoughKeys(keys, pool);
    }
  }

  /** For a tree probed in full, the copies are reliable exactly when every distance, and
      every way ties fall, gives the k nearest live vectors. */
  lemma ExactIff<V(!new)>(a: seq<Point<V>>, vectors: map<Key, V>, keep: Key -> bool, k: nat)
    requires k > 0 && Holding(a, vectors, keep)
    ensures Reliable(a, vectors, keep, k) <==>
            forall far: V -> nat, hits, pool, out ::
              Nearest(a, far, k, hits) && PoolOf(vectors, hits, pool) && RankedFrom(pool, vectors, far, k, out)
              ==> NearestLive(vectors, keep, far, k, out)
  {
    hide Nearest, NearestLive, RankedFrom, NoGhosts, NoImpostor;
    if Reliable(a, vectors, keep, k) {
      forall far: V -> nat, hits, pool, out | Nearest(a, far, k, hits) && PoolOf(vectors, hits, pool)
          && RankedFrom(pool, vectors, far, k, out)
        ensures NearestLive(vectors, keep, far, k, out) {
        TreeExact(a, vectors, keep, far, k, hits, pool, out);
      }
    } else if !NoGhosts(a, vectors, keep, k) {
      var far, hits, pool, out := GhostHides(a, vectors, keep, k);
    } else {
      var far, hits, pool, out := StaleHides(a, vectors, keep, k);
    }
  }

  /** A pool of live keys that holds one tree's hits is ranked into the k nearest. */
  lemma TreeExact<V(!new)>(a: seq<Point<V>>, vectors: map<Key, V>, keep: Key -> bool, far: V -> nat, k: nat,
      hits: seq<Point<V>>, pool: seq<Key>, out: seq<Point<V>>)
    requires Holding(a, vectors, keep) && Reliable(a, vectors, keep, k) && Nearest(a, far, k, hits)
    requires (forall y :: y in vectors && !Absent(hits, y) ==> y in pool) && (forall y :: y in pool ==> y in vectors)
    requires forall y :: y in pool ==> !Absent(hits, y) || keep(y)
    requires RankedFrom(pool, vectors, far, k, out)
    ensures NearestLive(vectors, keep, far, k, out)
  {
    forall y | y in pool ensures keep(y) {
      if !Absent(hits, y) {
        var i :| 0 <= i < |hits| && hits[i].key == y;
        assert NearestCopy(a, far, hits[i]);
      }
    }
    forall x | Live(vectors, keep, x) && x !in pool ensures Dominated(pool, vectors, far, k, x) {
      hide Nearest, Reliable, Dominated;
      HitsDominate(a, vectors, keep, far, k, hits, pool, x);
    }
    hide Nearest, Reliable, Dominated;
    PoolExact(pool, vectors, keep, far, k, out);
  }
}
