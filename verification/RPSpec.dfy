/** Random-projection trees as values: what inserting stores, what a probing walk visits,
    and what ranking its candidates keeps. */
module RPSpec {
  import opened Keys
  import opened Sequences

  datatype Point<V> = Point(key: Key, value: V)

  /** A binary space partition, its data in the leaves. */
  datatype Shape<V> = Leaf(data: seq<Point<V>>) | Split(row: nat, at: real, left: Shape<V>, right: Shape<V>)

  function Points<V>(s: Shape<V>): seq<Point<V>> {
    match s case Leaf(d) => d case Split(_, _, l, r) => Points(l) + Points(r)
  }

  /** How many nodes a partition has. */
  function Size<V>(s: Shape<V>): nat { match s case Leaf(_) => 1 case Split(_, _, l, r) => 1 + Size(l) + Size(r) }

  // ---------------------------------------------------------------- inserting

  /** A point's coordinate along each direction. */
  type Basis<!V> = (V, nat) -> real

  function Along<V>(b: Basis<V>, row: nat): Point<V> -> real { (p: Point<V>) => b(p.value, row) }

  /** split: the points in order along a row, halved. */
  function Halved<V>(b: Basis<V>, data: seq<Point<V>>, row: nat): Shape<V>
    requires data != []
  {
    var s := SortBy(data, Along(b, row));
    SortSize(data, Along(b, row));
    var mid := |s| / 2;
    Split(row, b(s[mid].value, row), Leaf(s[..mid]), Leaf(s[mid..]))
  }

  lemma SortSize<A>(s: seq<A>, rank: A -> real)
    ensures |SortBy(s, rank)| == |s|
  {
    SortByKeeps(s, rank);
    assert |s| == |multiset(s)| && |SortBy(s, rank)| == |multiset(SortBy(s, rank))|;
  }

  /** insert: the point in the leaf its coordinates route it to, which splits along the
      row drawn when it overflows. */
  function Inserted<V>(b: Basis<V>, leafSize: nat, s: Shape<V>, p: Point<V>, row: nat): Shape<V> {
    match s
    case Split(r, at, left, right) =>
      if b(p.value, r) < at then Split(r, at, Inserted(b, leafSize, left, p, row), right)
      else Split(r, at, left, Inserted(b, leafSize, right, p, row))
    case Leaf(data) => if |data| + 1 > leafSize then Halved(b, data + [p], row) else Leaf(data + [p])
  }

  /** Every split has the points at most its threshold on its left and at least it on its
      right, and no leaf holds more than a size. */
  ghost predicate Sound<V(!new)>(b: Basis<V>, leafSize: nat, s: Shape<V>) {
    match s
    case Leaf(data) => |data| <= leafSize
    case Split(row, at, left, right) =>
      && Sound(b, leafSize, left) && Sound(b, leafSize, right)
      && (forall p :: p in Points(left) ==> b(p.value, row) <= at)
      && (forall p :: p in Points(right) ==> b(p.value, row) >= at)
  }

  lemma HalvedSound<V(!new)>(b: Basis<V>, leafSize: nat, data: seq<Point<V>>, row: nat)
    requires |data| == leafSize + 1 && leafSize >= 1
    ensures multiset(Points(Halved(b, data, row))) == multiset(data) && Sound(b, leafSize, Halved(b, data, row))
  {
    var s := SortBy(data, Along(b, row));
    SortSize(data, Along(b, row));
    SortByKeeps(data, Along(b, row));
    var mid := |s| / 2;
    assert s == s[..mid] + s[mid..];
    forall p | p in s[..mid] ensures b(p.value, row) <= b(s[mid].value, row) {
      var i :| 0 <= i < mid && s[i] == p;
      assert Along(b, row)(s[i]) <= Along(b, row)(s[mid]);
    }
    forall p | p in s[mid..] ensures b(p.value, row) >= b(s[mid].value, row) {
      var i :| 0 <= i < |s| - mid && s[mid..][i] == p;
      assert Along(b, row)(s[mid]) <= Along(b, row)(s[mid + i]);
    }
  }

  /** Inserting adds the one point and keeps every split and leaf as it should be. */
  lemma {:induction false} InsertedSound<V(!new)>(b: Basis<V>, leafSize: nat, s: Shape<V>, p: Point<V>, row: nat)
    requires leafSize >= 1 && Sound(b, leafSize, s)
    ensures multiset(Points(Inserted(b, leafSize, s, p, row))) == multiset(Points(s)) + multiset{p}
    ensures Sound(b, leafSize, Inserted(b, leafSize, s, p, row))
  {
    hide Halved;
    match s
    case Leaf(data) =>
      if |data| + 1 > leafSize {
        HalvedSound(b, leafSize, data + [p], row);
      }
    case Split(r, at, left, right) =>
      if b(p.value, r) < at {
        InsertedSound(b, leafSize, left, p, row);
        PointsOf(Inserted(b, leafSize, left, p, row), left, p);
      } else {
        InsertedSound(b, leafSize, right, p, row);
        PointsOf(Inserted(b, leafSize, right, p, row), right, p);
      }
  }

  lemma PointsOf<V(!new)>(t: Shape<V>, s: Shape<V>, p: Point<V>)
    requires multiset(Points(t)) == multiset(Points(s)) + multiset{p}
    ensures forall x :: x in Points(t) <==> x in Points(s) || x == p
  {
    forall x ensures x in Points(t) <==> x in Points(s) || x == p {
      assert x in Points(t) <==> x in multiset(Points(t));
    }
  }

  // ---------------------------------------------------------------- probing

  /** A subtree the walk turned away from, and how far the query was from its split. */
  datatype Probe<V> = Probe(shape: Shape<V>, deviation: real)

  function Far(x: real): real { if x < 0.0 then -x else x }

  /** The leaf a descent ends in. */
  function Landed<V>(s: Shape<V>, q: nat -> real): seq<Point<V>> {
    match s case Leaf(d) => d case Split(row, at, l, r) => if q(row) >= at then Landed(r, q) else Landed(l, q)
  }

  /** The subtrees a descent turned away from, in the order passed. */
  function Turned<V>(s: Shape<V>, q: nat -> real): seq<Probe<V>> {
    match s
    case Leaf(_) => []
    case Split(row, at, l, r) =>
      if q(row) >= at then [Probe(l, Far(q(row) - at))] + Turned(r, q) else [Probe(r, Far(q(row) - at))] + Turned(l, q)
  }

  /** Everything below the deferred subtrees. */
  function Below<V>(d: seq<Probe<V>>): seq<Point<V>> { if d == [] then [] else Points(d[0].shape) + Below(d[1..]) }

  function Weight<V>(d: seq<Probe<V>>): nat { if d == [] then 0 else Size(d[0].shape) + Weight(d[1..]) }

  lemma {:induction false} BelowAppends<V>(a: seq<Probe<V>>, b: seq<Probe<V>>)
    ensures Below(a + b) == Below(a) + Below(b) && Weight(a + b) == Weight(a) + Weight(b)
  {
    hide Points, Size;
    if a == [] {
      assert a + b == b;
    } else {
      BelowAppends(a[1..], b);
      assert (a + b)[1..] == a[1..] + b;
      Associates(Points(a[0].shape), Below(a[1..]), Below(b));
    }
  }

  /** A descent's leaf and the subtrees it turned from partition the tree. */
  lemma {:induction false} DescentPartitions<V>(s: Shape<V>, q: nat -> real)
    ensures multiset(Points(s)) == multiset(Landed(s, q)) + multiset(Below(Turned(s, q)))
    ensures Weight(Turned(s, q)) < Size(s)
  {
    match s
    case Leaf(_) =>
    case Split(row, at, l, r) =>
      DescentPartitions(l, q);
      DescentPartitions(r, q);
      assert Turned(s, q)[1..] == if q(row) >= at then Turned(r, q) else Turned(l, q);
  }

  /** The first of the probes the query came closest to. */
  function Closest<V>(d: seq<Probe<V>>): (b: nat)
    requires d != []
    ensures b < |d| && forall i :: 0 <= i < |d| ==> d[b].deviation <= d[i].deviation
    ensures forall i :: 0 <= i < b ==> d[b].deviation < d[i].deviation
  {
    if |d| == 1 then 0 else
      var b := Closest(d[..|d| - 1]);
      if d[|d| - 1].deviation < d[b].deviation then |d| - 1 else b
  }

  function Without<A>(s: seq<A>, i: nat): seq<A>
    requires i < |s|
  {
    s[..i] + s[i + 1..]
  }

  function Kept<V>(keep: Key -> bool): Point<V> -> bool { (p: Point<V>) => keep(p.key) }

  /** What probing one more subtree leaves deferred. */
  function Next<V>(d: seq<Probe<V>>, q: nat -> real): seq<Probe<V>>
    requires d != []
  {
    Without(d, Closest(d)) + Turned(d[Closest(d)].shape, q)
  }

  lemma WithoutOne<V>(d: seq<Probe<V>>, b: nat)
    requires b < |d|
    ensures multiset(Below(d)) == multiset(Points(d[b].shape)) + multiset(Below(Without(d, b)))
    ensures Weight(d) == Size(d[b].shape) + Weight(Without(d, b))
  {
    hide Points, Size, Below, Weight;
    var l, x, r := d[..b], [d[b]], d[b + 1..];
    assert d == l + (x + r) by { Cut(d, b); }
    BelowAppends(l, x + r);
    BelowAppends(x, r);
    BelowAppends(l, r);
    OneBelow(d[b]);
  }

  lemma Cut<A>(s: seq<A>, i: nat)
    requires i < |s|
    ensures s == s[..i] + ([s[i]] + s[i + 1..])
  {
  }

  lemma OneBelow<V>(p: Probe<V>)
    ensures Below([p]) == Points(p.shape) && Weight([p]) == Size(p.shape)
  {
  }

  lemma NextPartitions<V>(d: seq<Probe<V>>, q: nat -> real)
    requires d != []
    ensures multiset(Below(d)) == multiset(Landed(d[Closest(d)].shape, q)) + multiset(Below(Next(d, q)))
    ensures Weight(Next(d, q)) < Weight(d)
  {
    hide Points, Size, Below, Weight, Landed, Turned, Without, Closest;
    var b := Closest(d);
    WithoutOne(d, b);
    BelowAppends(Without(d, b), Turned(d[b].shape, q));
    DescentPartitions(d[b].shape, q);
  }

  /** The probe loop: the closest deferred subtree, until the budget is met or the tree
      exhausted. */
  function Walked<V>(d: seq<Probe<V>>, found: seq<Point<V>>, budget: nat, q: nat -> real,
      keep: Key -> bool): seq<Point<V>>
    decreases Weight(d)
  {
    if |found| >= budget || d == [] then found else
      NextPartitions(d, q);
      Walked(Next(d, q), found + Filter(Landed(d[Closest(d)].shape, q), Kept(keep)), budget, q, keep)
  }

  /** Every candidate a query gathers from a tree. */
  function Gathered<V>(s: Shape<V>, budget: nat, q: nat -> real, keep: Key -> bool): seq<Point<V>> {
    Walked(Turned(s, q), Filter(Landed(s, q), Kept(keep)), budget, q, keep)
  }

  lemma {:induction false} FilterBag<A(!new)>(s: seq<A>, t: seq<A>, keep: A -> bool)
    requires multiset(s) == multiset(t)
    ensures multiset(Filter(s, keep)) == multiset(Filter(t, keep))
  {
    SameItems(s, t);
    if s == [] {
      assert t == [];
    } else {
      var r, e, u, v := LastOut(s, t);
      FilterBag(r, u + v, keep);
      FilterOne(r, e, keep);
      FilterOne(u, e, keep);
      FilterPermutes(u + [e], v, keep);
      FilterPermutes(u, v, keep);
    }
  }

  /** No leaf is visited twice: the candidates are among the accepted points, and are all
      of them unless the budget is met. */
  lemma {:induction false} WalkedPartitions<V(!new)>(d: seq<Probe<V>>, found: seq<Point<V>>, budget: nat,
      q: nat -> real, keep: Key -> bool)
    ensures var c := multiset(Walked(d, found, budget, q, keep));
            var all := multiset(found) + multiset(Filter(Below(d), Kept(keep)));
            c <= all && (|c| >= budget || c == all)
    decreases Weight(d)
  {
    hide Filter, Below, Landed, Next, Closest;
    if |found| >= budget || d == [] {
      if d == [] {
        NothingBelow(d, keep);
      }
    } else {
      var leaf := Landed(d[Closest(d)].shape, q);
      NextPartitions(d, q);
      WalkedPartitions(Next(d, q), found + Filter(leaf, Kept(keep)), budget, q, keep);
      FilterBag(Below(d), leaf + Below(Next(d, q)), Kept(keep));
      FilterPermutes(leaf, Below(Next(d, q)), Kept(keep));
    }
  }

  lemma NothingBelow<V>(d: seq<Probe<V>>, keep: Key -> bool)
    requires d == []
    ensures Filter(Below(d), Kept(keep)) == []
  {
  }

  function Accepted<V>(s: Shape<V>, keep: Key -> bool): seq<Point<V>> { Filter(Points(s), Kept(keep)) }

  /** The candidates are accepted points of the tree, each as often as it is stored at
      most; enough to meet the budget, or all there are. */
  lemma GatheredPartitions<V(!new)>(s: Shape<V>, budget: nat, q: nat -> real, keep: Key -> bool)
    ensures var c := multiset(Gathered(s, budget, q, keep));
            c <= multiset(Accepted(s, keep)) && (|c| >= budget || c == multiset(Accepted(s, keep)))
            && (|Accepted(s, keep)| <= budget ==> c == multiset(Accepted(s, keep)))
  {
    hide Filter, Below, Landed, Turned, Walked, Points;
    var leaf, d := Landed(s, q), Turned(s, q);
    DescentPartitions(s, q);
    WalkedPartitions(d, Filter(leaf, Kept(keep)), budget, q, keep);
    FilterBag(Points(s), leaf + Below(d), Kept(keep));
    FilterPermutes(leaf, Below(d), Kept(keep));
    AllOfThem(Gathered(s, budget, q, keep), Accepted(s, keep), budget);
  }

  lemma AllOfThem<A>(c: seq<A>, all: seq<A>, budget: nat)
    requires multiset(c) <= multiset(all) && (|c| >= budget || multiset(c) == multiset(all))
    ensures |all| <= budget ==> multiset(c) == multiset(all)
  {
    var rest := multiset(all) - multiset(c);
    assert multiset(all) == multiset(c) + rest;
    assert |all| == |multiset(all)| && |c| == |multiset(c)|;
    assert |multiset(all)| == |multiset(c)| + |rest|;
  }

  // ---------------------------------------------------------------- ranking

  ghost predicate Absent<V(!new)>(out: seq<Point<V>>, key: Key) { forall i :: 0 <= i < |out| ==> out[i].key != key }

  ghost predicate AllWithin<V(!new)>(out: seq<Point<V>>, far: V -> nat, d: nat) {
    forall i :: 0 <= i < |out| ==> far(out[i].value) <= d
  }

  /** One of the nearest copies of its key. */
  ghost predicate NearestCopy<V(!new)>(c: seq<Point<V>>, far: V -> nat, p: Point<V>) {
    p in c && forall x :: x in c && x.key == p.key ==> far(p.value) <= far(x.value)
  }

  /** The k nearest of the candidates by key, nearest first: each key at its nearest copy,
      and no key left out while there is room or a nearer one. */
  ghost predicate Nearest<V(!new)>(c: seq<Point<V>>, far: V -> nat, k: nat, out: seq<Point<V>>) {
    && |out| <= k
    && (forall i, j :: 0 <= i < j < |out| ==> out[i].key != out[j].key && far(out[i].value) <= far(out[j].value))
    && (forall i :: 0 <= i < |out| ==> NearestCopy(c, far, out[i]))
    && (forall x :: x in c && Absent(out, x.key) ==> |out| == k && AllWithin(out, far, far(x.value)))
  }
}
