/** RPTree: leaves appended to and split in place, and the multi-probe walk over them. */
module RPTrees {
  import opened Keys
  import opened RPRanking
  import opened RPSpec
  import opened Sequences
  import opened Wrappers

  /** A node: a leaf's data, or a split and its two sides. */
  class RPNode<V(!new)> {
    var row: nat
    var at: real
    var left: RPNode?<V>
    var right: RPNode?<V>
    var data: seq<Point<V>>
    ghost var shape: Shape<V>
    ghost var Repr: set<RPNode<V>>

    ghost predicate Valid()
      reads this, Repr
      decreases Repr
    {
      && this in Repr
      && (shape.Leaf? ==> left == null && right == null && data == shape.data)
      && (shape.Split? ==>
            && left != null && left in Repr && left.Repr <= Repr && this !in left.Repr
            && right != null && right in Repr && right.Repr <= Repr && this !in right.Repr
            && left.Repr !! right.Repr && left.Valid() && right.Valid()
            && shape == Split(row, at, left.shape, right.shape))
    }

    constructor (data: seq<Point<V>>)
      ensures Valid() && fresh(Repr) && shape == Leaf(data)
    {
      this.data := data;
      row, at, left, right := 0, 0.0, null, null;
      shape, Repr := Leaf(data), {this};
    }

    predicate IsLeaf()
      reads this
    {
      left == null && right == null
    }

    /** Routes the point down to its leaf. */
    method Insert(b: Basis<V>, leafSize: nat, p: Point<V>, draw: nat)
      requires Valid()
      modifies Repr
      ensures Valid() && fresh(Repr - old(Repr)) && old(Repr) <= Repr
      ensures shape == Inserted(b, leafSize, old(shape), p, draw)
      decreases Repr
    {
      hide Halved;
      if !IsLeaf() {
        if b(p.value, row) < at {
          left.Insert(b, leafSize, p, draw);
          Repr := Repr + left.Repr;
          shape := Split(row, at, left.shape, shape.right);
        } else {
          right.Insert(b, leafSize, p, draw);
          Repr := Repr + right.Repr;
          shape := Split(row, at, shape.left, right.shape);
        }
        return;
      }
      data := data + [p];
      shape := Leaf(data);
      if |data| > leafSize {
        Halve(b, draw);
      }
    }

    /** Turns an overflowing leaf into a split over two new leaves. */
    method Halve(b: Basis<V>, draw: nat)
      requires Valid() && shape.Leaf? && data != []
      modifies this
      ensures Valid() && fresh(Repr - old(Repr)) && old(Repr) <= Repr
      ensures shape == Halved(b, old(data), draw)
    {
      hide SortBy;
      SortSize(data, Along(b, draw));
      var items := SortBy(data, Along(b, draw));
      var mid := |items| / 2;
      var l := new RPNode<V>(items[..mid]);
      var r := new RPNode<V>(items[mid..]);
      row, at, left, right := draw, b(items[mid].value, draw), l, r;
      shape := Split(row, at, l.shape, r.shape);
      Repr := Repr + l.Repr + r.Repr;
      data := [];
    }
  }

  /** A subtree passed over, and how far the query was from its split. */
  datatype Deferral<V(!new)> = Deferral(node: RPNode<V>, deviation: real)

  ghost predicate Stands<V(!new)>(d: seq<Deferral<V>>)
    reads set i | 0 <= i < |d| :: d[i].node, set i, n | 0 <= i < |d| && n in d[i].node.Repr :: n
  {
    forall i :: 0 <= i < |d| ==> d[i].node.Valid()
  }

  ghost function Probes<V(!new)>(d: seq<Deferral<V>>): (r: seq<Probe<V>>)
    reads set i | 0 <= i < |d| :: d[i].node
    ensures |r| == |d|
  {
    seq(|d|, i requires 0 <= i < |d| reads if 0 <= i < |d| then {d[i].node} else {} =>
        Probe(d[i].node.shape, d[i].deviation))
  }

  class RPTree<V(!new)> {
    const basis: Basis<V>
    const dim: nat
    const dims: V -> nat
    const projDim: nat
    const leafSize: nat
    const overfetch: nat
    var root: RPNode<V>
    var length: nat
    ghost var Repr: set<object>

    ghost predicate Valid()
      reads this, Repr
    {
      && this in Repr && root in Repr && root.Repr <= Repr && root.Valid()
      && leafSize >= 1 && overfetch >= 1
      && length == |Points(root.shape)|
      && Sound(basis, leafSize, root.shape)
      && forall p :: p in Points(root.shape) ==> dims(p.value) == dim
    }

    /** An empty tree, its parameters raised to the least that mean something. */
    constructor (basis: Basis<V>, dims: V -> nat, dim: nat, projDim: nat, leafSize: nat, overfetch: nat)
      ensures Valid() && fresh(Repr) && Points(root.shape) == [] && length == 0
      ensures this.basis == basis && this.dims == dims && this.dim == dim
      ensures this.overfetch == if overfetch < 1 then 1 else overfetch
      ensures this.leafSize == if leafSize < 1 then 1 else leafSize
      ensures this.projDim == if projDim < 1 then 1 else projDim
    {
      this.basis, this.dims, this.dim := basis, dims, dim;
      this.projDim := if projDim < 1 then 1 else projDim;
      this.leafSize := if leafSize < 1 then 1 else leafSize;
      this.overfetch := if overfetch < 1 then 1 else overfetch;
      var n := new RPNode<V>([]);
      root := n;
      length := 0;
      Repr := {this} + n.Repr;
    }

    /** Adds a point of the tree's dimension; the row drawn is the one a split would use. */
    method Insert(p: Point<V>, draw: nat) returns (ok: bool)
      requires Valid()
      modifies Repr
      ensures Valid() && fresh(Repr - old(Repr)) && old(Repr) <= Repr
      ensures ok == (dims(p.value) == dim)
      ensures multiset(Points(root.shape)) == multiset(old(Points(root.shape))) + if ok then multiset{p} else multiset{}
      ensures length == old(length) + if ok then 1 else 0
    {
      hide Sound, RPNode.Valid, Inserted;
      if dims(p.value) != dim {
        return false;
      }
      ghost var was := root.shape;
      InsertedSound(basis, leafSize, was, p, draw);
      PointsOf(Inserted(basis, leafSize, was, p, draw), was, p);
      root.Insert(basis, leafSize, p, draw);
      Repr := Repr + root.Repr;
      length := length + 1;
      OneMore(Points(root.shape), Points(was), p);
      return true;
    }

    static lemma OneMore(a: seq<Point<V>>, b: seq<Point<V>>, p: Point<V>)
      requires multiset(a) == multiset(b) + multiset{p}
      ensures |a| == |b| + 1
    {
      assert |a| == |multiset(a)| && |b| == |multiset(b)|;
    }

    static lemma TurnStep(s: Shape<V>, q: nat -> real)
      requires s.Split?
      ensures var near, far := if q(s.row) >= s.at then s.right else s.left, if q(s.row) >= s.at
              then s.left else s.right;
              Landed(s, q) == Landed(near, q) && Turned(s, q) == [Probe(far, Far(q(s.row) - s.at))] + Turned(near, q)
    {
    }

    /** Descends to a leaf, deferring the far side of every split passed. */
    method Descend(start: RPNode<V>, q: nat -> real, before: seq<Deferral<V>>)
      returns (leaf: seq<Point<V>>, deferred: seq<Deferral<V>>)
      requires start.Valid() && Stands(before)
      ensures Stands(deferred) && leaf == Landed(start.shape, q)
              && Probes(deferred) == Probes(before) + Turned(start.shape, q)
    {
      hide Landed, Turned;
      var n: RPNode<V> := start;
      deferred := before;
      while !n.IsLeaf()
        invariant n.Valid() && Stands(deferred) && Landed(n.shape, q) == Landed(start.shape, q)
        invariant Probes(deferred) + Turned(n.shape, q) == Probes(before) + Turned(start.shape, q)
        decreases n.shape
      {
        var near, far := n.left, n.right;
        if q(n.row) >= n.at {
          near, far := n.right, n.left;
        }
        var deviation := q(n.row) - n.at;
        if deviation < 0.0 {
          deviation := -deviation;
        }
        TurnStep(n.shape, q);
        ghost var was := deferred;
        deferred := deferred + [Deferral(far, deviation)];
        assert Probes(deferred) == Probes(was) + [Probe(far.shape, deviation)];
        Associates(Probes(was), [Probe(far.shape, deviation)], Turned(near.shape, q));
        n := near;
      }
      LeafLands(n.shape, q);
      return n.data, deferred;
    }

    static lemma LeafLands(s: Shape<V>, q: nat -> real)
      requires s.Leaf?
      ensures Landed(s, q) == s.data && Turned(s, q) == []
    {
    }

    /** The leaf's points that keep accepts, after those found before. */
    method Admit(found: seq<Point<V>>, leaf: seq<Point<V>>, keep: Key -> bool) returns (candidates: seq<Point<V>>)
      ensures candidates == found + Filter(leaf, Kept(keep))
    {
      candidates := found;
      for i := 0 to |leaf|
        invariant candidates == found + Filter(leaf[..i], Kept(keep))
      {
        assert leaf[..i + 1][..i] == leaf[..i];
        if keep(leaf[i].key) {
          candidates := candidates + [leaf[i]];
        }
      }
      assert leaf[..|leaf|] == leaf;
    }

    /** The first of the deferred subtrees the query came closest to. */
    method PickClosest(deferred: seq<Deferral<V>>) returns (best: nat)
      requires deferred != []
      ensures best == Closest(Probes(deferred))
    {
      best := 0;
      for i := 1 to |deferred|
        invariant best < i && forall j :: 0 <= j < i ==> deferred[best].deviation <= deferred[j].deviation
        invariant forall j :: 0 <= j < best ==> deferred[best].deviation < deferred[j].deviation
      {
        if deferred[i].deviation < deferred[best].deviation {
          best := i;
        }
      }
      var b := Closest(Probes(deferred));
      assert Probes(deferred)[b].deviation == deferred[b].deviation
          && Probes(deferred)[best].deviation == deferred[best].deviation;
    }

    /** Probes the closest deferred subtree. */
    method ProbeOne(deferred: seq<Deferral<V>>, found: seq<Point<V>>, q: nat -> real, keep: Key -> bool)
      returns (left: seq<Deferral<V>>, candidates: seq<Point<V>>)
      requires Stands(deferred) && deferred != []
      ensures Stands(left) && Probes(left) == Next(Probes(deferred), q)
      ensures candidates == found + Filter(Landed(Probes(deferred)[Closest(Probes(deferred))].shape, q), Kept(keep))
    {
      hide Landed, Turned, Closest, Filter;
      var best := PickClosest(deferred);
      var next := deferred[best];
      left := deferred[..best] + deferred[best + 1..];
      assert Probes(left) == Without(Probes(deferred), best);
      var leaf;
      leaf, left := Descend(next.node, q, left);
      candidates := Admit(found, leaf, keep);
    }

    static lemma WalkStep(d: seq<Probe<V>>, found: seq<Point<V>>, budget: nat, q: nat -> real, keep: Key -> bool)
      requires |found| < budget && d != []
      ensures Walked(d, found, budget, q, keep) ==
              Walked(Next(d, q), found + Filter(Landed(d[Closest(d)].shape, q), Kept(keep)), budget, q, keep)
      ensures Weight(Next(d, q)) < Weight(d)
    {
      hide Landed, Closest, Filter, Next, Weight;
      NextPartitions(d, q);
    }

    static lemma WalkDone(d: seq<Probe<V>>, found: seq<Point<V>>, budget: nat, q: nat -> real, keep: Key -> bool)
      requires |found| >= budget || d == []
      ensures Walked(d, found, budget, q, keep) == found
    {
    }

    /** Probes leaf by leaf until the budget is met or the tree exhausted. */
    method Gather(budget: nat, q: nat -> real, keep: Key -> bool) returns (candidates: seq<Point<V>>)
      requires Valid()
      ensures candidates == Gathered(root.shape, budget, q, keep)
    {
      hide Landed, Turned, Closest, Filter, Sound, Points, Weight, Stands, Walked, Next;
      assert Stands<V>([]) && Probes<V>([]) == [] by { NoneStands(); }
      var leaf, deferred := Descend(root, q, []);
      assert Probes(deferred) == Turned(root.shape, q);
      candidates := Admit([], leaf, keep);
      assert candidates == Filter(Landed(root.shape, q), Kept(keep));
      while |candidates| < budget && deferred != []
        invariant Stands(deferred) && Walked(Probes(deferred), candidates, budget, q, keep) ==
                Gathered(root.shape, budget, q, keep)
        decreases Weight(Probes(deferred))
      {
        WalkStep(Probes(deferred), candidates, budget, q, keep);
        deferred, candidates := ProbeOne(deferred, candidates, q, keep);
      }
      WalkDone(Probes(deferred), candidates, budget, q, keep);
    }

    static lemma NoneStands()
      ensures Stands<V>([]) && Probes<V>([]) == []
    {
    }

    /** Nearest: the k nearest of what the walk gathers, and of every accepted point when
        there are no more of them than the walk may gather. */
    method Nearest(v: V, q: nat -> real, far: V -> nat, k: int, keep: Key -> bool) returns (r: Option<seq<Point<V>>>)
      requires Valid()
      ensures r.None? <==> dims(v) != dim
      ensures r.Some? && k <= 0 ==> r.value == []
      ensures r.Some? && k > 0 ==> RPSpec.Nearest(Gathered(root.shape, k * overfetch, q, keep), far, k, r.value)
      ensures r.Some? && k > 0 && |Accepted(root.shape, keep)| <= k * overfetch ==>
              RPSpec.Nearest(Accepted(root.shape, keep), far, k, r.value)
    {
      hide RPSpec.Nearest, Gathered, Sound, Accepted;
      if dims(v) != dim {
        return None;
      }
      if k <= 0 {
        return Some([]);
      }
      GatheredPartitions(root.shape, k * overfetch, q, keep);
      if length == 0 {
        NothingNear(root.shape, k * overfetch, q, keep, far, k);
        return Some([]);
      }
      var candidates := Gather(k * overfetch, q, keep);
      var out := RankNearest(candidates, far, k);
      if |Accepted(root.shape, keep)| <= k * overfetch {
        SameNearest(candidates, Accepted(root.shape, keep), far, k, out);
      }
      return Some(out);
    }

    static lemma NothingNear(s: Shape<V>, budget: nat, q: nat -> real, keep: Key -> bool, far: V -> nat, k: nat)
      requires Points(s) == []
      ensures RPSpec.Nearest(Gathered(s, budget, q, keep), far, k, []) && RPSpec.Nearest(Accepted(s, keep), far, k, [])
    {
      hide Gathered;
      GatheredPartitions(s, budget, q, keep);
      var g := Gathered(s, budget, q, keep);
      assert |g| == |multiset(g)|;
    }

    static lemma SameNearest(a: seq<Point<V>>, b: seq<Point<V>>, far: V -> nat, k: nat, out: seq<Point<V>>)
      requires multiset(a) == multiset(b) && RPSpec.Nearest(a, far, k, out)
      ensures RPSpec.Nearest(b, far, k, out)
    {
      SameItems(a, b);
    }
  }
}
