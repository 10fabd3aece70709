/** The mutable B-tree: nodes whose value and child lists are spliced in place. A
    ghost map of the nodes, the shadow, says which node stands for which part of the
    tree value of module BTreeShape. Every method is tied to the step that value
    takes, and hands back the new shadow. */
module BTrees {
  import opened BTreeShape
  import opened BTreeOps
  import opened BTreeDelete
  import opened Wrappers

  class BTreeNode<T> {
    var values: seq<Entry<T>>
    var children: seq<BTreeNode<T>>

    constructor (values: seq<Entry<T>>, children: seq<BTreeNode<T>>)
      ensures this.values == values && this.children == children
    {
      this.values := values;
      this.children := children;
    }

    /** Rewrites the node's two lists over children that stand as they are. */
    method Put(values: seq<Entry<T>>, children: seq<BTreeNode<T>>, ghost kids: seq<Shadow<T>>)
      returns (ghost s: Shadow<T>)
      requires children == Heads(kids) && Stand(kids) && Once(Bags(kids)) && this !in Bags(kids)
      modifies this
      ensures s == Shadow(this, values, kids) && Live(this, s)
      ensures Bag(s) == multiset{this} + Bags(kids) && Shape(s) == Node(values, Shapes(kids))
    {
      this.values := values;
      this.children := children;
      s := Shadow(this, values, kids);
      Assemble(this, values, kids);
    }
  }

  datatype Shadow<T> = Shadow(node: BTreeNode<T>, vals: seq<Entry<T>>, kids: seq<Shadow<T>>)

  /** The tree value a shadow stands for. */
  ghost function Shape<T>(s: Shadow<T>): Tree<T>
    decreases s, 1
  {
    Node(s.vals, Shapes(s.kids))
  }

  ghost function Shapes<T>(ss: seq<Shadow<T>>): (ts: seq<Tree<T>>)
    ensures |ts| == |ss| && forall i :: 0 <= i < |ss| ==> ts[i] == Shape(ss[i])
    decreases ss, 0
  {
    seq(|ss|, i requires 0 <= i < |ss| => Shape(ss[i]))
  }

  ghost function Heads<T>(ss: seq<Shadow<T>>): (ns: seq<BTreeNode<T>>)
    ensures |ns| == |ss| && forall i :: 0 <= i < |ss| ==> ns[i] == ss[i].node
  {
    seq(|ss|, i requires 0 <= i < |ss| => ss[i].node)
  }

  /** Every node below a shadow, as often as it occurs. */
  ghost function Bag<T>(s: Shadow<T>): multiset<object>
    decreases s, 1
  {
    multiset{s.node} + Bags(s.kids)
  }

  ghost function Bags<T>(ss: seq<Shadow<T>>): multiset<object>
    decreases ss, 0
  {
    if ss == [] then multiset{} else Bag(ss[0]) + Bags(ss[1..])
  }

  ghost predicate Once(b: multiset<object>) {
    forall o :: o in b ==> b[o] == 1
  }

  /** The nodes on the heap hold what their shadows say. */
  ghost predicate Stands<T>(s: Shadow<T>)
    reads Bag(s)
    decreases s, 1
  {
    s.node.values == s.vals && s.node.children == Heads(s.kids) && Stand(s.kids)
  }

  ghost predicate Stand<T>(ss: seq<Shadow<T>>)
    reads Bags(ss)
    decreases ss, 0
  {
    ss == [] || (Stands(ss[0]) && Stand(ss[1..]))
  }

  lemma {:induction false} BagsJoin<T>(a: seq<Shadow<T>>, b: seq<Shadow<T>>)
    ensures Bags(a + b) == Bags(a) + Bags(b)
  {
    hide Bag;
    if a == [] {
      assert a + b == b;
    } else {
      assert (a + b)[1..] == a[1..] + b;
      BagsJoin(a[1..], b);
    }
  }

  lemma {:induction false} StandJoin<T>(a: seq<Shadow<T>>, b: seq<Shadow<T>>)
    ensures Stand(a + b) <==> Stand(a) && Stand(b)
  {
    hide Stands, Bag;
    if a == [] {
      assert a + b == b;
    } else {
      assert (a + b)[1..] == a[1..] + b;
      StandJoin(a[1..], b);
    }
  }

  /** Lists of shadows put together. */
  lemma Join<T>(a: seq<Shadow<T>>, b: seq<Shadow<T>>)
    ensures Bags(a + b) == Bags(a) + Bags(b)
    ensures Stand(a + b) <==> Stand(a) && Stand(b)
    ensures Shapes(a + b) == Shapes(a) + Shapes(b)
    ensures Heads(a + b) == Heads(a) + Heads(b)
  {
    hide Bags, Stand, Shape;
    BagsJoin(a, b);
    StandJoin(a, b);
  }

  lemma One<T>(s: Shadow<T>)
    ensures Bags([s]) == Bag(s) && (Stand([s]) <==> Stands(s))
    ensures Shapes([s]) == [Shape(s)] && Heads([s]) == [s.node]
  {
    hide Bag, Stands, Shape;
  }

  lemma Two<T>(l: Shadow<T>, r: Shadow<T>)
    ensures Bags([l, r]) == Bag(l) + Bag(r) && (Stand([l, r]) <==> Stands(l) && Stands(r))
    ensures Shapes([l, r]) == [Shape(l), Shape(r)] && Heads([l, r]) == [l.node, r.node]
  {
    hide Bag, Bags, Stand, Stands, Shape;
    assert [l] + [r] == [l, r];
    Join([l], [r]);
    One(l);
    One(r);
  }

  /** Lists of shadows around one in the middle. */
  lemma Join3<T>(a: seq<Shadow<T>>, m: seq<Shadow<T>>, b: seq<Shadow<T>>)
    ensures Bags(a + m + b) == Bags(a) + Bags(m) + Bags(b)
    ensures Stand(a + m + b) <==> Stand(a) && Stand(m) && Stand(b)
    ensures Shapes(a + m + b) == Shapes(a) + Shapes(m) + Shapes(b)
    ensures Heads(a + m + b) == Heads(a) + Heads(m) + Heads(b)
  {
    hide Bag, Stands, Shape, Bags, Stand, Shapes, Heads;
    Join(a + m, b);
    Join(a, m);
  }

  ghost predicate Live<T>(n: BTreeNode<T>, s: Shadow<T>)
    reads Bag(s)
  {
    s.node == n && Once(Bag(s)) && Stands(s)
  }

  lemma OnceApart(x: multiset<object>, y: multiset<object>)
    requires Once(x + y)
    ensures Once(x) && Once(y) && x !! y
  {
    assert forall o :: o in x ==> (x + y)[o] == x[o] + y[o];
    assert forall o :: o in y ==> (x + y)[o] == x[o] + y[o];
  }

  /** A live node taken apart, and children put under a node again. */
  lemma Disassemble<T>(n: BTreeNode<T>, s: Shadow<T>)
    requires Live(n, s)
    ensures n.values == s.vals && n.children == Heads(s.kids) && Stand(s.kids)
    ensures Bag(s) == multiset{n} + Bags(s.kids) && Once(Bags(s.kids)) && n !in Bags(s.kids)
    ensures Shape(s) == Node(s.vals, Shapes(s.kids))
  {
    OnceApart(multiset{n}, Bags(s.kids));
  }

  lemma Assemble<T>(n: BTreeNode<T>, vals: seq<Entry<T>>, kids: seq<Shadow<T>>)
    requires n.values == vals && n.children == Heads(kids) && Stand(kids)
    requires Once(Bags(kids)) && n !in Bags(kids)
    ensures Live(n, Shadow(n, vals, kids)) && Bag(Shadow(n, vals, kids)) == multiset{n} + Bags(kids)
    ensures Shape(Shadow(n, vals, kids)) == Node(vals, Shapes(kids))
  {
  }

  lemma Apart3(n: multiset<object>, x: multiset<object>, y: multiset<object>, z: multiset<object>)
    requires Once(n + (x + y + z))
    ensures Once(n) && Once(x) && Once(y) && Once(z) && n !! x && n !! y && n !! z && x !! y && y !! z && x !! z
  {
    hide Once;
    OnceApart(n, x + y + z);
    OnceApart(x + y, z);
    OnceApart(x, y);
  }

  /** A shadow's children in three runs: nothing is shared. */
  lemma Parts<T>(s: Shadow<T>, i: nat, j: nat)
    requires Once(Bag(s)) && i <= j <= |s.kids|
    ensures Bag(s) == multiset{s.node} + Bags(s.kids[..i]) + Bags(s.kids[i..j]) + Bags(s.kids[j..])
    ensures s.node !in Bags(s.kids[..i]) && s.node !in Bags(s.kids[i..j]) && s.node !in Bags(s.kids[j..])
    ensures Bags(s.kids[..i]) !! Bags(s.kids[i..j]) && Bags(s.kids[i..j]) !! Bags(s.kids[j..])
    ensures Bags(s.kids[..i]) !! Bags(s.kids[j..]) && Once(Bags(s.kids[..i])) && Once(Bags(s.kids[i..j]))
            && Once(Bags(s.kids[j..]))
  {
    hide Bag, Bags, Stand, Stands, Shape, Shapes, Heads, Once;
    var a, m, b := s.kids[..i], s.kids[i..j], s.kids[j..];
    assert s.kids == a + m + b;
    Join3(a, m, b);
    BagOf(s);
    Apart3(multiset{s.node}, Bags(a), Bags(m), Bags(b));
  }

  lemma BagOf<T>(s: Shadow<T>)
    ensures Bag(s) == multiset{s.node} + Bags(s.kids)
  {
  }

  /** The same runs, on the heap. */
  lemma StandParts<T>(s: Shadow<T>, i: nat, j: nat)
    requires Stands(s) && i <= j <= |s.kids|
    ensures s.node.values == s.vals && s.node.children == Heads(s.kids)
    ensures Stand(s.kids[..i]) && Stand(s.kids[i..j]) && Stand(s.kids[j..])
  {
    var a, m, b := s.kids[..i], s.kids[i..j], s.kids[j..];
    assert Stand(s.kids) && s.node.values == s.vals && s.node.children == Heads(s.kids);
    hide Bag, Stands, Stand, Bags;
    assert s.kids == a + m + b;
    Join3(a, m, b);
  }

  /** Child i of a live node is live, and no other child or the node shares with it. */
  lemma Child<T>(n: BTreeNode<T>, s: Shadow<T>, i: nat)
    requires Live(n, s) && i < |s.kids|
    ensures |n.children| == |s.kids| && Live(n.children[i], s.kids[i])
    ensures Bag(s.kids[i]) == Bags(s.kids[i..i + 1]) && n.children[i] in Bag(s.kids[i])
    ensures n.children[i] != n && n !in Bag(s.kids[i]) && (forall o :: o in Bag(s.kids[i]) ==> o in Bag(s))
    ensures n.children[i] !in Bags(s.kids[..i]) && n.children[i] !in Bags(s.kids[i + 1..])
  {
    assert s.kids[i].node in Bag(s.kids[i]);
    hide Bag, Bags, Stands, Stand;
    Parts(s, i, i + 1);
    StandParts(s, i, i + 1);
    assert s.kids[i..i + 1] == [s.kids[i]];
    One(s.kids[i]);
  }

  // ---------------------------------------------------------------- splicing

  /** The children with run i..j replaced. */
  ghost function Splice<T>(s: Shadow<T>, i: nat, j: nat, m: seq<Shadow<T>>): seq<Shadow<T>>
    requires i <= j <= |s.kids|
  {
    s.kids[..i] + m + s.kids[j..]
  }

  /** A run replaced by nodes of its own or new ones: still nothing is shared. */
  lemma Spliced<T>(s: Shadow<T>, i: nat, j: nat, m: seq<Shadow<T>>)
    requires Once(Bag(s)) && i <= j <= |s.kids| && Once(Bags(m))
    requires forall o :: o in Bags(m) ==> o in Bags(s.kids[i..j]) || o !in Bag(s)
    ensures Once(Bags(Splice(s, i, j, m))) && s.node !in Bags(Splice(s, i, j, m))
    ensures forall o :: o in Bags(Splice(s, i, j, m)) ==> o in Bag(s) || o in Bags(m)
  {
    hide Bag, Bags;
    Parts(s, i, j);
    Join3(s.kids[..i], m, s.kids[j..]);
  }

  lemma SplicedLists<T>(s: Shadow<T>, i: nat, j: nat, m: seq<Shadow<T>>)
    requires i <= j <= |s.kids|
    ensures Heads(Splice(s, i, j, m)) == Heads(s.kids)[..i] + Heads(m) + Heads(s.kids)[j..]
    ensures Shapes(Splice(s, i, j, m)) == Shapes(s.kids)[..i] + Shapes(m) + Shapes(s.kids)[j..]
    ensures Stand(Splice(s, i, j, m)) <==> Stand(s.kids[..i]) && Stand(m) && Stand(s.kids[j..])
  {
    hide Bag, Bags, Stand, Stands, Shape, Shapes, Heads;
    Join3(s.kids[..i], m, s.kids[j..]);
    Cut(s.kids, i);
    Cut(s.kids, j);
  }

  /** A shadow known in a state has all its nodes allocated there. */
  twostate lemma {:induction false} Allocated<T>(s: Shadow<T>)
    ensures forall o :: o in Bag(s) ==> old(allocated(o))
    decreases s, 1
  {
    AllAllocated(s.kids);
  }

  twostate lemma {:induction false} AllAllocated<T>(ss: seq<Shadow<T>>)
    ensures forall o :: o in Bags(ss) ==> old(allocated(o))
    decreases ss, 0
  {
    if ss != [] {
      Allocated(ss[0]);
      AllAllocated(ss[1..]);
    }
  }

  // ---------------------------------------------------------------- split

  lemma Cut<T>(ss: seq<Shadow<T>>, c: nat)
    requires c <= |ss|
    ensures Shapes(ss[..c]) == Shapes(ss)[..c] && Shapes(ss[c..]) == Shapes(ss)[c..]
    ensures Heads(ss[..c]) == Heads(ss)[..c] && Heads(ss[c..]) == Heads(ss)[c..]
    ensures Bags(ss) == Bags(ss[..c]) + Bags(ss[c..])
    ensures Stand(ss) <==> Stand(ss[..c]) && Stand(ss[c..])
  {
    hide Bags, Stand, Shape;
    assert ss == ss[..c] + ss[c..];
    Join(ss[..c], ss[c..]);
  }

  /** The upper half of a full node moves to a new one; the median is left to the
      caller. */
  method Halve<T>(n: BTreeNode<T>, d: nat, ghost s: Shadow<T>)
    returns (right: BTreeNode<T>, ghost l: Shadow<T>, ghost r: Shadow<T>)
    requires Live(n, s) && d >= 2 && |s.vals| == 2 * d - 1 && (s.kids == [] || |s.kids| == 2 * d)
    modifies n
    ensures fresh(right) && Live(n, l) && Live(right, r)
    ensures Bag(l) + Bag(r) == Bag(s) + multiset{right}
    ensures Shape(l) == Low(Shape(s), d) && Shape(r) == High(Shape(s), d)
  {
    hide Bag, Bags, Stands, Stand, Shape;
    Disassemble(n, s);
    ghost var c := if s.kids == [] then 0 else d;
    ghost var lo, hi := s.kids[..c], s.kids[c..];
    Cut(s.kids, c);
    OnceApart(Bags(lo), Bags(hi));
    AllAllocated(lo);
    AllAllocated(hi);
    right := new BTreeNode(n.values[d..], if n.children == [] then [] else n.children[d..]);
    Assemble(right, s.vals[d..], hi);
    r := Shadow(right, s.vals[d..], hi);
    l := n.Put(n.values[..d - 1], if n.children == [] then [] else n.children[..d], lo);
  }

  lemma {:induction false} SplitShape<T>(s: Shadow<T>, i: nat, d: nat, l: Shadow<T>, r: Shadow<T>)
    requires |s.kids| == |s.vals| + 1 && i < |s.kids| && 1 <= d <= |s.kids[i].vals|
    requires Shape(l) == Low(Shape(s.kids[i]), d) && Shape(r) == High(Shape(s.kids[i]), d)
    ensures Node(s.vals[..i] + [s.kids[i].vals[d - 1]] + s.vals[i..], Shapes(Splice(s, i, i + 1, [l, r]))) ==
            SplitChild(Shape(s), i, d)
  {
    SplicedLists(s, i, i + 1, [l, r]);
  }

  /** A node's lists rewritten around a run of children that was replaced. */
  method Relink<T>(n: BTreeNode<T>, values: seq<Entry<T>>, children: seq<BTreeNode<T>>,
      ghost s: Shadow<T>, ghost i: nat, ghost j: nat, ghost m: seq<Shadow<T>>)
    returns (ghost s': Shadow<T>)
    requires s.node == n && Once(Bag(s)) && i <= j <= |s.kids| && Once(Bags(m))
    requires forall o :: o in Bags(m) ==> o in Bags(s.kids[i..j]) || o !in Bag(s)
    requires children == Heads(s.kids)[..i] + Heads(m) + Heads(s.kids)[j..]
    requires Stand(s.kids[..i]) && Stand(m) && Stand(s.kids[j..])
    modifies n
    ensures Live(n, s') && (forall o :: o in Bag(s') ==> o in Bag(s) || o in Bags(m))
    ensures Shape(s') == Node(values, Shapes(s.kids)[..i] + Shapes(m) + Shapes(s.kids)[j..])
    ensures s' == Shadow(n, values, Splice(s, i, j, m))
  {
    assert n in Bag(s);
    hide Bag, Bags, Stands, Stand, Shape;
    Spliced(s, i, j, m);
    SplicedLists(s, i, j, m);
    s' := n.Put(values, children, Splice(s, i, j, m));
  }

  lemma OnceMore(x: multiset<object>, o: object)
    requires Once(x) && o !in x
    ensures Once(x + multiset{o})
  {
  }

  method SplitChildAt<T>(n: BTreeNode<T>, i: nat, d: nat, ghost s: Shadow<T>) returns (ghost s': Shadow<T>)
    requires Live(n, s) && d >= 2 && |s.kids| == |s.vals| + 1 && i < |s.kids|
    requires |s.kids[i].vals| == 2 * d - 1 && (s.kids[i].kids == [] || |s.kids[i].kids| == 2 * d)
    modifies n, s.kids[i].node
    ensures Live(n, s') && (forall o :: o in Bag(s') ==> o in Bag(s) || fresh(o))
    ensures Shape(s') == SplitChild(Shape(s), i, d)
  {
    hide Bag, Bags, Stands, Stand, Shape, Shapes, Heads, Once, SplitChild;
    ghost var k := s.kids[i];
    Child(n, s, i);
    StandParts(s, i, i + 1);
    Allocated(s);
    Allocated(k);
    AllAllocated(s.kids[..i]);
    AllAllocated(s.kids[i + 1..]);
    var child := n.children[i];
    Disassemble(child, k);
    var mid := child.values[d - 1];
    ghost var l, r;
    var right;
    right, l, r := Halve(child, d, k);
    ghost var m := [l, r];
    Two(l, r);
    OnceMore(Bag(k), right);
    assert forall o :: o in Bags(m) ==> o in Bag(k) || o == right;
    assert n.children[..i + 1] == n.children[..i] + [child];
    SplitShape(s, i, d, l, r);
    SplicedLists(s, i, i + 1, m);
    s' := Relink(n, n.values[..i] + [mid] + n.values[i..], n.children[..i + 1] + [right] + n.children[i + 1..], s, i,
        i + 1, m);
  }

  // ---------------------------------------------------------------- merge and borrow

  /** Children i and i + 1 of a live node: apart from each other and from the rest. */
  lemma Siblings<T>(n: BTreeNode<T>, s: Shadow<T>, i: nat)
    requires Live(n, s) && i + 1 < |s.kids|
    ensures n.values == s.vals && n.children == Heads(s.kids)
    ensures Live(n.children[i], s.kids[i]) && Live(n.children[i + 1], s.kids[i + 1])
    ensures Bags(s.kids[i..i + 2]) == Bag(s.kids[i]) + Bag(s.kids[i + 1])
    ensures Bag(s.kids[i]) !! Bag(s.kids[i + 1]) && Once(Bag(s.kids[i]) + Bag(s.kids[i + 1]))
    ensures n.children[i] in Bag(s.kids[i]) && n.children[i + 1] in Bag(s.kids[i + 1])
    ensures n !in Bag(s.kids[i]) && n !in Bag(s.kids[i + 1])
    ensures Stand(s.kids[..i]) && Stand(s.kids[i + 2..]) && (forall o :: o in Bags(s.kids[i..i + 2]) ==> o in Bag(s))
    ensures n.children[i] !in Bags(s.kids[..i]) && n.children[i] !in Bags(s.kids[i + 2..])
    ensures n.children[i + 1] !in Bags(s.kids[..i]) && n.children[i + 1] !in Bags(s.kids[i + 2..])
  {
    hide Bag, Bags, Stands, Stand;
    Child(n, s, i);
    Child(n, s, i + 1);
    Parts(s, i, i + 2);
    StandParts(s, i, i + 2);
    assert s.kids[i..i + 2] == [s.kids[i], s.kids[i + 1]];
    Two(s.kids[i], s.kids[i + 1]);
    assert n.children[i] in Bags(s.kids[i..i + 2]) && n.children[i + 1] in Bags(s.kids[i..i + 2]);
    OnceApart(Bag(s.kids[i]), Bag(s.kids[i + 1]));
  }

  /** The children of two siblings share neither with each other nor with the two. */
  lemma Pooled<T>(l: Shadow<T>, r: Shadow<T>)
    requires Once(Bag(l) + Bag(r))
    ensures Bag(l) + Bag(r) == multiset{l.node} + multiset{r.node} + (Bags(l.kids) + Bags(r.kids))
    ensures Once(Bags(l.kids) + Bags(r.kids)) && l.node !in Bags(l.kids) + Bags(r.kids)
            && r.node !in Bags(l.kids) + Bags(r.kids)
    ensures l.node != r.node
  {
    assert Bag(l) + Bag(r) == multiset{l.node} + multiset{r.node} + (Bags(l.kids) + Bags(r.kids));
    hide Bag, Bags;
    OnceApart(multiset{l.node} + multiset{r.node}, Bags(l.kids) + Bags(r.kids));
    OnceApart(multiset{l.node}, multiset{r.node});
  }

  /** The left of two siblings takes a value and all the right one holds. */
  method Absorb<T>(left: BTreeNode<T>, v: Entry<T>, right: BTreeNode<T>, ghost l: Shadow<T>, ghost r: Shadow<T>)
    returns (ghost m: Shadow<T>)
    requires Live(left, l) && Live(right, r) && Once(Bag(l) + Bag(r))
    modifies left
    ensures m == Shadow(left, l.vals + [v] + r.vals, l.kids + r.kids)
    ensures Once(Bags([m])) && Stand([m]) && Heads([m]) == [left]
    ensures forall o :: o in Bags([m]) ==> o in Bag(l) + Bag(r)
  {
    hide Bag, Bags, Stands, Stand, Shape, Shapes, Heads, Once;
    Disassemble(left, l);
    Disassemble(right, r);
    Pooled(l, r);
    Join(l.kids, r.kids);
    m := left.Put(left.values + [v] + right.values, left.children + right.children, l.kids + r.kids);
    One(m);
  }

  method MergeChildren<T>(n: BTreeNode<T>, i: nat, ghost s: Shadow<T>) returns (ghost s': Shadow<T>)
    requires Live(n, s) && |s.kids| == |s.vals| + 1 && i < |s.vals|
    modifies n, s.kids[i].node
    ensures Live(n, s') && (forall o :: o in Bag(s') ==> o in Bag(s))
    ensures Shape(s') == MergeKids(Shape(s), i)
  {
    hide Bag, Bags, Stands, Stand, Shape, Shapes, Heads, Once, MergeKids;
    Siblings(n, s, i);
    RootOnce(n, s);
    var left := n.children[i];
    AllAllocated(s.kids[..i]);
    AllAllocated(s.kids[i + 2..]);
    ghost var m := Absorb(left, n.values[i], n.children[i + 1], s.kids[i], s.kids[i + 1]);
    assert n.children[..i + 1] == n.children[..i] + [left];
    MergeShape(s, i, m);
    s' := Relink(n, n.values[..i] + n.values[i + 1..], n.children[..i + 1] + n.children[i + 2..], s, i, i + 2, [m]);
  }

  lemma RootOnce<T>(n: BTreeNode<T>, s: Shadow<T>)
    requires Live(n, s)
    ensures s.node == n && Once(Bag(s))
  {
  }

  lemma MergeShape<T>(s: Shadow<T>, i: nat, m: Shadow<T>)
    requires |s.kids| == |s.vals| + 1 && i < |s.vals|
    requires m.vals == s.kids[i].vals + [s.vals[i]] + s.kids[i + 1].vals
    requires m.kids == s.kids[i].kids + s.kids[i + 1].kids
    ensures Node(s.vals[..i] + s.vals[i + 1..], Shapes(s.kids)[..i] + Shapes([m]) + Shapes(s.kids)[i + 2..]) ==
            MergeKids(Shape(s), i)
  {
    One(m);
    Join(s.kids[i].kids, s.kids[i + 1].kids);
    SameNode(Shape(m), Merge(Shape(s.kids[i]), s.vals[i], Shape(s.kids[i + 1])));
  }

  // ---- borrowing

  /** One part of a sibling's children moves to the other sibling. */
  lemma Moved<T>(l: Shadow<T>, r: Shadow<T>, x: seq<Shadow<T>>, y: seq<Shadow<T>>)
    requires Once(Bag(l) + Bag(r)) && x + y == l.kids + r.kids
    ensures Once(Bags(x)) && Once(Bags(y)) && Bags(x) !! Bags(y)
    ensures l.node !in Bags(x) && l.node !in Bags(y) && r.node !in Bags(x) && r.node !in Bags(y) && l.node != r.node
    ensures Once(multiset{l.node} + Bags(x) + (multiset{r.node} + Bags(y)))
    ensures multiset{l.node} + Bags(x) + (multiset{r.node} + Bags(y)) == Bag(l) + Bag(r)
    ensures Heads(x) + Heads(y) == Heads(l.kids) + Heads(r.kids)
    ensures Shapes(x) + Shapes(y) == Shapes(l.kids) + Shapes(r.kids)
    ensures Stand(l.kids) && Stand(r.kids) ==> Stand(x) && Stand(y)
  {
    hide Bag, Bags, Stand, Shape, Shapes, Heads;
    Pooled(l, r);
    Join(l.kids, r.kids);
    Join(x, y);
    OnceApart(Bags(x), Bags(y));
  }

  /** Two siblings given new values and, between them, the same children. */
  method Redeal<T>(left: BTreeNode<T>, lv: seq<Entry<T>>, lc: seq<BTreeNode<T>>, right: BTreeNode<T>,
      rv: seq<Entry<T>>, rc: seq<BTreeNode<T>>,
                   ghost l: Shadow<T>, ghost r: Shadow<T>, ghost x: seq<Shadow<T>>, ghost y: seq<Shadow<T>>)
    returns (ghost a: Shadow<T>, ghost b: Shadow<T>)
    requires Live(left, l) && Live(right, r) && Once(Bag(l) + Bag(r))
    requires x + y == l.kids + r.kids && lc == Heads(x) && rc == Heads(y)
    modifies left, right
    ensures Stands(a) && Stands(b) && Once(Bags([a, b])) && Bags([a, b]) == Bag(l) + Bag(r)
    ensures a.node == left && b.node == right && Shape(a) == Node(lv, Shapes(x)) && Shape(b) == Node(rv, Shapes(y))
  {
    hide Bag, Bags, Stands, Stand, Shape, Shapes, Heads, Once;
    Disassemble(left, l);
    Disassemble(right, r);
    Moved(l, r, x, y);
    AllAllocated(x);
    AllAllocated(y);
    a := left.Put(lv, lc, x);
    b := right.Put(rv, rc, y);
    Two(a, b);
  }

  /** The pair i, i + 1 of children of a live node given new values and children of
      theirs. */
  method Rebalance<T>(n: BTreeNode<T>, i: nat, left: BTreeNode<T>, lv: seq<Entry<T>>, lc: seq<BTreeNode<T>>,
      v: Entry<T>, right: BTreeNode<T>, rv: seq<Entry<T>>, rc: seq<BTreeNode<T>>,
      ghost s: Shadow<T>, ghost x: seq<Shadow<T>>, ghost y: seq<Shadow<T>>)
    returns (ghost s': Shadow<T>)
    requires Live(n, s) && |s.kids| == |s.vals| + 1 && i < |s.vals|
    requires left == s.kids[i].node && right == s.kids[i + 1].node
    requires x + y == s.kids[i].kids + s.kids[i + 1].kids && lc == Heads(x) && rc == Heads(y)
    modifies n, left, right
    ensures Live(n, s') && (forall o :: o in Bag(s') ==> o in Bag(s))
    ensures Shape(s') == PutPair(Shape(s), i, Node(lv, Shapes(x)), v, Node(rv, Shapes(y)))
  {
    hide Bag, Bags, Stands, Stand, Shape, Shapes, Heads, Once, PutPair;
    Siblings(n, s, i);
    AllAllocated(s.kids[..i]);
    AllAllocated(s.kids[i + 2..]);
    ghost var a, b := Redeal(left, lv, lc, right, rv, rc, s.kids[i], s.kids[i + 1], x, y);
    Two(a, b);
    PairLists(n.children, i);
    PairShape(s, i, a, v, b);
    s' := Relink(n, n.values[i := v], n.children, s, i, i + 2, [a, b]);
  }

  lemma PairShape<T>(s: Shadow<T>, i: nat, a: Shadow<T>, v: Entry<T>, b: Shadow<T>)
    requires |s.kids| == |s.vals| + 1 && i < |s.vals|
    ensures Node(s.vals[i := v], Shapes(s.kids)[..i] + Shapes([a, b]) + Shapes(s.kids)[i + 2..]) ==
            PutPair(Shape(s), i, Shape(a), v, Shape(b))
  {
    hide Shape, Shapes;
    Two(a, b);
    ShapeParts(s);
    PairPut(Shapes(s.kids), i, Shape(a), Shape(b));
  }

  lemma PairPut<A>(s: seq<A>, i: nat, a: A, b: A)
    requires i + 1 < |s|
    ensures s[i := a][i + 1 := b] == s[..i] + [a, b] + s[i + 2..]
  {
  }

  lemma PairLists<A>(s: seq<A>, i: nat)
    requires i + 1 < |s|
    ensures s == s[..i] + [s[i], s[i + 1]] + s[i + 2..]
  {
  }

  lemma ShapeParts<T>(s: Shadow<T>)
    ensures Shape(s).vals == s.vals && Shape(s).kids == Shapes(s.kids)
  {
  }

  lemma {:induction false} ShiftedRight<T>(l: Shadow<T>, v: Entry<T>, c: Shadow<T>, x: seq<Shadow<T>>,
      y: seq<Shadow<T>>)
    requires l.vals != []
    requires if l.kids == [] then x == [] && y == c.kids
             else x == l.kids[..|l.kids| - 1] && y == [l.kids[|l.kids| - 1]] + c.kids
    ensures ShiftRight(Shape(l), v, Shape(c))
            == Pair(Node(l.vals[..|l.vals| - 1], Shapes(x)), l.vals[|l.vals| - 1], Node([v] + c.vals, Shapes(y)))
  {
    hide Shape, Shapes;
    ShapeParts(l);
    ShapeParts(c);
    if l.kids != [] {
      Cut(l.kids, |l.kids| - 1);
      Join([l.kids[|l.kids| - 1]], c.kids);
      One(l.kids[|l.kids| - 1]);
    } else {
      NoShadows<T>();
    }
  }

  lemma {:induction false} BorrowLeftShape<T>(s: Shadow<T>, i: nat, x: seq<Shadow<T>>, y: seq<Shadow<T>>)
    requires |s.kids| == |s.vals| + 1 && 0 < i < |s.kids| && s.kids[i - 1].vals != []
    requires var l, c := s.kids[i - 1], s.kids[i];
             if l.kids == [] then x == [] && y == c.kids
             else x == l.kids[..|l.kids| - 1] && y == [l.kids[|l.kids| - 1]] + c.kids
    ensures var l, c := s.kids[i - 1], s.kids[i];
            PutPair(Shape(s), i - 1, Node(l.vals[..|l.vals| - 1], Shapes(x)), l.vals[|l.vals| - 1],
                Node([s.vals[i - 1]] + c.vals, Shapes(y)))
            == BorrowLeft(Shape(s), i)
  {
    hide Shape, ShiftRight, PutPair;
    ShapeParts(s);
    ShapeParts(s.kids[i - 1]);
    ShiftedRight(s.kids[i - 1], s.vals[i - 1], s.kids[i], x, y);
  }

  lemma BorrowRightShape<T>(s: Shadow<T>, i: nat, x: seq<Shadow<T>>, y: seq<Shadow<T>>)
    requires |s.kids| == |s.vals| + 1 && i + 1 < |s.kids| && s.kids[i + 1].vals != []
    requires var c, r := s.kids[i], s.kids[i + 1];
             if r.kids == [] then x == c.kids && y == [] else x == c.kids + [r.kids[0]] && y == r.kids[1..]
    ensures var c, r := s.kids[i], s.kids[i + 1];
            PutPair(Shape(s), i, Node(c.vals + [s.vals[i]], Shapes(x)), r.vals[0], Node(r.vals[1..], Shapes(y)))
            == BorrowRight(Shape(s), i)
  {
    var c, r := s.kids[i], s.kids[i + 1];
    if r.kids != [] {
      Cut(r.kids, 1);
      Join(c.kids, [r.kids[0]]);
      One(r.kids[0]);
    }
    var p := ShiftLeft(Shape(c), s.vals[i], Shape(r));
    SameNode(Node(c.vals + [s.vals[i]], Shapes(x)), p.a);
    SameNode(Node(r.vals[1..], Shapes(y)), p.b);
  }

  method BorrowFromLeft<T>(n: BTreeNode<T>, i: nat, ghost s: Shadow<T>) returns (ghost s': Shadow<T>)
    requires Live(n, s) && |s.kids| == |s.vals| + 1 && 0 < i < |s.kids| && s.kids[i - 1].vals != []
    modifies n, s.kids[i - 1].node, s.kids[i].node
    ensures Live(n, s') && (forall o :: o in Bag(s') ==> o in Bag(s))
    ensures Shape(s') == BorrowLeft(Shape(s), i)
  {
    hide Bag, Bags, Stands, Stand, Shape, Shapes, Heads, Once, BorrowLeft, PutPair;
    ghost var l, c := s.kids[i - 1], s.kids[i];
    Siblings(n, s, i - 1);
    var left, child := n.children[i - 1], n.children[i];
    Disassemble(left, l);
    Disassemble(child, c);
    var last := |left.values| - 1;
    var lc, cc := left.children, child.children;
    ghost var x, y := l.kids, c.kids;
    if left.children != [] {
      var k := |left.children| - 1;
      lc, cc := left.children[..k], [left.children[k]] + child.children;
      Cut(l.kids, k);
      Join([l.kids[k]], c.kids);
      x, y := l.kids[..k], [l.kids[k]] + c.kids;
    }
    BorrowLeftShape(s, i, x, y);
    s' := Rebalance(n, i - 1, left, left.values[..last], lc, left.values[last], child,
        [n.values[i - 1]] + child.values, cc, s, x, y);
  }

  method BorrowFromRight<T>(n: BTreeNode<T>, i: nat, ghost s: Shadow<T>) returns (ghost s': Shadow<T>)
    requires Live(n, s) && |s.kids| == |s.vals| + 1 && i + 1 < |s.kids| && s.kids[i + 1].vals != []
    modifies n, s.kids[i].node, s.kids[i + 1].node
    ensures Live(n, s') && (forall o :: o in Bag(s') ==> o in Bag(s))
    ensures Shape(s') == BorrowRight(Shape(s), i)
  {
    hide Bag, Bags, Stands, Stand, Shape, Shapes, Heads, Once, BorrowRight, PutPair;
    ghost var c, r := s.kids[i], s.kids[i + 1];
    Siblings(n, s, i);
    var child, right := n.children[i], n.children[i + 1];
    Disassemble(child, c);
    Disassemble(right, r);
    var cc, rc := child.children, right.children;
    ghost var x, y := c.kids, r.kids;
    if right.children != [] {
      cc, rc := child.children + [right.children[0]], right.children[1..];
      Cut(r.kids, 1);
      Join(c.kids, [r.kids[0]]);
      x, y := c.kids + [r.kids[0]], r.kids[1..];
    }
    BorrowRightShape(s, i, x, y);
    s' := Rebalance(n, i, child, child.values + [n.values[i]], cc, right.values[0], right, right.values[1..], rc, s, x,
        y);
  }

  // ---------------------------------------------------------------- search

  /** The first index ranking at least r, by bisection. */
  method FindIndex<T>(values: seq<Entry<T>>, r: real) returns (i: nat, found: bool)
    requires Ascending(values)
    ensures i == Slot(values, r) && found == Hit(values, r, i)
  {
    var lo, hi := 0, |values|;
    while lo < hi
      invariant 0 <= lo <= hi <= |values|
      invariant forall k :: 0 <= k < lo ==> values[k].rank < r
      invariant hi < |values| ==> r < values[hi].rank
    {
      var mid := (lo + hi) / 2;
      if r == values[mid].rank {
        SlotIsUnique(values, r, mid, Slot(values, r));
        return mid, true;
      } else if r < values[mid].rank {
        hi := mid;
      } else {
        lo := mid + 1;
      }
    }
    SlotIsUnique(values, r, lo, Slot(values, r));
    return lo, false;
  }

  // ---------------------------------------------------------------- insert

  /** Child i changed in place: what the parent now stands for. */
  lemma NodeIn<T>(s: Shadow<T>)
    ensures s.node in Bag(s)
  {
  }

  lemma Adopt<T>(n: BTreeNode<T>, s: Shadow<T>, i: nat, k: Shadow<T>) returns (s': Shadow<T>)
    requires s.node == n && Once(Bag(s)) && i < |s.kids| && k.node == s.kids[i].node && Live(k.node, k)
    requires forall o :: o in Bag(k) ==> o in Bag(s.kids[i]) || o !in Bag(s)
    requires n.values == s.vals && n.children == Heads(s.kids) && n !in Bag(k)
    requires Stand(s.kids[..i]) && Stand(s.kids[i + 1..])
    ensures Live(n, s') && (forall o :: o in Bag(s') ==> o in Bag(s) || o in Bag(k))
    ensures Shape(s') == Node(s.vals, Shapes(s.kids)[i := Shape(k)])
  {
    NodeIn(s);
    hide Bag, Bags, Stands, Stand, Shape, Shapes, Heads, Once;
    One(s.kids[i]);
    One(k);
    assert s.kids[i..i + 1] == [s.kids[i]];
    Spliced(s, i, i + 1, [k]);
    SplicedLists(s, i, i + 1, [k]);
    s' := Shadow(n, s.vals, Splice(s, i, i + 1, [k]));
    Assemble(n, s.vals, s'.kids);
  }

  /** A child with room, reached from a tree in shape. */
  lemma RoomBelow<T>(t: Tree<T>, i: nat, h: nat, d: nat)
    requires d >= 2 && h > 0 && Fit(t, h, d) && Ascending(Contents(t)) && i < |t.kids| && |t.kids[i].vals| != 2 * d - 1
    ensures Room(t.kids[i], h - 1, d) && Ascending(Contents(t.kids[i]))
  {
    Between(t, i);
  }

  /** A split on the way down leaves the child the descent goes on into with room. */
  lemma RoomAfterSplit<T>(t: Tree<T>, i: nat, e: Entry<T>, h: nat, d: nat)
    requires Room(t, h, d) && h > 0 && Ascending(Contents(t)) && Leads(t, i, e.rank) && |t.kids[i].vals| == 2 * d - 1
    ensures var u := SplitChild(t, i, d);
            var j := if u.vals[i].rank < e.rank then i + 1 else i;
            u.vals[i].rank != e.rank ==> j < |u.kids| && Room(u.kids[j], h - 1, d) && Ascending(Contents(u.kids[j]))
  {
    var u := SplitChild(t, i, d);
    SplitFit(t, i, h, d);
    SplitContents(t, i, h, d);
    SplitLeads(t, i, e, h, d);
    if u.vals[i].rank != e.rank {
      RoomBelow(u, if u.vals[i].rank < e.rank then i + 1 else i, h, d);
    }
  }

  lemma Sizes<T>(n: BTreeNode<T>, s: Shadow<T>, h: nat, d: nat)
    requires Live(n, s) && Fit(Shape(s), h, d)
    ensures n in Bag(s) && |n.children| == |s.kids| && Shape(s).vals == s.vals == n.values
            && Shape(s).kids == Shapes(s.kids)
    ensures forall i :: 0 <= i < |s.kids| ==>
              h > 0 && n.children[i] == s.kids[i].node
                  && n.children[i].values == s.kids[i].vals == Shape(s).kids[i].vals && n.children[i] in Bag(s)
    ensures forall i :: 0 <= i < |s.kids| ==> (forall o :: o in Bag(s.kids[i]) ==> o in Bag(s))
    ensures forall i :: 0 <= i < |s.kids| ==> s.kids[i].kids == [] || |s.kids[i].kids| == |s.kids[i].vals| + 1
  {
    Disassemble(n, s);
    forall i | 0 <= i < |s.kids|
      ensures h > 0 && n.children[i] == s.kids[i].node
              && n.children[i].values == s.kids[i].vals == Shape(s).kids[i].vals && n.children[i] in Bag(s)
      ensures forall o :: o in Bag(s.kids[i]) ==> o in Bag(s)
      ensures s.kids[i].kids == [] || |s.kids[i].kids| == |s.kids[i].vals| + 1
    {
      Child(n, s, i);
      Disassemble(n.children[i], s.kids[i]);
      assert Fit(Shape(s).kids[i], h - 1, d);
    }
  }

  /** Insertion into the subtree at n, which is not full. */
  method InsertNonFull<T>(n: BTreeNode<T>, e: Entry<T>, d: nat, ghost s: Shadow<T>, ghost h: nat)
    returns (added: bool, ghost s': Shadow<T>)
    requires Live(n, s) && Room(Shape(s), h, d) && Ascending(Contents(Shape(s)))
    modifies Bag(s)
    ensures Live(n, s') && (forall o :: o in Bag(s') ==> o in Bag(s) || fresh(o))
    ensures Shape(s') == Insert(Shape(s), e, h, d).0 && added == Insert(Shape(s), e, h, d).1
    decreases h, 2, 1
  {
    hide Bag, Bags, Stands, Stand, Shape, Shapes, Heads, Contents, Ascending, InsertBelow, Once;
    ghost var t := Shape(s);
    Allocated(s);
    Sizes(n, s, h, d);
    ValsAscend(t, h, d);
    var i, found := FindIndex(n.values, e.rank);
    if found {
      return false, s;
    }
    if n.children == [] {
      NoShadows<T>();
      s' := n.Put(n.values[..i] + [e] + n.values[i..], [], []);
      return true, s';
    }
    if |n.children[i].values| == 2 * d - 1 {
      added, s' := InsertAfterSplit(n, i, e, d, s, h);
    } else {
      RoomBelow(t, i, h, d);
      added, s' := InsertBelowAt(n, i, e, d, s, h);
    }
  }

  /** Insertion below a full child, split on the way down. */
  method InsertAfterSplit<T>(n: BTreeNode<T>, i: nat, e: Entry<T>, d: nat, ghost s: Shadow<T>, ghost h: nat)
    returns (added: bool, ghost s': Shadow<T>)
    requires Live(n, s) && Room(Shape(s), h, d) && Ascending(Contents(Shape(s))) && h > 0
    requires Leads(Shape(s), i, e.rank) && i < |s.kids| && |s.kids[i].vals| == 2 * d - 1
    modifies Bag(s)
    ensures Live(n, s') && (forall o :: o in Bag(s') ==> o in Bag(s) || fresh(o))
    ensures var u := SplitChild(Shape(s), i, d);
            (Shape(s'), added) == if u.vals[i].rank == e.rank then (u, false)
                                  else InsertBelow(u, if u.vals[i].rank < e.rank then i + 1 else i, e, h, d)
    decreases h, 2, 0
  {
    hide Bag, Bags, Stands, Stand, Shape, Shapes, Heads, Contents, Ascending, InsertBelow, Once;
    ghost var t := Shape(s);
    Allocated(s);
    Sizes(n, s, h, d);
    RoomAfterSplit(t, i, e, h, d);
    ghost var u := SplitChildAt(n, i, d, s);
    Disassemble(n, u);
    if e.rank == n.values[i].rank {
      return false, u;
    }
    var j := if n.values[i].rank < e.rank then i + 1 else i;
    Child(n, u, j);
    added, s' := InsertBelowAt(n, j, e, d, u, h);
  }

  lemma NoShadows<T>()
    ensures Heads<T>([]) == [] && Stand<T>([]) && Once(Bags<T>([])) && Bags<T>([]) == multiset{} && Shapes<T>([]) == []
  {
  }

  method InsertBelowAt<T>(n: BTreeNode<T>, i: nat, e: Entry<T>, d: nat, ghost s: Shadow<T>, ghost h: nat)
    returns (added: bool, ghost s': Shadow<T>)
    requires Live(n, s) && h > 0 && i < |s.kids| && Room(Shape(s.kids[i]), h - 1, d)
            && Ascending(Contents(Shape(s.kids[i])))
    modifies Bag(s.kids[i])
    ensures Live(n, s') && (forall o :: o in Bag(s') ==> o in Bag(s) || fresh(o))
    ensures Shape(s') == InsertBelow(Shape(s), i, e, h, d).0 && added == InsertBelow(Shape(s), i, e, h, d).1
    decreases h, 1
  {
    hide Bag, Bags, Stands, Stand, Shape, Shapes, Heads, Insert, Fit, Once;
    Child(n, s, i);
    Parts(s, i, i + 1);
    StandParts(s, i, i + 1);
    Disassemble(n, s);
    Allocated(s);
    AllAllocated(s.kids[..i]);
    AllAllocated(s.kids[i + 1..]);
    ghost var k;
    added, k := InsertNonFull(n.children[i], e, d, s.kids[i], h - 1);
    s' := Adopt(n, s, i, k);
  }

  // ---------------------------------------------------------------- delete

  lemma Stocked<T>(t: Tree<T>, h: nat, d: nat)
    requires Fit(t, h, d) && t.vals != []
    ensures Contents(t) != []
  {
    ValIn(t, h, d, 0);
  }

  lemma LastOfKid<T>(t: Tree<T>, h: nat, d: nat)
    requires d >= 2 && h > 0 && Fit(t, h, d) && t.vals != []
    ensures var k := t.kids[|t.kids| - 1];
            k.vals != [] && Contents(t) != [] && Contents(k) != []
            && Contents(t)[|Contents(t)| - 1] == Contents(k)[|Contents(k)| - 1]
  {
    hide Contents;
    var n := |t.kids| - 1;
    assert Fit(t.kids[n], h - 1, d);
    Stocked(t.kids[n], h - 1, d);
    Focus(t, n);
    LeftOfNothing<T>();
    assert t.vals[n..] == [] && t.kids[n + 1..] == [];
  }

  lemma FirstOfKid<T>(t: Tree<T>, h: nat, d: nat)
    requires d >= 2 && h > 0 && Fit(t, h, d) && t.vals != []
    ensures var k := t.kids[0];
            k.vals != [] && Contents(t) != [] && Contents(k) != [] && Contents(t)[0] == Contents(k)[0]
  {
    hide Contents;
    assert Fit(t.kids[0], h - 1, d);
    Stocked(t.kids[0], h - 1, d);
    Focus(t, 0);
    LeftOfNothing<T>();
    assert t.vals[..0] == [] && t.kids[..0] == [];
  }

  /** The greatest value below n, down the last children. */
  method MaxBelow<T>(n: BTreeNode<T>, d: nat, ghost s: Shadow<T>, ghost h: nat) returns (v: Entry<T>)
    requires Live(n, s) && d >= 2 && Fit(Shape(s), h, d) && s.vals != [] && Contents(Shape(s)) != []
    ensures v == Contents(Shape(s))[|Contents(Shape(s))| - 1]
  {
    hide Bag, Bags, Stands, Stand, Shape, Shapes, Heads, Once, Contents;
    var m := n;
    ghost var u, g := s, h;
    Sizes(m, u, g, d);
    while m.children != []
      invariant Live(m, u) && Fit(Shape(u), g, d) && u.vals != [] && Contents(Shape(u)) != []
      invariant Contents(Shape(u))[|Contents(Shape(u))| - 1] == Contents(Shape(s))[|Contents(Shape(s))| - 1]
      decreases g
    {
      Sizes(m, u, g, d);
      LastOfKid(Shape(u), g, d);
      Child(m, u, |u.kids| - 1);
      u, g := u.kids[|u.kids| - 1], g - 1;
      m := m.children[|m.children| - 1];
    }
    Sizes(m, u, g, d);
    v := m.values[|m.values| - 1];
    LeafContents(Shape(u));
  }

  lemma LeafContents<T>(t: Tree<T>)
    requires t.kids == []
    ensures Contents(t) == t.vals
  {
  }

  /** The smallest value below n, down the first children. */
  method MinBelow<T>(n: BTreeNode<T>, d: nat, ghost s: Shadow<T>, ghost h: nat) returns (v: Entry<T>)
    requires Live(n, s) && d >= 2 && Fit(Shape(s), h, d) && s.vals != [] && Contents(Shape(s)) != []
    ensures v == Contents(Shape(s))[0]
  {
    hide Bag, Bags, Stands, Stand, Shape, Shapes, Heads, Once, Contents;
    var m := n;
    ghost var u, g := s, h;
    Sizes(m, u, g, d);
    while m.children != []
      invariant Live(m, u) && Fit(Shape(u), g, d) && u.vals != [] && Contents(Shape(u)) != []
      invariant Contents(Shape(u))[0] == Contents(Shape(s))[0]
      decreases g
    {
      Sizes(m, u, g, d);
      FirstOfKid(Shape(u), g, d);
      Child(m, u, 0);
      u, g := u.kids[0], g - 1;
      m := m.children[0];
    }
    Sizes(m, u, g, d);
    v := m.values[0];
    LeafContents(Shape(u));
  }

  /** Gives child i a value to spare and returns the child the descent goes into. */
  method FillChild<T>(n: BTreeNode<T>, i: nat, d: nat, ghost s: Shadow<T>, ghost h: nat)
    returns (j: nat, ghost s': Shadow<T>)
    requires Live(n, s) && Fillable(Shape(s), i, h, d)
    modifies Bag(s)
    ensures Live(n, s') && (forall o :: o in Bag(s') ==> o in Bag(s))
    ensures (Shape(s'), j) == Fill(Shape(s), i, d)
  {
    hide Bag, Bags, Stands, Stand, Shape, Shapes, Heads, Once, BorrowLeft, BorrowRight, MergeKids;
    Sizes(n, s, h, d);
    j := i;
    if i > 0 && |n.children[i - 1].values| > d - 1 {
      s' := BorrowFromLeft(n, i, s);
    } else if i < |n.children| - 1 && |n.children[i + 1].values| > d - 1 {
      s' := BorrowFromRight(n, i, s);
    } else if i < |n.children| - 1 {
      s' := MergeChildren(n, i, s);
    } else {
      j := i - 1;
      s' := MergeChildren(n, j, s);
    }
  }

  /** Deletion from the subtree at n. */
  method DeleteFrom<T>(n: BTreeNode<T>, r: real, d: nat, ghost s: Shadow<T>, ghost h: nat)
    returns (removed: bool, ghost s': Shadow<T>)
    requires Live(n, s) && Sound(Shape(s), h, d) && Ascending(Contents(Shape(s)))
    modifies Bag(s)
    ensures Live(n, s') && (forall o :: o in Bag(s') ==> o in Bag(s))
    ensures Shape(s') == Delete(Shape(s), r, h, d).0 && removed == Delete(Shape(s), r, h, d).1
    decreases h, 3
  {
    hide Bag, Bags, Stands, Stand, Shape, Shapes, Heads, Contents, Ascending, DeleteBelow, Once, MergeKids;
    ghost var t := Shape(s);
    Allocated(s);
    Sizes(n, s, h, d);
    ValsAscend(t, h, d);
    var i, found := FindIndex(n.values, r);
    if n.children == [] {
      if found {
        NoShadows<T>();
        s' := n.Put(n.values[..i] + n.values[i + 1..], [], []);
        return true, s';
      }
      return false, s;
    }
    if found {
      removed, s' := DeleteInner(n, i, d, s, h);
      return;
    }
    ghost var u := s;
    if |n.children[i].values| == d - 1 {
      FillFits(t, i, h, d);
      FillContents(t, i, h, d);
      i, u := FillChild(n, i, d, s, h);
    }
    Sizes(n, u, h, d);
    Between(Shape(u), i);
    removed, s' := DeleteBelowAt(n, i, r, d, u, h);
  }

  /** Deletion of the inner value i of n. */
  method DeleteInner<T>(n: BTreeNode<T>, i: nat, d: nat, ghost s: Shadow<T>, ghost h: nat)
    returns (removed: bool, ghost s': Shadow<T>)
    requires Live(n, s) && Sound(Shape(s), h, d) && Ascending(Contents(Shape(s))) && h > 0
    requires i < |s.vals| && i == Slot(s.vals, s.vals[i].rank)
    modifies Bag(s)
    ensures Live(n, s') && (forall o :: o in Bag(s') ==> o in Bag(s))
    ensures (Shape(s'), removed) == Delete(Shape(s), s.vals[i].rank, h, d)
    decreases h, 2
  {
    hide Bag, Bags, Stands, Stand, Shape, Shapes, Heads, Contents, Ascending, DeleteBelow, Once, Last, First, MergeKids;
    Sizes(n, s, h, d);
    if |n.children[i].values| > d - 1 {
      removed, s' := DeleteByLast(n, i, d, s, h);
    } else if |n.children[i + 1].values| > d - 1 {
      removed, s' := DeleteByFirst(n, i, d, s, h);
    } else {
      removed, s' := DeleteByMerge(n, i, d, s, h);
    }
  }

  /** What the descent into a child rests on. */
  lemma ChildSound<T>(n: BTreeNode<T>, s: Shadow<T>, j: nat, h: nat, d: nat)
    requires Live(n, s) && Sound(Shape(s), h, d) && Ascending(Contents(Shape(s))) && h > 0 && j < |s.kids|
    ensures |n.children| == |s.kids| == |s.vals| + 1 && Shape(s).vals == s.vals && |Shape(s).kids| == |s.kids| && d >= 2
    ensures Shape(s) == Node(s.vals, Shapes(s.kids)) && Shape(s).kids[j] == Shape(s.kids[j])
    ensures Live(n.children[j], s.kids[j]) && Fit(Shape(s.kids[j]), h - 1, d)
    ensures Ascending(Contents(Shape(s.kids[j]))) && (s.kids[j].vals != [] ==> Contents(Shape(s.kids[j])) != [])
    ensures n in Bag(s) && (forall o :: o in Bag(s.kids[j]) ==> o in Bag(s))
  {
    Disassemble(n, s);
    assert n in multiset{n};
    hide Bag, Bags, Stands, Stand, Contents, Ascending, Once;
    Child(n, s, j);
    Between(Shape(s), j);
    if s.kids[j].vals != [] {
      Stocked(Shape(s).kids[j], h - 1, d);
    }
  }

  /** The value before it takes its place. */
  method DeleteByLast<T>(n: BTreeNode<T>, i: nat, d: nat, ghost s: Shadow<T>, ghost h: nat)
    returns (removed: bool, ghost s': Shadow<T>)
    requires Live(n, s) && Sound(Shape(s), h, d) && Ascending(Contents(Shape(s))) && h > 0
    requires i < |s.vals| && |s.kids[i].vals| > d - 1
    modifies Bag(s)
    ensures Live(n, s') && (forall o :: o in Bag(s') ==> o in Bag(s))
    ensures var t := Shape(s); var p := Last(Contents(t.kids[i]), t.vals[i]);
            (Shape(s'), removed) == DeleteBelow(Node(t.vals[i := p], t.kids), i, p.rank, h, d)
    decreases h, 1
  {
    ChildSound(n, s, i, h, d);
    hide Bag, Bags, Stands, Stand, Shape, Shapes, Heads, Contents, Ascending, DeleteBelow, Once, Sound, Fit, Live;
    Allocated(s);
    var pred := MaxBelow(n.children[i], d, s.kids[i], h - 1);
    ghost var u := Revalue(n, i, pred, s);
    removed, s' := DeleteBelowAt(n, i, pred.rank, d, u, h);
  }

  /** The value after it takes its place. */
  method DeleteByFirst<T>(n: BTreeNode<T>, i: nat, d: nat, ghost s: Shadow<T>, ghost h: nat)
    returns (removed: bool, ghost s': Shadow<T>)
    requires Live(n, s) && Sound(Shape(s), h, d) && Ascending(Contents(Shape(s))) && h > 0
    requires i < |s.vals| && |s.kids[i + 1].vals| > d - 1
    modifies Bag(s)
    ensures Live(n, s') && (forall o :: o in Bag(s') ==> o in Bag(s))
    ensures var t := Shape(s); var p := First(Contents(t.kids[i + 1]), t.vals[i]);
            (Shape(s'), removed) == DeleteBelow(Node(t.vals[i := p], t.kids), i + 1, p.rank, h, d)
    decreases h, 1
  {
    ChildSound(n, s, i + 1, h, d);
    hide Bag, Bags, Stands, Stand, Shape, Shapes, Heads, Contents, Ascending, DeleteBelow, Once, Sound, Fit, Live;
    Allocated(s);
    var succ := MinBelow(n.children[i + 1], d, s.kids[i + 1], h - 1);
    ghost var u := Revalue(n, i, succ, s);
    removed, s' := DeleteBelowAt(n, i + 1, succ.rank, d, u, h);
  }

  /** Neither neighbour can spare a value: they merge around it. */
  method DeleteByMerge<T>(n: BTreeNode<T>, i: nat, d: nat, ghost s: Shadow<T>, ghost h: nat)
    returns (removed: bool, ghost s': Shadow<T>)
    requires Live(n, s) && Sound(Shape(s), h, d) && Ascending(Contents(Shape(s))) && h > 0
    requires i < |s.vals| && |s.kids[i].vals| == |s.kids[i + 1].vals| == d - 1
    modifies Bag(s)
    ensures Live(n, s') && (forall o :: o in Bag(s') ==> o in Bag(s))
    ensures (Shape(s'), removed) == DeleteBelow(MergeKids(Shape(s), i), i, s.vals[i].rank, h, d)
    decreases h, 1
  {
    hide Bag, Bags, Stands, Stand, Shape, Shapes, Heads, Contents, Ascending, DeleteBelow, Once;
    ghost var t := Shape(s);
    Allocated(s);
    Sizes(n, s, h, d);
    var value := n.values[i];
    MergeKidsFit(t, i, h, d);
    MergeKidsContents(t, i, h, d);
    ghost var u := MergeChildren(n, i, s);
    Sizes(n, u, h, d);
    Between(Shape(u), i);
    assert |Shape(u).kids[i].vals| == 2 * d - 1;
    removed, s' := DeleteBelowAt(n, i, value.rank, d, u, h);
  }

  /** One separator of n overwritten. */
  method Revalue<T>(n: BTreeNode<T>, i: nat, v: Entry<T>, ghost s: Shadow<T>) returns (ghost s': Shadow<T>)
    requires Live(n, s) && i < |s.vals|
    modifies n
    ensures Live(n, s') && Bag(s') == Bag(s) && s' == Shadow(n, s.vals[i := v], s.kids)
    ensures Shape(s') == Node(s.vals[i := v], Shapes(s.kids))
  {
    Disassemble(n, s);
    hide Bag, Bags, Stands, Stand, Shape, Shapes, Heads, Once;
    s' := n.Put(n.values[i := v], n.children, s.kids);
  }

  method DeleteBelowAt<T>(n: BTreeNode<T>, i: nat, r: real, d: nat, ghost s: Shadow<T>, ghost h: nat)
    returns (removed: bool, ghost s': Shadow<T>)
    requires Live(n, s) && d >= 2 && h > 0 && i < |s.kids|
    requires Fit(Shape(s.kids[i]), h - 1, d) && |s.kids[i].vals| >= d && Ascending(Contents(Shape(s.kids[i])))
    modifies Bag(s.kids[i])
    ensures Live(n, s') && (forall o :: o in Bag(s') ==> o in Bag(s))
    ensures Shape(s') == DeleteBelow(Shape(s), i, r, h, d).0 && removed == DeleteBelow(Shape(s), i, r, h, d).1
    decreases h, 0
  {
    hide Bag, Bags, Stands, Stand, Shape, Shapes, Heads, Delete, Fit, Once;
    Child(n, s, i);
    Parts(s, i, i + 1);
    StandParts(s, i, i + 1);
    Disassemble(n, s);
    Disassemble(n.children[i], s.kids[i]);
    Allocated(s);
    AllAllocated(s.kids[..i]);
    AllAllocated(s.kids[i + 1..]);
    ghost var k;
    removed, k := DeleteFrom(n.children[i], r, d, s.kids[i], h - 1);
    s' := Adopt(n, s, i, k);
  }

  // ---------------------------------------------------------------- the tree

  /** The values at and below n, in order. */
  method Walk<T>(n: BTreeNode<T>, ghost d: nat, ghost s: Shadow<T>, ghost h: nat) returns (values: seq<Entry<T>>)
    requires Live(n, s) && Fit(Shape(s), h, d)
    ensures values == Contents(Shape(s))
    decreases h
  {
    hide Bag, Bags, Stands, Stand, Shape, Shapes, Heads, Once, Contents, Left, Right;
    ghost var t := Shape(s);
    Sizes(n, s, h, d);
    if n.children == [] {
      LeafContents(t);
      return n.values;
    }
    values := [];
    LeftOfNothing<T>();
    Allocated(s);
    var i := 0;
    while i < |n.values|
      invariant 0 <= i <= |n.values|
      invariant Live(n, s)
      invariant values == Left(t.vals[..i], t.kids[..i])
    {
      Child(n, s, i);
      var below := Walk(n.children[i], d, s.kids[i], h - 1);
      LeftCloses(t.vals[..i], t.vals[i], t.kids[..i], t.kids[i]);
      assert t.vals[..i + 1] == t.vals[..i] + [t.vals[i]] && t.kids[..i + 1] == t.kids[..i] + [t.kids[i]];
      values := values + below + [n.values[i]];
      i := i + 1;
    }
    Child(n, s, i);
    var last := Walk(n.children[i], d, s.kids[i], h - 1);
    Focus(t, i);
    assert t.vals[i..] == [] && t.kids[i + 1..] == [];
    values := values + last;
  }

  class BTree<T> {
    var root: BTreeNode<T>
    const degree: nat
    var length: nat
    ghost var shadow: Shadow<T>
    ghost var height: nat

    ghost predicate Valid()
      reads this, Bag(shadow)
    {
      && this !in Bag(shadow) && Live(root, shadow)
      && degree >= 2 && Fit(Shape(shadow), height, degree)
      && Ascending(Stored()) && length == |Stored()|
    }

    /** The stored values, in order: the sorted set the tree is. */
    ghost function Stored(): seq<Entry<T>>
      reads this
    {
      Contents(Shape(shadow))
    }

    /** No deletion has left the root without a separator. */
    ghost predicate InShape()
      reads this
    {
      Rooted(Shape(shadow), height, degree)
    }

    constructor (degree: nat)
      ensures Valid() && InShape() && Stored() == [] && this.degree == (if degree < 2 then 2 else degree)
      ensures fresh(this) && fresh(root) && Bag(shadow) == multiset{root}
    {
      this.degree := if degree < 2 then 2 else degree;
      var node := new BTreeNode<T>([], []);
      root := node;
      length := 0;
      shadow := Shadow(node, [], []);
      height := 0;
    }

    /** The stored value of rank r, if there is one. */
    method Find(r: real) returns (found: bool, v: Option<Entry<T>>)
      requires Valid()
      ensures found == Holds(Stored(), r) && v.Some? == found
      ensures found ==> v.value in Stored() && v.value.rank == r
    {
      hide Bag, Bags, Stands, Stand, Shape, Shapes, Heads, Once, Contents, Left, Right, Ascending, Holds;
      var n := root;
      ghost var s, h := shadow, height;
      Allocated(shadow);
      while true
        invariant forall o :: o in Bag(s) ==> o in Bag(shadow)
        invariant Live(n, s) && Fit(Shape(s), h, degree) && Ascending(Contents(Shape(s)))
        invariant Holds(Contents(Shape(s)), r) == Holds(Stored(), r)
        invariant forall x :: x in Contents(Shape(s)) ==> x in Stored()
        decreases h
      {
        ghost var t := Shape(s);
        Sizes(n, s, h, degree);
        ValsAscend(t, h, degree);
        var i, hit := FindIndex(n.values, r);
        if hit {
          ValIn(t, h, degree, i);
          Stores(Contents(t), t.vals[i]);
          return true, Some(n.values[i]);
        }
        if n.children == [] {
          HitIffHolds(t.vals, r);
          LeafContents(t);
          return false, None;
        }
        FindBelow(t, i, r);
        Child(n, s, i);
        s, h := s.kids[i], h - 1;
        n := n.children[i];
      }
    }

    /** Adds e, unless its rank is taken. */
    method Insert(e: Entry<T>) returns (added: bool)
      requires Valid()
      modifies this, Bag(shadow)
      ensures Valid() && (forall o :: o in Bag(shadow) ==> o in old(Bag(shadow)) || fresh(o))
      ensures Stored() == Add(old(Stored()), e)
      ensures added == !Holds(old(Stored()), e.rank)
      ensures old(InShape()) ==> InShape()
    {
      hide Bag, Stands, Shape, Once, Contents, Ascending, Holds, Add, Fit, InsertRoot;
      InsertRootMeans(Shape(shadow), e, height, degree);
      Allocated(shadow);
      added, root, shadow, height := InsertAtRoot(root, e, degree, shadow, height);
      if added {
        length := length + 1;
      }
    }

    /** Removes the value of rank r. A root left with one minimal child by earlier
        failed deletions makes fill index the child before the first, which stops
        the program: nothing is changed then. */
    method Delete(r: real) returns (x: Removal)
      requires Valid()
      modifies this, Bag(shadow)
      ensures Valid() && (forall o :: o in Bag(shadow) ==> o in old(Bag(shadow)))
      ensures x == Panicked <==> old(Stuck(Shape(shadow), height, degree))
      ensures x == Panicked ==> Stored() == old(Stored())
      ensures x != Panicked ==> Stored() == Del(old(Stored()), r) && (x == Removed <==> Holds(old(Stored()), r))
      ensures x == Removed ==> InShape()
      ensures x == Absent && old(InShape()) ==> (InShape() <==> !old(Hollows(Shape(shadow), height, degree)))
    {
      hide Bag, Stands, Shape, Once, Contents, Ascending, Holds, Del, Fit, Rooted, DeleteRoot;
      DeleteRootMeans(Shape(shadow), r, height, degree);
      x, root, shadow, height := DeleteAtRoot(root, r, degree, shadow, height);
      if x == Removed {
        length := length - 1;
      }
    }

    /** Every stored value in ascending order. */
    method Values() returns (values: seq<Entry<T>>)
      requires Valid()
      ensures values == Stored()
    {
      values := Walk(root, degree, shadow, height);
    }
  }

  lemma Capped<T>(t: Tree<T>, h: nat, d: nat)
    requires Fit(t, h, d)
    ensures |t.vals| <= 2 * d - 1
  {
  }

  lemma Stores<T>(s: seq<Entry<T>>, e: Entry<T>)
    requires e in s
    ensures Holds(s, e.rank)
  {
  }

  lemma AddLength<T>(s: seq<Entry<T>>, e: Entry<T>)
    requires Ascending(s)
    ensures |Add(s, e)| == if Holds(s, e.rank) then |s| else |s| + 1
  {
    HitIffHolds(s, e.rank);
  }

  /** A rank is stored in a node if and only if it is in the child it leads to. */
  lemma FindBelow<T>(t: Tree<T>, i: nat, r: real)
    requires Leads(t, i, r) && Ascending(Contents(t))
    ensures Ascending(Contents(t.kids[i])) && (Holds(Contents(t), r) <==> Holds(Contents(t.kids[i]), r))
    ensures forall x :: x in Contents(t.kids[i]) ==> x in Contents(t)
  {
    hide Contents, Left, Right;
    Descend(t, i, r);
    Focus(t, i);
    HoldsWithin(Left(t.vals[..i], t.kids[..i]), Contents(t.kids[i]), Right(t.vals[i..], t.kids[i + 1..]), r);
  }

  /** Deletion at the root. A root with no separator over one minimal child stops it. */
  method DeleteAtRoot<T>(n: BTreeNode<T>, r: real, d: nat, ghost s: Shadow<T>, ghost h: nat)
    returns (x: Removal, root: BTreeNode<T>, ghost s': Shadow<T>, ghost h': nat)
    requires Live(n, s) && d >= 2 && Fit(Shape(s), h, d) && Ascending(Contents(Shape(s)))
    modifies Bag(s)
    ensures Live(root, s') && (forall o :: o in Bag(s') ==> o in Bag(s))
    ensures (Shape(s'), x, h') == DeleteRoot(Shape(s), r, h, d)
  {
    hide Bag, Bags, Stands, Stand, Shape, Shapes, Heads, Once, Contents, Ascending, BTreeDelete.Delete;
    ghost var t := Shape(s);
    Sizes(n, s, h, d);
    root, s', h' := n, s, h;
    if n.children != [] && n.values == [] && |n.children[0].values| == d - 1 {
      return Panicked, root, s', h';
    }
    DeleteFits(t, r, h, d);
    var removed;
    removed, s' := DeleteFrom(n, r, d, s, h);
    if !removed {
      return Absent, root, s', h';
    }
    Sizes(n, s', h, d);
    if n.values == [] && n.children != [] {
      Child(n, s', 0);
      root := n.children[0];
      s', h' := s'.kids[0], h - 1;
    }
    return Removed, root, s', h';
  }

  /** Inserting at the root keeps the tree in shape and the stored values a sorted set. */
  lemma InsertRootMeans<T>(t: Tree<T>, e: Entry<T>, h: nat, d: nat)
    requires d >= 2 && Fit(t, h, d) && Ascending(Contents(t))
    ensures var x := InsertRoot(t, e, h, d);
            && Fit(x.0, x.2, d) && (Rooted(t, h, d) ==> Rooted(x.0, x.2, d))
            && Contents(x.0) == Add(Contents(t), e) && x.1 == !Holds(Contents(t), e.rank)
            && Ascending(Contents(x.0)) && |Contents(x.0)| == |Contents(t)| + if x.1 then 1 else 0
  {
    hide Fit, Contents, Ascending, Add, Holds;
    InsertRootFits(t, e, h, d);
    InsertRootAdds(t, e, h, d);
    AddToSet(Contents(t), e);
    AddLength(Contents(t), e);
    if Rooted(t, h, d) && t.vals == [] {
      EmptyLeafGrows(t, e, d);
    }
  }

  lemma EmptyLeafGrows<T>(t: Tree<T>, e: Entry<T>, d: nat)
    requires d >= 2 && Fit(t, 0, d) && t.vals == []
    ensures InsertRoot(t, e, 0, d).2 == 0
  {
  }

  /** Insertion at the root, which is split first when it is full. */
  method InsertAtRoot<T>(n: BTreeNode<T>, e: Entry<T>, d: nat, ghost s: Shadow<T>, ghost h: nat)
    returns (added: bool, root: BTreeNode<T>, ghost s': Shadow<T>, ghost h': nat)
    requires Live(n, s) && d >= 2 && Fit(Shape(s), h, d) && Ascending(Contents(Shape(s)))
    modifies Bag(s)
    ensures Live(root, s') && (forall o :: o in Bag(s') ==> o in Bag(s) || fresh(o))
    ensures (Shape(s'), added, h') == InsertRoot(Shape(s), e, h, d)
  {
    hide Bag, Bags, Stands, Stand, Shape, Shapes, Heads, Once, Contents, Ascending, Fit, BTreeOps.Insert, SplitChild;
    ghost var t := Shape(s);
    Capped(t, h, d);
    Disassemble(n, s);
    Allocated(s);
    root, s', h' := n, s, h;
    if |n.values| == 2 * d - 1 {
      RaisedRoot(t, h, d);
      RaisedContents(t, h, d);
      root, s' := Raise(n, d, s, h);
      h' := h + 1;
    } else {
      RoomAtRoot(t, h, d);
    }
    added, s' := InsertNonFull(root, e, d, s', h');
  }

  lemma RoomAtRoot<T>(t: Tree<T>, h: nat, d: nat)
    requires d >= 2 && Fit(t, h, d) && |t.vals| != 2 * d - 1
    ensures Room(t, h, d)
  {
  }

  /** A full root under a new one, split. */
  method Raise<T>(n: BTreeNode<T>, d: nat, ghost s: Shadow<T>, ghost h: nat)
    returns (root: BTreeNode<T>, ghost s': Shadow<T>)
    requires Live(n, s) && d >= 2 && Fit(Shape(s), h, d) && |s.vals| == 2 * d - 1
    modifies n
    ensures Live(root, s') && (forall o :: o in Bag(s') ==> o in Bag(s) || fresh(o))
    ensures Shape(s') == SplitChild(Node([], [Shape(s)]), 0, d)
  {
    hide Bag, Bags, Stands, Stand, Shape, Shapes, Heads, Once, SplitChild;
    Sizes(n, s, h, d);
    Disassemble(n, s);
    Allocated(s);
    root := new BTreeNode([], [n]);
    One(s);
    Assemble(root, [], [s]);
    s' := SplitChildAt(root, 0, d, Shadow(root, [], [s]));
  }
}
