/** The B-tree as a value: what a node and everything below it stores, the shape
    rules every node obeys, and the restructurings the tree is built from. The
    heap nodes of module BTrees carry one of these values each. */
module BTreeShape {

  /** A stored value as the comparator sees it. Every order on a countable type is
      the order of some real-valued rank, so an arbitrary comparator is a rank. */
  datatype Entry<T> = Entry(rank: real, item: T)

  datatype Tree<T> = Node(vals: seq<Entry<T>>, kids: seq<Tree<T>>)

  // ---------------------------------------------------------------- sorted sets

  ghost predicate Ascending<T>(s: seq<Entry<T>>) {
    forall i, j :: 0 <= i < j < |s| ==> s[i].rank < s[j].rank
  }

  ghost predicate Below<T>(s: seq<Entry<T>>, r: real) {
    forall i :: 0 <= i < |s| ==> s[i].rank < r
  }

  ghost predicate Above<T>(s: seq<Entry<T>>, r: real) {
    forall i :: 0 <= i < |s| ==> r < s[i].rank
  }

  ghost predicate Holds<T>(s: seq<Entry<T>>, r: real) {
    exists i :: 0 <= i < |s| && s[i].rank == r
  }

  /** Slot i is the first whose value ranks at least r. */
  ghost predicate IsSlot<T>(s: seq<Entry<T>>, r: real, i: int) {
    0 <= i <= |s| && (forall k :: 0 <= k < i ==> s[k].rank < r) && (i < |s| ==> r <= s[i].rank)
  }

  function Slot<T>(s: seq<Entry<T>>, r: real): (i: nat)
    ensures IsSlot(s, r, i)
  {
    if s == [] || r <= s[0].rank then 0 else 1 + Slot(s[1..], r)
  }

  predicate Hit<T>(s: seq<Entry<T>>, r: real, i: nat) {
    i < |s| && s[i].rank == r
  }

  /** A strictly sorted list with e added; unchanged when its rank is taken. */
  ghost function Add<T>(s: seq<Entry<T>>, e: Entry<T>): seq<Entry<T>> {
    var i := Slot(s, e.rank);
    if Hit(s, e.rank, i) then s else s[..i] + [e] + s[i..]
  }

  /** A strictly sorted list without the value ranked r. */
  ghost function Del<T>(s: seq<Entry<T>>, r: real): seq<Entry<T>> {
    var i := Slot(s, r);
    if Hit(s, r, i) then s[..i] + s[i + 1..] else s
  }

  lemma SlotIsUnique<T>(s: seq<Entry<T>>, r: real, i: int, j: int)
    requires IsSlot(s, r, i) && IsSlot(s, r, j)
    ensures i == j
  {
  }

  lemma HitIffHolds<T>(s: seq<Entry<T>>, r: real)
    requires Ascending(s)
    ensures Holds(s, r) <==> Hit(s, r, Slot(s, r))
  {
  }

  /** Where a rank sits in a list, given the part of the list it falls in. */
  lemma SlotWithin<T>(x: seq<Entry<T>>, s: seq<Entry<T>>, y: seq<Entry<T>>, r: real)
    requires Below(x, r) && Above(y, r)
    ensures Slot(x + s + y, r) == |x| + Slot(s, r)
  {
    hide Slot;
    var w := x + s + y;
    var i := |x| + Slot(s, r);
    assert IsSlot(w, r, i);
    SlotIsUnique(w, r, Slot(w, r), i);
  }

  lemma DelAt<T>(a: seq<Entry<T>>, e: Entry<T>, b: seq<Entry<T>>)
    requires Below(a, e.rank)
    ensures Del(a + [e] + b, e.rank) == a + b
  {
    SlotIsUnique(a + [e] + b, e.rank, Slot(a + [e] + b, e.rank), |a|);
  }

  lemma AddWithin<T>(x: seq<Entry<T>>, s: seq<Entry<T>>, y: seq<Entry<T>>, e: Entry<T>)
    requires Below(x, e.rank) && Above(y, e.rank)
    ensures Add(x + s + y, e) == x + Add(s, e) + y
  {
    hide Slot;
    SlotWithin(x, s, y, e.rank);
    var i := Slot(s, e.rank);
    var w := x + s + y;
    if Hit(s, e.rank, i) {
      assert w[|x| + i] == s[i];
    } else {
      assert w[..|x| + i] == x + s[..i];
      assert w[|x| + i..] == s[i..] + y;
      assert w[..|x| + i] + [e] + w[|x| + i..] == x + (s[..i] + [e] + s[i..]) + y;
    }
  }

  lemma Regroup<A>(x: seq<A>, a: seq<A>, v: seq<A>, b: seq<A>, y: seq<A>)
    ensures x + (a + v + b) + y == (x + a) + v + (b + y)
  {
  }

  lemma DelMiss<T>(s: seq<Entry<T>>, r: real)
    requires !Hit(s, r, Slot(s, r))
    ensures Del(s, r) == s
  {
  }

  lemma BelowJoin<T>(a: seq<Entry<T>>, b: seq<Entry<T>>, r: real)
    requires Below(a, r) && Below(b, r)
    ensures Below(a + b, r)
  {
  }

  lemma DelInside<T>(x: seq<Entry<T>>, a: seq<Entry<T>>, v: Entry<T>, b: seq<Entry<T>>, y: seq<Entry<T>>)
    requires Below(x, v.rank) && Below(a, v.rank)
    ensures Del(x + (a + [v] + b) + y, v.rank) == x + Del(a + [v] + b, v.rank) + y
  {
    hide Del, Below;
    DelAt(a, v, b);
    BelowJoin(x, a, v.rank);
    DelAt(x + a, v, b + y);
    Regroup(x, a, [v], b, y);
    Regroup(x, a, [], b, y);
    assert a + [] + b == a + b;
    assert x + a + [] + (b + y) == x + a + (b + y);
  }

  lemma DelWithin<T>(x: seq<Entry<T>>, s: seq<Entry<T>>, y: seq<Entry<T>>, r: real)
    requires Below(x, r) && Above(y, r)
    ensures Del(x + s + y, r) == x + Del(s, r) + y
  {
    hide Slot, Del;
    SlotWithin(x, s, y, r);
    var i := Slot(s, r);
    if Hit(s, r, i) {
      assert s == s[..i] + [s[i]] + s[i + 1..];
      DelInside(x, s[..i], s[i], s[i + 1..], y);
    } else {
      DelMiss(s, r);
      DelMiss(x + s + y, r);
    }
  }

  lemma HoldsWithin<T>(x: seq<Entry<T>>, s: seq<Entry<T>>, y: seq<Entry<T>>, r: real)
    requires Below(x, r) && Above(y, r)
    ensures Holds(x + s + y, r) <==> Holds(s, r)
  {
    var w := x + s + y;
    if Holds(w, r) {
      var i :| 0 <= i < |w| && w[i].rank == r;
      assert |x| <= i < |x| + |s| && s[i - |x|].rank == r;
    }
    if Holds(s, r) {
      var i :| 0 <= i < |s| && s[i].rank == r;
      assert w[|x| + i] == s[i];
    }
  }

  /** Add is the insertion of a sorted set: a taken rank changes nothing, a new
      one adds exactly its value. */
  lemma AddToSet<T>(s: seq<Entry<T>>, e: Entry<T>)
    requires Ascending(s)
    ensures Ascending(Add(s, e))
    ensures Holds(s, e.rank) ==> Add(s, e) == s
    ensures !Holds(s, e.rank) ==> multiset(Add(s, e)) == multiset(s) + multiset{e}
  {
    hide Slot, Ascending, Holds;
    var i := Slot(s, e.rank);
    HitIffHolds(s, e.rank);
    if !Hit(s, e.rank, i) {
      PutIn(s, e, i);
    }
  }

  lemma PutIn<T>(s: seq<Entry<T>>, e: Entry<T>, i: nat)
    requires Ascending(s) && IsSlot(s, e.rank, i) && !Hit(s, e.rank, i)
    ensures Ascending(s[..i] + [e] + s[i..]) && multiset(s[..i] + [e] + s[i..]) == multiset(s) + multiset{e}
  {
    assert s == s[..i] + s[i..];
  }

  /** Del is the removal of a sorted set: it takes out exactly the value ranked r. */
  lemma DelFromSet<T>(s: seq<Entry<T>>, r: real)
    requires Ascending(s)
    ensures Ascending(Del(s, r))
    ensures !Holds(s, r) ==> Del(s, r) == s
    ensures Holds(s, r) ==> |Del(s, r)| == |s| - 1
    ensures forall x :: x in Del(s, r) <==> x in s && x.rank != r
  {
    HitIffHolds(s, r);
    hide Slot;
    if Hit(s, r, Slot(s, r)) { CutOut(s, Slot(s, r)); }
  }

  lemma CutOut<T>(s: seq<Entry<T>>, i: nat)
    requires Ascending(s) && i < |s|
    ensures Ascending(s[..i] + s[i + 1..])
    ensures forall x :: x in s[..i] + s[i + 1..] <==> x in s && x.rank != s[i].rank
  {
    var u := s[..i] + s[i + 1..];
    assert forall k :: 0 <= k < |u| ==> u[k] == s[if k < i then k else k + 1];
    forall x ensures x in u <==> x in s && x.rank != s[i].rank {
      if x in s && x.rank != s[i].rank {
        var k :| 0 <= k < |s| && s[k] == x;
        assert x == u[if k < i then k else k - 1];
      }
    }
  }

  // ---------------------------------------------------------------- contents

  /** The lists cs with the separators vs between them. */
  ghost function Weave<T>(vs: seq<Entry<T>>, cs: seq<seq<Entry<T>>>): seq<Entry<T>>
    requires |cs| == |vs| + 1
  {
    if vs == [] then cs[0] else cs[0] + [vs[0]] + Weave(vs[1..], cs[1..])
  }

  /** Every value stored at or below a node, left to right. */
  ghost function Contents<T>(t: Tree<T>): seq<Entry<T>>
    decreases t, 1
  {
    if |t.kids| == |t.vals| + 1 then Weave(t.vals, Each(t.kids)) else t.vals
  }

  ghost function Each<T>(kids: seq<Tree<T>>): (cs: seq<seq<Entry<T>>>)
    ensures |cs| == |kids|
    ensures forall i :: 0 <= i < |kids| ==> cs[i] == Contents(kids[i])
    decreases kids, 0
  {
    seq(|kids|, i requires 0 <= i < |kids| => Contents(kids[i]))
  }

  lemma {:induction false} WeaveSplit<T>(va: seq<Entry<T>>, ca: seq<seq<Entry<T>>>, v: Entry<T>, vb: seq<Entry<T>>,
      cb: seq<seq<Entry<T>>>)
    requires |ca| == |va| + 1 && |cb| == |vb| + 1
    ensures Weave(va + [v] + vb, ca + cb) == Weave(va, ca) + [v] + Weave(vb, cb)
  {
    var vs, cs := va + [v] + vb, ca + cb;
    if va == [] {
      assert vs[1..] == vb && cs[1..] == cb;
    } else {
      WeaveSplit(va[1..], ca[1..], v, vb, cb);
      assert vs[1..] == va[1..] + [v] + vb && cs[1..] == ca[1..] + cb;
      assert Weave(vs, cs) == cs[0] + [vs[0]] + Weave(va[1..] + [v] + vb, ca[1..] + cb);
    }
  }

  /** The lists cs, each followed by its separator. */
  ghost function Lefts<T>(vs: seq<Entry<T>>, cs: seq<seq<Entry<T>>>): seq<Entry<T>>
    requires |cs| == |vs|
  {
    if vs == [] then [] else cs[0] + [vs[0]] + Lefts(vs[1..], cs[1..])
  }

  /** The lists cs, each preceded by its separator. */
  ghost function Rights<T>(vs: seq<Entry<T>>, cs: seq<seq<Entry<T>>>): seq<Entry<T>>
    requires |cs| == |vs|
  {
    if vs == [] then [] else [vs[0]] + cs[0] + Rights(vs[1..], cs[1..])
  }

  lemma {:induction false} WeaveFrom<T>(c: seq<Entry<T>>, vr: seq<Entry<T>>, cr: seq<seq<Entry<T>>>)
    requires |cr| == |vr|
    ensures Weave(vr, [c] + cr) == c + Rights(vr, cr)
    decreases vr
  {
    if vr != [] {
      WeaveFrom(cr[0], vr[1..], cr[1..]);
      assert ([c] + cr)[1..] == [cr[0]] + cr[1..];
    }
  }

  lemma {:induction false} WeaveAround<T>(vl: seq<Entry<T>>, cl: seq<seq<Entry<T>>>, c: seq<Entry<T>>,
      vr: seq<Entry<T>>, cr: seq<seq<Entry<T>>>)
    requires |cl| == |vl| && |cr| == |vr|
    ensures Weave(vl + vr, cl + [c] + cr) == Lefts(vl, cl) + c + Rights(vr, cr)
  {
    var vs, cs := vl + vr, cl + [c] + cr;
    if vl == [] {
      assert vs == vr && cs == [c] + cr;
      WeaveFrom(c, vr, cr);
    } else {
      WeaveAround(vl[1..], cl[1..], c, vr, cr);
      assert vs[1..] == vl[1..] + vr && cs[1..] == cl[1..] + [c] + cr;
    }
  }

  // ---------------------------------------------------------------- shape

  /** A node at height h of a tree of minimum degree d: no overfull node, every
      leaf at height 0, one more child than separators, no underfull child. */
  ghost predicate Fit<T>(t: Tree<T>, h: nat, d: nat) {
    && |t.vals| <= 2 * d - 1
    && (h == 0 ==> t.kids == [])
    && (h > 0 ==> |t.kids| == |t.vals| + 1)
    && forall i :: 0 <= i < |t.kids| ==> h > 0 && Fit(t.kids[i], h - 1, d) && d - 1 <= |t.kids[i].vals|
  }

  /** What lies left of the child that follows the separators vs. */
  ghost function Left<T>(vs: seq<Entry<T>>, ks: seq<Tree<T>>): seq<Entry<T>>
    requires |vs| == |ks|
  {
    Lefts(vs, Each(ks))
  }

  /** What lies right of the child that precedes the separators vs. */
  ghost function Right<T>(vs: seq<Entry<T>>, ks: seq<Tree<T>>): seq<Entry<T>>
    requires |vs| == |ks|
  {
    Rights(vs, Each(ks))
  }

  /** The contents of a node assembled around one of its children. */
  lemma Around<T>(vl: seq<Entry<T>>, kl: seq<Tree<T>>, k: Tree<T>, vr: seq<Entry<T>>, kr: seq<Tree<T>>)
    requires |kl| == |vl| && |kr| == |vr|
    ensures Contents(Node(vl + vr, kl + [k] + kr)) == Left(vl, kl) + Contents(k) + Right(vr, kr)
  {
    assert Each(kl + [k] + kr) == Each(kl) + [Contents(k)] + Each(kr);
    WeaveAround(vl, Each(kl), Contents(k), vr, Each(kr));
  }

  /** A node's contents around its child i. */
  lemma Focus<T>(t: Tree<T>, i: nat)
    requires |t.kids| == |t.vals| + 1 && i < |t.kids|
    ensures Contents(t) == Left(t.vals[..i], t.kids[..i]) + Contents(t.kids[i]) + Right(t.vals[i..], t.kids[i + 1..])
  {
    hide Contents, Left, Right;
    assert t == Node(t.vals[..i] + t.vals[i..], t.kids[..i] + [t.kids[i]] + t.kids[i + 1..]);
    Around(t.vals[..i], t.kids[..i], t.kids[i], t.vals[i..], t.kids[i + 1..]);
  }

  /** What follows a separator starts with the child after it. */
  lemma RightOpens<T>(v: Entry<T>, vr: seq<Entry<T>>, k: Tree<T>, kr: seq<Tree<T>>)
    requires |vr| == |kr|
    ensures Right([v] + vr, [k] + kr) == [v] + Contents(k) + Right(vr, kr)
  {
    hide Contents;
    assert Each([k] + kr)[1..] == Each(kr);
    assert ([v] + vr)[1..] == vr;
  }

  lemma {:induction false} LeftCloses<T>(vl: seq<Entry<T>>, v: Entry<T>, kl: seq<Tree<T>>, k: Tree<T>)
    requires |vl| == |kl|
    ensures Left(vl + [v], kl + [k]) == Left(vl, kl) + Contents(k) + [v]
  {
    hide Contents;
    assert Each(kl + [k]) == Each(kl) + [Contents(k)];
    LeftsClose(vl, v, Each(kl), Contents(k));
  }

  lemma {:induction false} LeftsClose<T>(vl: seq<Entry<T>>, v: Entry<T>, cl: seq<seq<Entry<T>>>, c: seq<Entry<T>>)
    requires |vl| == |cl|
    ensures Lefts(vl + [v], cl + [c]) == Lefts(vl, cl) + c + [v]
  {
    if vl != [] {
      LeftsClose(vl[1..], v, cl[1..], c);
      assert (vl + [v])[1..] == vl[1..] + [v] && (cl + [c])[1..] == cl[1..] + [c];
    }
  }

  lemma LeftEnds<T>(vs: seq<Entry<T>>, ks: seq<Tree<T>>)
    requires |vs| == |ks| > 0
    ensures var x := Left(vs, ks); x != [] && x[|x| - 1] == vs[|vs| - 1]
  {
    hide Contents;
    var n := |vs| - 1;
    assert vs == vs[..n] + [vs[n]] && ks == ks[..n] + [ks[n]];
    LeftCloses(vs[..n], vs[n], ks[..n], ks[n]);
  }

  lemma RightStarts<T>(vs: seq<Entry<T>>, ks: seq<Tree<T>>)
    requires |vs| == |ks| > 0
    ensures var y := Right(vs, ks); y != [] && y[0] == vs[0]
  {
    hide Contents;
  }

  lemma {:induction false} LeftsHold<T>(vs: seq<Entry<T>>, cs: seq<seq<Entry<T>>>, i: nat)
    requires |vs| == |cs| && i < |vs|
    ensures vs[i] in Lefts(vs, cs)
  {
    if i > 0 { LeftsHold(vs[1..], cs[1..], i - 1); }
  }

  /** A node's contents around its children i and i + 1. */
  lemma FocusPair<T>(t: Tree<T>, i: nat)
    requires |t.kids| == |t.vals| + 1 && i < |t.vals|
    ensures Contents(t) == Left(t.vals[..i], t.kids[..i])
                         + (Contents(t.kids[i]) + [t.vals[i]] + Contents(t.kids[i + 1]))
                         + Right(t.vals[i + 1..], t.kids[i + 2..])
  {
    hide Contents, Left, Right;
    Focus(t, i);
    RightOpens(t.vals[i], t.vals[i + 1..], t.kids[i + 1], t.kids[i + 2..]);
    assert t.vals[i..] == [t.vals[i]] + t.vals[i + 1..];
    assert t.kids[i + 1..] == [t.kids[i + 1]] + t.kids[i + 2..];
  }

  ghost function Merge<T>(a: Tree<T>, v: Entry<T>, b: Tree<T>): Tree<T> {
    Node(a.vals + [v] + b.vals, a.kids + b.kids)
  }

  /** Two leaves, or two inner nodes with a child more than separators. */
  ghost predicate Joinable<T>(a: Tree<T>, b: Tree<T>) {
    (a.kids == [] && b.kids == []) || (|a.kids| == |a.vals| + 1 && |b.kids| == |b.vals| + 1)
  }

  /** Two siblings joined by their separator hold what the three held. */
  lemma MergeContents<T>(a: Tree<T>, v: Entry<T>, b: Tree<T>)
    requires Joinable(a, b)
    ensures Contents(Merge(a, v, b)) == Contents(a) + [v] + Contents(b)
  {
    var m := Merge(a, v, b);
    if a.kids != [] {
      assert Each(m.kids) == Each(a.kids) + Each(b.kids);
      WeaveSplit(a.vals, Each(a.kids), v, b.vals, Each(b.kids));
    }
  }

  lemma FitMerge<T>(a: Tree<T>, v: Entry<T>, b: Tree<T>, h: nat, d: nat)
    requires Fit(a, h, d) && Fit(b, h, d) && |a.vals| + |b.vals| + 1 <= 2 * d - 1
    ensures Fit(Merge(a, v, b), h, d)
  {
    var m := Merge(a, v, b);
    forall i | 0 <= i < |m.kids| ensures h > 0 && Fit(m.kids[i], h - 1, d) && d - 1 <= |m.kids[i].vals| {
      if i < |a.kids| { assert m.kids[i] == a.kids[i]; } else { assert m.kids[i] == b.kids[i - |a.kids|]; }
    }
  }
}
