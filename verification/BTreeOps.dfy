/** Insertion and deletion on the B-tree value, step by step as the heap code takes
    them, with what each step keeps: the contents, the shape, the side of every
    separator a rank falls on. */
module BTreeOps {
  import opened BTreeShape

  // ---------------------------------------------------------------- restructuring

  ghost function Low<T>(c: Tree<T>, d: nat): Tree<T>
    requires 1 <= d <= |c.vals|
  {
    Node(c.vals[..d - 1], if |c.kids| < d then [] else c.kids[..d])
  }

  ghost function High<T>(c: Tree<T>, d: nat): Tree<T>
    requires 1 <= d <= |c.vals|
  {
    Node(c.vals[d..], if |c.kids| < d then [] else c.kids[d..])
  }

  /** The node t with its full child i cut at the median, which moves up. */
  ghost function SplitChild<T>(t: Tree<T>, i: nat, d: nat): Tree<T>
    requires |t.kids| == |t.vals| + 1 && i < |t.kids| && 1 <= d <= |t.kids[i].vals|
  {
    var c := t.kids[i];
    Node(t.vals[..i] + [c.vals[d - 1]] + t.vals[i..], t.kids[..i] + [Low(c, d), High(c, d)] + t.kids[i + 1..])
  }

  /** The node t with children i and i + 1 replaced by a and b around v. */
  ghost function PutPair<T>(t: Tree<T>, i: nat, a: Tree<T>, v: Entry<T>, b: Tree<T>): Tree<T>
    requires |t.kids| == |t.vals| + 1 && i < |t.vals|
  {
    Node(t.vals[i := v], t.kids[i := a][i + 1 := b])
  }

  /** The node t with children i and i + 1 joined. */
  ghost function MergeKids<T>(t: Tree<T>, i: nat): Tree<T>
    requires |t.kids| == |t.vals| + 1 && i < |t.vals|
  {
    Node(t.vals[..i] + t.vals[i + 1..], t.kids[..i] + [Merge(t.kids[i], t.vals[i], t.kids[i + 1])] + t.kids[i + 2..])
  }

  /** Two siblings and their separator. */
  datatype Pair<T> = Pair(a: Tree<T>, v: Entry<T>, b: Tree<T>)

  /** The last value of a moves up, the separator moves down into b. */
  ghost function ShiftRight<T>(a: Tree<T>, v: Entry<T>, b: Tree<T>): Pair<T>
    requires a.vals != []
  {
    var (m, k) := (|a.vals| - 1, |a.kids| - 1);
    if a.kids == [] then Pair(Node(a.vals[..m], []), a.vals[m], Node([v] + b.vals, b.kids))
    else Pair(Node(a.vals[..m], a.kids[..k]), a.vals[m], Node([v] + b.vals, [a.kids[k]] + b.kids))
  }

  /** The first value of b moves up, the separator moves down into a. */
  ghost function ShiftLeft<T>(a: Tree<T>, v: Entry<T>, b: Tree<T>): Pair<T>
    requires b.vals != []
  {
    if b.kids == [] then Pair(Node(a.vals + [v], a.kids), b.vals[0], Node(b.vals[1..], []))
    else Pair(Node(a.vals + [v], a.kids + [b.kids[0]]), b.vals[0], Node(b.vals[1..], b.kids[1..]))
  }

  ghost function BorrowLeft<T>(t: Tree<T>, i: nat): Tree<T>
    requires |t.kids| == |t.vals| + 1 && 0 < i < |t.kids| && t.kids[i - 1].vals != []
  {
    var p := ShiftRight(t.kids[i - 1], t.vals[i - 1], t.kids[i]);
    PutPair(t, i - 1, p.a, p.v, p.b)
  }

  ghost function BorrowRight<T>(t: Tree<T>, i: nat): Tree<T>
    requires |t.kids| == |t.vals| + 1 && i + 1 < |t.kids| && t.kids[i + 1].vals != []
  {
    var p := ShiftLeft(t.kids[i], t.vals[i], t.kids[i + 1]);
    PutPair(t, i, p.a, p.v, p.b)
  }

  lemma ShiftRightJoins<T>(a: Tree<T>, v: Entry<T>, b: Tree<T>)
    requires Joinable(a, b) && a.vals != []
    ensures var p := ShiftRight(a, v, b); Joinable(p.a, p.b) && Merge(p.a, p.v, p.b) == Merge(a, v, b)
  {
    var p := ShiftRight(a, v, b);
    assert p.a.vals + [p.v] + p.b.vals == a.vals + [v] + b.vals;
    assert p.a.kids + p.b.kids == a.kids + b.kids;
  }

  lemma ShiftLeftJoins<T>(a: Tree<T>, v: Entry<T>, b: Tree<T>)
    requires Joinable(a, b) && b.vals != []
    ensures var p := ShiftLeft(a, v, b); Joinable(p.a, p.b) && Merge(p.a, p.v, p.b) == Merge(a, v, b)
  {
    var p := ShiftLeft(a, v, b);
    assert p.a.vals + [p.v] + p.b.vals == a.vals + [v] + b.vals;
    assert p.a.kids + p.b.kids == a.kids + b.kids;
  }

  lemma Halves<T>(c: Tree<T>, d: nat)
    requires d >= 2 && |c.vals| == 2 * d - 1 && (c.kids == [] || |c.kids| == 2 * d)
    ensures Contents(c) == Contents(Low(c, d)) + [c.vals[d - 1]] + Contents(High(c, d))
  {
    hide Contents;
    assert Merge(Low(c, d), c.vals[d - 1], High(c, d)) == c;
    MergeContents(Low(c, d), c.vals[d - 1], High(c, d));
  }

  lemma SplitContents<T>(t: Tree<T>, i: nat, h: nat, d: nat)
    requires d >= 2 && h > 0 && Fit(t, h, d) && i < |t.kids| && |t.kids[i].vals| == 2 * d - 1
    ensures Contents(SplitChild(t, i, d)) == Contents(t)
  {
    var u := SplitChild(t, i, d);
    Focus(t, i);
    FocusPair(u, i);
    Halves(t.kids[i], d);
    assert u.vals[..i] == t.vals[..i];
    assert u.kids[..i] == t.kids[..i];
    assert u.vals[i + 1..] == t.vals[i..];
    assert u.kids[i + 2..] == t.kids[i + 1..];
  }

  lemma SplitFit<T>(t: Tree<T>, i: nat, h: nat, d: nat)
    requires d >= 2 && h > 0 && Fit(t, h, d) && |t.vals| < 2 * d - 1
    requires i < |t.kids| && |t.kids[i].vals| == 2 * d - 1
    ensures Fit(SplitChild(t, i, d), h, d)
  {
    var c := t.kids[i];
    var u := SplitChild(t, i, d);
    assert Fit(Low(c, d), h - 1, d) && Fit(High(c, d), h - 1, d);
    forall j | 0 <= j < |u.kids| ensures Fit(u.kids[j], h - 1, d) && d - 1 <= |u.kids[j].vals| {
      if j < i { assert u.kids[j] == t.kids[j]; }
      else if j > i + 1 { assert u.kids[j] == t.kids[j - 1]; }
    }
  }

  lemma MergeKidsContents<T>(t: Tree<T>, i: nat, h: nat, d: nat)
    requires d >= 2 && h > 0 && Fit(t, h, d) && i < |t.vals|
    ensures Contents(MergeKids(t, i)) == Contents(t)
  {
    var u := MergeKids(t, i);
    FocusPair(t, i);
    Focus(u, i);
    MergeContents(t.kids[i], t.vals[i], t.kids[i + 1]);
    assert u.vals[..i] == t.vals[..i] && u.kids[..i] == t.kids[..i];
    assert u.vals[i..] == t.vals[i + 1..] && u.kids[i + 1..] == t.kids[i + 2..];
  }

  lemma MergeKidsFit<T>(t: Tree<T>, i: nat, h: nat, d: nat)
    requires d >= 2 && h > 0 && Fit(t, h, d) && i < |t.vals|
    requires |t.kids[i].vals| == |t.kids[i + 1].vals| == d - 1
    ensures Fit(MergeKids(t, i), h, d)
  {
    var u := MergeKids(t, i);
    FitMerge(t.kids[i], t.vals[i], t.kids[i + 1], h - 1, d);
    forall j | 0 <= j < |u.kids| ensures Fit(u.kids[j], h - 1, d) && d - 1 <= |u.kids[j].vals| {
      if j < i { assert u.kids[j] == t.kids[j]; }
      else if j > i { assert u.kids[j] == t.kids[j + 1]; }
    }
  }

  /** A pair that joins to the same node holds what the old pair held. */
  lemma SameJoin<T>(t: Tree<T>, i: nat, a: Tree<T>, v: Entry<T>, b: Tree<T>)
    requires |t.kids| == |t.vals| + 1 && i < |t.vals|
    requires Joinable(t.kids[i], t.kids[i + 1]) && Joinable(a, b)
    requires Merge(a, v, b) == Merge(t.kids[i], t.vals[i], t.kids[i + 1])
    ensures Contents(PutPair(t, i, a, v, b)) == Contents(t)
  {
    MergeContents(t.kids[i], t.vals[i], t.kids[i + 1]);
    MergeContents(a, v, b);
    var u := PutPair(t, i, a, v, b);
    FocusPair(t, i);
    FocusPair(u, i);
    assert u.vals[..i] == t.vals[..i] && u.kids[..i] == t.kids[..i];
    assert u.vals[i + 1..] == t.vals[i + 1..] && u.kids[i + 2..] == t.kids[i + 2..];
  }

  lemma BorrowLeftContents<T>(t: Tree<T>, i: nat, h: nat, d: nat)
    requires d >= 2 && h > 0 && Fit(t, h, d) && 0 < i < |t.kids|
    ensures t.kids[i - 1].vals != [] && Contents(BorrowLeft(t, i)) == Contents(t)
  {
    hide Contents, ShiftRight, Merge, PutPair;
    var a, v, b := t.kids[i - 1], t.vals[i - 1], t.kids[i];
    assert Fit(a, h - 1, d) && Fit(b, h - 1, d);
    ShiftRightJoins(a, v, b);
    var p := ShiftRight(a, v, b);
    SameJoin(t, i - 1, p.a, p.v, p.b);
  }

  lemma BorrowRightContents<T>(t: Tree<T>, i: nat, h: nat, d: nat)
    requires d >= 2 && h > 0 && Fit(t, h, d) && i + 1 < |t.kids|
    ensures t.kids[i + 1].vals != [] && Contents(BorrowRight(t, i)) == Contents(t)
  {
    hide Contents, ShiftLeft, Merge, PutPair;
    var a, v, b := t.kids[i], t.vals[i], t.kids[i + 1];
    assert Fit(a, h - 1, d) && Fit(b, h - 1, d);
    ShiftLeftJoins(a, v, b);
    var p := ShiftLeft(a, v, b);
    SameJoin(t, i, p.a, p.v, p.b);
  }

  lemma BorrowLeftFit<T>(t: Tree<T>, i: nat, h: nat, d: nat)
    requires d >= 2 && h > 0 && Fit(t, h, d) && 0 < i < |t.kids|
    requires |t.kids[i].vals| == d - 1 && d <= |t.kids[i - 1].vals|
    ensures Fit(BorrowLeft(t, i), h, d) && |BorrowLeft(t, i).kids[i].vals| == d
  {
    var u := BorrowLeft(t, i);
    assert Fit(u.kids[i - 1], h - 1, d) && Fit(u.kids[i], h - 1, d);
  }

  lemma BorrowRightFit<T>(t: Tree<T>, i: nat, h: nat, d: nat)
    requires d >= 2 && h > 0 && Fit(t, h, d) && i + 1 < |t.kids|
    requires |t.kids[i].vals| == d - 1 && d <= |t.kids[i + 1].vals|
    ensures Fit(BorrowRight(t, i), h, d) && |BorrowRight(t, i).kids[i].vals| == d
  {
    var u := BorrowRight(t, i);
    assert Fit(u.kids[i], h - 1, d) && Fit(u.kids[i + 1], h - 1, d);
  }

  // ---------------------------------------------------------------- descent

  ghost predicate Before<T>(x: seq<Entry<T>>, y: seq<Entry<T>>) {
    forall i, j :: 0 <= i < |x| && 0 <= j < |y| ==> x[i].rank < y[j].rank
  }

  lemma Piece<T>(x: seq<Entry<T>>, s: seq<Entry<T>>, y: seq<Entry<T>>)
    requires Ascending(x + s + y)
    ensures Ascending(x) && Ascending(s) && Ascending(y)
    ensures Before(x, s) && Before(s, y) && Before(x, y)
  {
    var w := x + s + y;
    assert forall i :: 0 <= i < |x| ==> w[i] == x[i];
    assert forall i :: 0 <= i < |s| ==> w[|x| + i] == s[i];
    assert forall i :: 0 <= i < |y| ==> w[|x| + |s| + i] == y[i];
  }

  /** The parts of a node around child i, in order, and the separators that bound them. */
  lemma Sides<T>(t: Tree<T>, i: nat)
    requires |t.kids| == |t.vals| + 1 && i < |t.kids| && Ascending(Contents(t))
    ensures var x, c, y := Left(t.vals[..i], t.kids[..i]), Contents(t.kids[i]), Right(t.vals[i..], t.kids[i + 1..]);
            && Ascending(x) && Ascending(c) && Ascending(y) && Before(x, c) && Before(c, y) && Before(x, y)
            && (i > 0 ==> x != [] && x[|x| - 1] == t.vals[i - 1])
            && (i < |t.vals| ==> y != [] && y[0] == t.vals[i])
  {
    hide Contents, Left, Right, Ascending, Before;
    Focus(t, i);
    Piece(Left(t.vals[..i], t.kids[..i]), Contents(t.kids[i]), Right(t.vals[i..], t.kids[i + 1..]));
    if i > 0 { LeftEnds(t.vals[..i], t.kids[..i]); }
    if i < |t.vals| { RightStarts(t.vals[i..], t.kids[i + 1..]); }
  }

  /** Child i can store the rank r, as far as the separators around it tell. */
  ghost predicate Leads<T>(t: Tree<T>, i: nat, r: real) {
    && |t.kids| == |t.vals| + 1 && i < |t.kids|
    && (i > 0 ==> t.vals[i - 1].rank < r)
    && (i < |t.vals| ==> r < t.vals[i].rank)
  }

  /** A rank that leads to child i can only be stored there. */
  lemma Descend<T>(t: Tree<T>, i: nat, r: real)
    requires Leads(t, i, r) && Ascending(Contents(t))
    ensures Below(Left(t.vals[..i], t.kids[..i]), r) && Above(Right(t.vals[i..], t.kids[i + 1..]), r)
    ensures Ascending(Contents(t.kids[i]))
  {
    hide Contents, Left, Right;
    Sides(t, i);
    if i == 0 { assert Left(t.vals[..i], t.kids[..i]) == [] by { LeftOfNothing<T>(); } }
    if i == |t.vals| { assert Right(t.vals[i..], t.kids[i + 1..]) == [] by { LeftOfNothing<T>(); } }
  }

  lemma LeftOfNothing<T>()
    ensures Left<T>([], []) == [] && Right<T>([], []) == []
  {
  }

  /** Child i lies strictly between its separators. */
  lemma Between<T>(t: Tree<T>, i: nat)
    requires |t.kids| == |t.vals| + 1 && i < |t.kids| && Ascending(Contents(t))
    ensures Ascending(Contents(t.kids[i]))
    ensures i > 0 ==> Above(Contents(t.kids[i]), t.vals[i - 1].rank)
    ensures i < |t.vals| ==> Below(Contents(t.kids[i]), t.vals[i].rank)
  {
    hide Contents, Left, Right;
    Sides(t, i);
  }

  lemma ValIn<T>(t: Tree<T>, h: nat, d: nat, i: nat)
    requires Fit(t, h, d) && i < |t.vals|
    ensures t.vals[i] in Contents(t)
  {
    if h > 0 { WeaveHolds(t.vals, Each(t.kids), i); }
  }

  lemma {:induction false} WeaveHolds<T>(vs: seq<Entry<T>>, cs: seq<seq<Entry<T>>>, i: nat)
    requires |cs| == |vs| + 1 && i < |vs|
    ensures vs[i] in Weave(vs, cs)
  {
    if i > 0 { WeaveHolds(vs[1..], cs[1..], i - 1); }
  }

  /** A node's own values ascend. */
  lemma ValsAscend<T>(t: Tree<T>, h: nat, d: nat)
    requires Fit(t, h, d) && Ascending(Contents(t))
    ensures Ascending(t.vals)
  {
    forall i, j | 0 <= i < j < |t.vals| ensures t.vals[i].rank < t.vals[j].rank {
      if h > 0 { ValsOrdered(t, i, j); }
    }
  }

  lemma ValsOrdered<T>(t: Tree<T>, i: nat, j: nat)
    requires |t.kids| == |t.vals| + 1 && Ascending(Contents(t)) && i < j < |t.vals|
    ensures t.vals[i].rank < t.vals[j].rank
  {
    hide Contents, Left, Right, Ascending;
    Sides(t, j);
    var vs, ks := t.vals[..j], t.kids[..j];
    assert t.vals[i] in Left(vs, ks) by { LeftHolds(vs, ks, i); }
  }

  lemma LeftHolds<T>(vs: seq<Entry<T>>, ks: seq<Tree<T>>, i: nat)
    requires |vs| == |ks| && i < |vs|
    ensures vs[i] in Left(vs, ks)
  {
    LeftsHold(vs, Each(ks), i);
  }

  /** A child's new contents, seen from its parent. */
  lemma PutKid<T>(t: Tree<T>, i: nat, k: Tree<T>)
    requires |t.kids| == |t.vals| + 1 && i < |t.kids|
    ensures Contents(Node(t.vals, t.kids[i := k]))
         == Left(t.vals[..i], t.kids[..i]) + Contents(k) + Right(t.vals[i..], t.kids[i + 1..])
  {
    var u := Node(t.vals, t.kids[i := k]);
    Focus(u, i);
    assert u.kids[..i] == t.kids[..i] && u.kids[i + 1..] == t.kids[i + 1..];
  }

  lemma PutKidAdds<T>(t: Tree<T>, i: nat, k: Tree<T>, e: Entry<T>)
    requires Leads(t, i, e.rank) && Ascending(Contents(t))
    requires Contents(k) == Add(Contents(t.kids[i]), e)
    ensures Contents(Node(t.vals, t.kids[i := k])) == Add(Contents(t), e)
    ensures Holds(Contents(t), e.rank) <==> Holds(Contents(t.kids[i]), e.rank)
  {
    var x, y := Left(t.vals[..i], t.kids[..i]), Right(t.vals[i..], t.kids[i + 1..]);
    Descend(t, i, e.rank);
    Focus(t, i);
    PutKid(t, i, k);
    AddWithin(x, Contents(t.kids[i]), y, e);
    HoldsWithin(x, Contents(t.kids[i]), y, e.rank);
  }

  lemma PutKidDels<T>(t: Tree<T>, i: nat, k: Tree<T>, r: real)
    requires Leads(t, i, r) && Ascending(Contents(t))
    requires Contents(k) == Del(Contents(t.kids[i]), r)
    ensures Contents(Node(t.vals, t.kids[i := k])) == Del(Contents(t), r)
    ensures Holds(Contents(t), r) <==> Holds(Contents(t.kids[i]), r)
  {
    var x, y := Left(t.vals[..i], t.kids[..i]), Right(t.vals[i..], t.kids[i + 1..]);
    Descend(t, i, r);
    Focus(t, i);
    PutKid(t, i, k);
    DelWithin(x, Contents(t.kids[i]), y, r);
    HoldsWithin(x, Contents(t.kids[i]), y, r);
  }

  // ---------------------------------------------------------------- insertion

  /** Insertion below a node that is not full: the tree it leaves, and whether the
      value is new. Full children are split on the way down, found or not. The
      height h only bounds the recursion. */
  ghost function Insert<T>(t: Tree<T>, e: Entry<T>, h: nat, d: nat): (Tree<T>, bool)
    decreases h, 2
  {
    var i := Slot(t.vals, e.rank);
    if Hit(t.vals, e.rank, i) then (t, false)
    else if h == 0 || |t.kids| != |t.vals| + 1 then (Node(t.vals[..i] + [e] + t.vals[i..], []), true)
    else if 1 <= d && |t.kids[i].vals| == 2 * d - 1 then
      var u := SplitChild(t, i, d);
      if u.vals[i].rank == e.rank then (u, false)
      else InsertBelow(u, if u.vals[i].rank < e.rank then i + 1 else i, e, h, d)
    else InsertBelow(t, i, e, h, d)
  }

  ghost function InsertBelow<T>(t: Tree<T>, i: nat, e: Entry<T>, h: nat, d: nat): (Tree<T>, bool)
    requires h > 0 && i < |t.kids|
    decreases h, 1
  {
    var x := Insert(t.kids[i], e, h - 1, d);
    (Node(t.vals, t.kids[i := x.0]), x.1)
  }

  ghost predicate Room<T>(t: Tree<T>, h: nat, d: nat) {
    d >= 2 && Fit(t, h, d) && |t.vals| < 2 * d - 1
  }

  /** Where the descent goes after a full child was split. */
  lemma SplitLeads<T>(t: Tree<T>, i: nat, e: Entry<T>, h: nat, d: nat)
    requires Room(t, h, d) && h > 0
    requires Leads(t, i, e.rank) && |t.kids[i].vals| == 2 * d - 1
    ensures var u := SplitChild(t, i, d);
            var j := if u.vals[i].rank < e.rank then i + 1 else i;
            u.vals[i].rank != e.rank ==> Leads(u, j, e.rank) && |u.kids[j].vals| < 2 * d - 1
  {
    var u := SplitChild(t, i, d);
    assert i > 0 ==> u.vals[i - 1] == t.vals[i - 1];
    assert i < |t.vals| ==> u.vals[i + 1] == t.vals[i];
  }

  /** Insertion keeps the shape and never shrinks the node it starts from. */
  lemma {:induction false} InsertFits<T>(t: Tree<T>, e: Entry<T>, h: nat, d: nat)
    requires Room(t, h, d)
    ensures Fit(Insert(t, e, h, d).0, h, d) && |t.vals| <= |Insert(t, e, h, d).0.vals|
    decreases h, 2
  {
    var i := Slot(t.vals, e.rank);
    if Hit(t.vals, e.rank, i) || h == 0 {
    } else if |t.kids[i].vals| == 2 * d - 1 {
      SplitFit(t, i, h, d);
      SplitLeads(t, i, e, h, d);
      var u := SplitChild(t, i, d);
      if u.vals[i].rank != e.rank {
        InsertBelowFits(u, if u.vals[i].rank < e.rank then i + 1 else i, e, h, d);
      }
    } else {
      InsertBelowFits(t, i, e, h, d);
    }
  }

  lemma {:induction false} InsertBelowFits<T>(t: Tree<T>, i: nat, e: Entry<T>, h: nat, d: nat)
    requires d >= 2 && h > 0 && Fit(t, h, d) && i < |t.kids| && |t.kids[i].vals| != 2 * d - 1
    ensures Fit(InsertBelow(t, i, e, h, d).0, h, d) && |InsertBelow(t, i, e, h, d).0.vals| == |t.vals|
    decreases h, 1
  {
    assert Fit(t.kids[i], h - 1, d);
    InsertFits(t.kids[i], e, h - 1, d);
  }

  /** Insertion adds its value to the sorted set the tree stores. */
  lemma {:induction false} InsertAdds<T>(t: Tree<T>, e: Entry<T>, h: nat, d: nat)
    requires Room(t, h, d) && Ascending(Contents(t))
    ensures Contents(Insert(t, e, h, d).0) == Add(Contents(t), e)
    ensures Insert(t, e, h, d).1 == !Holds(Contents(t), e.rank)
    decreases h, 3
  {
    var i := Slot(t.vals, e.rank);
    ValsAscend(t, h, d);
    HitIffHolds(t.vals, e.rank);
    if Hit(t.vals, e.rank, i) {
      ValIn(t, h, d, i);
      AddToSet(Contents(t), e);
    } else if h == 0 {
    } else if |t.kids[i].vals| == 2 * d - 1 {
      InsertSplitAdds(t, e, h, d);
    } else {
      InsertBelowAdds(t, i, e, h, d);
    }
  }

  lemma {:induction false} InsertSplitAdds<T>(t: Tree<T>, e: Entry<T>, h: nat, d: nat)
    requires Room(t, h, d) && h > 0 && Ascending(Contents(t))
    requires Leads(t, Slot(t.vals, e.rank), e.rank) && |t.kids[Slot(t.vals, e.rank)].vals| == 2 * d - 1
    ensures Contents(Insert(t, e, h, d).0) == Add(Contents(t), e)
    ensures Insert(t, e, h, d).1 == !Holds(Contents(t), e.rank)
    decreases h, 2
  {
    hide Contents, Ascending, Add;
    var i := Slot(t.vals, e.rank);
    var u := SplitChild(t, i, d);
    SplitFit(t, i, h, d);
    SplitContents(t, i, h, d);
    SplitLeads(t, i, e, h, d);
    if u.vals[i].rank == e.rank {
      ValIn(u, h, d, i);
      AddToSet(Contents(t), e);
    } else {
      InsertBelowAdds(u, if u.vals[i].rank < e.rank then i + 1 else i, e, h, d);
    }
  }

  lemma {:induction false} InsertBelowAdds<T>(t: Tree<T>, i: nat, e: Entry<T>, h: nat, d: nat)
    requires d >= 2 && h > 0 && Fit(t, h, d) && Ascending(Contents(t))
    requires Leads(t, i, e.rank) && |t.kids[i].vals| != 2 * d - 1
    ensures Contents(InsertBelow(t, i, e, h, d).0) == Add(Contents(t), e)
    ensures InsertBelow(t, i, e, h, d).1 == !Holds(Contents(t), e.rank)
    decreases h, 1
  {
    Descend(t, i, e.rank);
    assert Fit(t.kids[i], h - 1, d);
    InsertAdds(t.kids[i], e, h - 1, d);
    PutKidAdds(t, i, Insert(t.kids[i], e, h - 1, d).0, e);
  }

  /** Insertion at the root: a full root first becomes the only child of a new one.
      The last component is the new height. */
  ghost function InsertRoot<T>(t: Tree<T>, e: Entry<T>, h: nat, d: nat): (Tree<T>, bool, nat)
    requires d >= 1
  {
    if |t.vals| == 2 * d - 1 then
      var x := Insert(SplitChild(Node([], [t]), 0, d), e, h + 1, d);
      (x.0, x.1, h + 1)
    else
      var x := Insert(t, e, h, d);
      (x.0, x.1, h)
  }

  /** A node above t alone. */
  lemma Lone<T>(t: Tree<T>)
    ensures Contents(Node([], [t])) == Contents(t)
  {
    Around([], [], t, [], []);
    assert [] + [t] + [] == [t];
    LeftOfNothing<T>();
  }

  /** A full root, split under a new one. */
  lemma RaisedRoot<T>(t: Tree<T>, h: nat, d: nat)
    requires d >= 2 && Fit(t, h, d) && |t.vals| == 2 * d - 1
    ensures Room(SplitChild(Node([], [t]), 0, d), h + 1, d) && SplitChild(Node([], [t]), 0, d).vals != []
  {
    SplitFit(Node([], [t]), 0, h + 1, d);
  }

  lemma RaisedContents<T>(t: Tree<T>, h: nat, d: nat)
    requires d >= 2 && Fit(t, h, d) && |t.vals| == 2 * d - 1
    ensures Contents(SplitChild(Node([], [t]), 0, d)) == Contents(t)
  {
    SplitContents(Node([], [t]), 0, h + 1, d);
    Lone(t);
  }

  /** Insert keeps a tree in shape, one level higher when the root was full. */
  lemma InsertRootFits<T>(t: Tree<T>, e: Entry<T>, h: nat, d: nat)
    requires d >= 2 && Fit(t, h, d)
    ensures Fit(InsertRoot(t, e, h, d).0, InsertRoot(t, e, h, d).2, d)
    ensures t.vals != [] ==> InsertRoot(t, e, h, d).0.vals != []
  {
    hide Insert;
    if |t.vals| == 2 * d - 1 {
      RaisedRoot(t, h, d);
      InsertFits(SplitChild(Node([], [t]), 0, d), e, h + 1, d);
    } else {
      InsertFits(t, e, h, d);
    }
  }

  /** Insert adds exactly its value to what the tree stores, and reports a
      duplicate exactly when the rank was taken. */
  lemma InsertRootAdds<T>(t: Tree<T>, e: Entry<T>, h: nat, d: nat)
    requires d >= 2 && Fit(t, h, d) && Ascending(Contents(t))
    ensures Contents(InsertRoot(t, e, h, d).0) == Add(Contents(t), e)
    ensures InsertRoot(t, e, h, d).1 == !Holds(Contents(t), e.rank)
  {
    assert |t.vals| <= 2 * d - 1;
    hide Insert, Fit, Ascending, Add, Contents, SplitChild;
    if |t.vals| == 2 * d - 1 {
      RaisedRoot(t, h, d);
      RaisedContents(t, h, d);
      InsertAdds(SplitChild(Node([], [t]), 0, d), e, h + 1, d);
    } else {
      InsertAdds(t, e, h, d);
    }
  }
}
