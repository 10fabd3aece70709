/** Deletion on the B-tree value: rebalancing on the way down, a stored value's
    removal at any height, and what an unsuccessful deletion does to the root. */
module BTreeDelete {
  import opened BTreeShape
  import opened BTreeOps

  // ---------------------------------------------------------------- fill

  /** Before a descent into the minimal child i: borrow from a sibling with one to
      spare, or merge. The second component is the child to descend into. */
  ghost function Fill<T>(t: Tree<T>, i: nat, d: nat): (Tree<T>, nat)
    requires d >= 1 && |t.kids| == |t.vals| + 1 && i < |t.kids| && t.vals != []
  {
    if i > 0 && |t.kids[i - 1].vals| > d - 1 then (BorrowLeft(t, i), i)
    else if i < |t.kids| - 1 && |t.kids[i + 1].vals| > d - 1 then (BorrowRight(t, i), i)
    else if i < |t.kids| - 1 then (MergeKids(t, i), i)
    else (MergeKids(t, i - 1), i - 1)
  }

  ghost predicate Fillable<T>(t: Tree<T>, i: nat, h: nat, d: nat) {
    d >= 2 && h > 0 && Fit(t, h, d) && t.vals != [] && i < |t.kids| && |t.kids[i].vals| == d - 1
  }

  lemma FillFits<T>(t: Tree<T>, i: nat, h: nat, d: nat)
    requires Fillable(t, i, h, d)
    ensures Fit(Fill(t, i, d).0, h, d) && |Fill(t, i, d).0.vals| >= |t.vals| - 1
    ensures Fill(t, i, d).1 < |Fill(t, i, d).0.kids| && d <= |Fill(t, i, d).0.kids[Fill(t, i, d).1].vals|
  {
    if i > 0 && |t.kids[i - 1].vals| > d - 1 { BorrowLeftFit(t, i, h, d); }
    else if i < |t.kids| - 1 && |t.kids[i + 1].vals| > d - 1 { BorrowRightFit(t, i, h, d); }
    else if i < |t.kids| - 1 { MergeKidsFit(t, i, h, d); }
    else { MergeKidsFit(t, i - 1, h, d); }
  }

  lemma FillContents<T>(t: Tree<T>, i: nat, h: nat, d: nat)
    requires Fillable(t, i, h, d)
    ensures Contents(Fill(t, i, d).0) == Contents(t)
  {
    hide Contents;
    if i > 0 && |t.kids[i - 1].vals| > d - 1 { BorrowLeftContents(t, i, h, d); }
    else if i < |t.kids| - 1 && |t.kids[i + 1].vals| > d - 1 { BorrowRightContents(t, i, h, d); }
    else if i < |t.kids| - 1 { MergeKidsContents(t, i, h, d); }
    else { MergeKidsContents(t, i - 1, h, d); }
  }

  /** A borrowed separator lies on the same side of the rank as the old one. */
  lemma BorrowLeads<T>(t: Tree<T>, u: Tree<T>, i: nat, j: nat, r: real)
    requires Leads(t, i, r) && Ascending(Contents(t)) && Contents(u) == Contents(t)
    requires |u.kids| == |u.vals| + 1 && |u.vals| == |t.vals| && j < |t.vals| && (j == i || j == i - 1)
    requires forall k :: 0 <= k < |t.vals| && k != j ==> u.vals[k] == t.vals[k]
    requires t.vals[j] in Contents(u.kids[i])
    ensures Leads(u, i, r)
  {
    hide Contents, Ascending;
    Between(u, i);
  }

  lemma FillLeads<T>(t: Tree<T>, i: nat, r: real, h: nat, d: nat)
    requires Fillable(t, i, h, d) && Leads(t, i, r) && Ascending(Contents(t))
    ensures Leads(Fill(t, i, d).0, Fill(t, i, d).1, r)
  {
    hide Contents, Ascending;
    var u := Fill(t, i, d).0;
    FillFits(t, i, h, d);
    FillContents(t, i, h, d);
    if i > 0 && |t.kids[i - 1].vals| > d - 1 {
      assert u.kids[i].vals[0] == t.vals[i - 1];
      ValIn(u.kids[i], h - 1, d, 0);
      BorrowLeads(t, u, i, i - 1, r);
    } else if i < |t.kids| - 1 && |t.kids[i + 1].vals| > d - 1 {
      assert u.kids[i].vals[d - 1] == t.vals[i];
      ValIn(u.kids[i], h - 1, d, d - 1);
      BorrowLeads(t, u, i, i, r);
    } else if i < |t.kids| - 1 {
      if i + 1 < |t.vals| { ValsOrdered(t, i, i + 1); assert u.vals[i] == t.vals[i + 1]; }
      if i > 0 { assert u.vals[i - 1] == t.vals[i - 1]; }
    } else if i > 1 {
      ValsOrdered(t, i - 2, i - 1);
      assert u.vals[i - 2] == t.vals[i - 2];
    }
  }

  // ---------------------------------------------------------------- deletion

  ghost function Last<A>(s: seq<A>, otherwise: A): A { if s == [] then otherwise else s[|s| - 1] }

  ghost function First<A>(s: seq<A>, otherwise: A): A { if s == [] then otherwise else s[0] }

  /** Deletion below a node: the tree it leaves, and whether the rank was stored.
      An inner value is replaced by its predecessor or successor, which is deleted
      from the child it came from. The height h only bounds the recursion. */
  ghost function Delete<T>(t: Tree<T>, r: real, h: nat, d: nat): (Tree<T>, bool)
    requires d >= 1
    decreases h, 2
  {
    var i := Slot(t.vals, r);
    if h == 0 || |t.kids| != |t.vals| + 1 then
      if Hit(t.vals, r, i) then (Node(t.vals[..i] + t.vals[i + 1..], t.kids), true) else (t, false)
    else if Hit(t.vals, r, i) then
      if |t.kids[i].vals| > d - 1 then
        var p := Last(Contents(t.kids[i]), t.vals[i]);
        DeleteBelow(Node(t.vals[i := p], t.kids), i, p.rank, h, d)
      else if |t.kids[i + 1].vals| > d - 1 then
        var p := First(Contents(t.kids[i + 1]), t.vals[i]);
        DeleteBelow(Node(t.vals[i := p], t.kids), i + 1, p.rank, h, d)
      else DeleteBelow(MergeKids(t, i), i, r, h, d)
    else if |t.kids[i].vals| == d - 1 && t.vals != [] then
      var f := Fill(t, i, d);
      DeleteBelow(f.0, f.1, r, h, d)
    else DeleteBelow(t, i, r, h, d)
  }

  ghost function DeleteBelow<T>(t: Tree<T>, i: nat, r: real, h: nat, d: nat): (Tree<T>, bool)
    requires d >= 1 && h > 0 && i < |t.kids|
    decreases h, 1
  {
    var x := Delete(t.kids[i], r, h - 1, d);
    (Node(t.vals, t.kids[i := x.0]), x.1)
  }

  /** A tree deletion can descend: no node on the way is left without a separator,
      save a root whose only child has values to spare. */
  ghost predicate Sound<T>(t: Tree<T>, h: nat, d: nat) {
    d >= 2 && Fit(t, h, d) && (h > 0 ==> t.vals != [] || |t.kids[0].vals| >= d)
  }

  /** Deletion keeps the shape and costs the node it starts from one value at most. */
  lemma {:induction false} DeleteFits<T>(t: Tree<T>, r: real, h: nat, d: nat)
    requires Sound(t, h, d)
    ensures Fit(Delete(t, r, h, d).0, h, d) && |Delete(t, r, h, d).0.vals| >= |t.vals| - 1
    decreases h, 2
  {
    var i := Slot(t.vals, r);
    if h == 0 {
    } else if Hit(t.vals, r, i) {
      if |t.kids[i].vals| > d - 1 {
        var p := Last(Contents(t.kids[i]), t.vals[i]);
        DeleteBelowFits(Node(t.vals[i := p], t.kids), i, p.rank, h, d);
      } else if |t.kids[i + 1].vals| > d - 1 {
        var p := First(Contents(t.kids[i + 1]), t.vals[i]);
        DeleteBelowFits(Node(t.vals[i := p], t.kids), i + 1, p.rank, h, d);
      } else {
        MergeKidsFit(t, i, h, d);
        DeleteBelowFits(MergeKids(t, i), i, r, h, d);
      }
    } else if |t.kids[i].vals| == d - 1 && t.vals != [] {
      FillFits(t, i, h, d);
      DeleteBelowFits(Fill(t, i, d).0, Fill(t, i, d).1, r, h, d);
    } else {
      DeleteBelowFits(t, i, r, h, d);
    }
  }

  lemma {:induction false} DeleteBelowFits<T>(t: Tree<T>, i: nat, r: real, h: nat, d: nat)
    requires d >= 2 && h > 0 && Fit(t, h, d) && i < |t.kids| && |t.kids[i].vals| >= d
    ensures Fit(DeleteBelow(t, i, r, h, d).0, h, d) && |DeleteBelow(t, i, r, h, d).0.vals| == |t.vals|
    decreases h, 1
  {
    DeleteFits(t.kids[i], r, h - 1, d);
  }

  /** The contents with an inner value taken out. */
  lemma DelSeparator<T>(t: Tree<T>, i: nat)
    requires |t.kids| == |t.vals| + 1 && i < |t.vals| && Ascending(Contents(t))
    ensures Del(Contents(t), t.vals[i].rank)
         == Left(t.vals[..i], t.kids[..i]) + Contents(t.kids[i])
             + (Contents(t.kids[i + 1]) + Right(t.vals[i + 1..], t.kids[i + 2..]))
    ensures Holds(Contents(t), t.vals[i].rank)
  {
    var x, a, v, b, y := Left(t.vals[..i], t.kids[..i]), Contents(t.kids[i]), t.vals[i], Contents(t.kids[i + 1]),
        Right(t.vals[i + 1..], t.kids[i + 2..]);
    FocusPair(t, i);
    hide Contents, Left, Right;
    assert Contents(t) == (x + a) + [v] + (b + y);
    Piece(x + a, [v], b + y);
    assert Below(x + a, v.rank) by { assert [v][0] == v; }
    DelAt(x + a, v, b + y);
    assert Contents(t)[|x + a|] == v;
  }

  lemma DelEnds<T>(c: seq<Entry<T>>)
    requires Ascending(c) && c != []
    ensures Del(c, c[|c| - 1].rank) == c[..|c| - 1]
    ensures Del(c, c[0].rank) == c[1..]
  {
    hide Del;
    var n := |c| - 1;
    assert c == c[..n] + [c[n]] + [];
    DelAt(c[..n], c[n], []);
    assert c == [] + [c[0]] + c[1..];
    DelAt([], c[0], c[1..]);
  }

  /** A node's contents with separator i and one of its neighbours replaced. */
  lemma PutAround<T>(t: Tree<T>, i: nat, a: Tree<T>, p: Entry<T>, b: Tree<T>)
    requires |t.kids| == |t.vals| + 1 && i < |t.vals|
    ensures Contents(PutPair(t, i, a, p, b))
         == Left(t.vals[..i], t.kids[..i]) + (Contents(a) + [p] + Contents(b)) + Right(t.vals[i + 1..], t.kids[i + 2..])
  {
    hide Contents, Left, Right;
    var u := PutPair(t, i, a, p, b);
    FocusPair(u, i);
    assert u.vals[..i] == t.vals[..i] && u.kids[..i] == t.kids[..i];
    assert u.vals[i + 1..] == t.vals[i + 1..] && u.kids[i + 2..] == t.kids[i + 2..];
  }

  /** An inner value replaced by its predecessor p, which child i gives up. */
  lemma ReplacedByLast<T>(t: Tree<T>, i: nat, k: Tree<T>, p: Entry<T>)
    requires |t.kids| == |t.vals| + 1 && i < |t.vals| && Ascending(Contents(t))
    requires Contents(t.kids[i]) != [] && p == Last(Contents(t.kids[i]), p)
    requires Contents(k) == Del(Contents(t.kids[i]), p.rank)
    ensures Contents(Node(t.vals[i := p], t.kids[i := k])) == Del(Contents(t), t.vals[i].rank)
  {
    hide Contents, Left, Right, Del, Ascending;
    var c, b := Contents(t.kids[i]), Contents(t.kids[i + 1]);
    var x, y := Left(t.vals[..i], t.kids[..i]), Right(t.vals[i + 1..], t.kids[i + 2..]);
    PutAround(t, i, k, p, t.kids[i + 1]);
    assert Node(t.vals[i := p], t.kids[i := k]) == PutPair(t, i, k, p, t.kids[i + 1]);
    DelSeparator(t, i);
    Between(t, i);
    DelEnds(c);
    assert c == c[..|c| - 1] + [p];
    assert x + (c + b) + y == x + c + (b + y);
  }

  /** An inner value replaced by its successor p, which child i + 1 gives up. */
  lemma ReplacedByFirst<T>(t: Tree<T>, i: nat, k: Tree<T>, p: Entry<T>)
    requires |t.kids| == |t.vals| + 1 && i < |t.vals| && Ascending(Contents(t))
    requires Contents(t.kids[i + 1]) != [] && p == First(Contents(t.kids[i + 1]), p)
    requires Contents(k) == Del(Contents(t.kids[i + 1]), p.rank)
    ensures Contents(Node(t.vals[i := p], t.kids[i + 1 := k])) == Del(Contents(t), t.vals[i].rank)
  {
    hide Contents, Left, Right, Del, Ascending;
    var a, c := Contents(t.kids[i]), Contents(t.kids[i + 1]);
    var x, y := Left(t.vals[..i], t.kids[..i]), Right(t.vals[i + 1..], t.kids[i + 2..]);
    PutAround(t, i, t.kids[i], p, k);
    assert Node(t.vals[i := p], t.kids[i + 1 := k]) == PutPair(t, i, t.kids[i], p, k);
    DelSeparator(t, i);
    Between(t, i + 1);
    DelEnds(c);
    assert c == [p] + c[1..];
    assert a + [p] + c[1..] == a + ([p] + c[1..]);
    assert x + (a + c) + y == x + a + (c + y);
  }

  lemma LastHeld<T>(s: seq<Entry<T>>, v: Entry<T>)
    requires s != []
    ensures Holds(s, Last(s, v).rank) && Holds(s, First(s, v).rank)
  {
    assert s[|s| - 1].rank == Last(s, v).rank && s[0].rank == First(s, v).rank;
  }

  /** Deletion removes its rank from the sorted set the tree stores. */
  lemma {:induction false} DeleteDels<T>(t: Tree<T>, r: real, h: nat, d: nat)
    requires Sound(t, h, d) && Ascending(Contents(t))
    ensures Contents(Delete(t, r, h, d).0) == Del(Contents(t), r)
    ensures Delete(t, r, h, d).1 == Holds(Contents(t), r)
    decreases h, 3
  {
    var i := Slot(t.vals, r);
    ValsAscend(t, h, d);
    HitIffHolds(t.vals, r);
    if h == 0 {
    } else if Hit(t.vals, r, i) {
      DeleteFoundDels(t, i, h, d);
    } else {
      DeleteDescentDels(t, r, h, d);
    }
  }

  lemma {:induction false} DeleteFoundDels<T>(t: Tree<T>, i: nat, h: nat, d: nat)
    requires Sound(t, h, d) && h > 0 && Ascending(Contents(t))
    requires i < |t.vals| && i == Slot(t.vals, t.vals[i].rank)
    ensures Contents(Delete(t, t.vals[i].rank, h, d).0) == Del(Contents(t), t.vals[i].rank)
    ensures Delete(t, t.vals[i].rank, h, d).1 == Holds(Contents(t), t.vals[i].rank)
    decreases h, 2
  {
    hide Contents, Ascending, Del;
    if |t.kids[i].vals| > d - 1 {
      DeleteLastDels(t, i, h, d);
    } else if |t.kids[i + 1].vals| > d - 1 {
      DeleteFirstDels(t, i, h, d);
    } else {
      DeleteMergedDels(t, i, h, d);
    }
  }

  lemma {:induction false} DeleteLastDels<T>(t: Tree<T>, i: nat, h: nat, d: nat)
    requires Sound(t, h, d) && h > 0 && Ascending(Contents(t)) && i < |t.vals| && |t.kids[i].vals| >= d
    ensures var p := Last(Contents(t.kids[i]), t.vals[i]);
            var x := DeleteBelow(Node(t.vals[i := p], t.kids), i, p.rank, h, d);
            Contents(x.0) == Del(Contents(t), t.vals[i].rank) && x.1 == Holds(Contents(t), t.vals[i].rank)
    decreases h, 1
  {
    hide Contents, Ascending, Del;
    var a := t.kids[i];
    var p := Last(Contents(a), t.vals[i]);
    assert a.vals[0] in Contents(a) by { ValIn(a, h - 1, d, 0); }
    LastHeld(Contents(a), t.vals[i]);
    Between(t, i);
    DeleteDels(a, p.rank, h - 1, d);
    ReplacedByLast(t, i, Delete(a, p.rank, h - 1, d).0, p);
    DelSeparator(t, i);
  }

  lemma {:induction false} DeleteFirstDels<T>(t: Tree<T>, i: nat, h: nat, d: nat)
    requires Sound(t, h, d) && h > 0 && Ascending(Contents(t)) && i < |t.vals| && |t.kids[i + 1].vals| >= d
    ensures var p := First(Contents(t.kids[i + 1]), t.vals[i]);
            var x := DeleteBelow(Node(t.vals[i := p], t.kids), i + 1, p.rank, h, d);
            Contents(x.0) == Del(Contents(t), t.vals[i].rank) && x.1 == Holds(Contents(t), t.vals[i].rank)
    decreases h, 1
  {
    hide Contents, Ascending, Del;
    var b := t.kids[i + 1];
    var p := First(Contents(b), t.vals[i]);
    assert b.vals[0] in Contents(b) by { ValIn(b, h - 1, d, 0); }
    LastHeld(Contents(b), t.vals[i]);
    Between(t, i + 1);
    DeleteDels(b, p.rank, h - 1, d);
    ReplacedByFirst(t, i, Delete(b, p.rank, h - 1, d).0, p);
    DelSeparator(t, i);
  }

  lemma {:induction false} DeleteMergedDels<T>(t: Tree<T>, i: nat, h: nat, d: nat)
    requires Sound(t, h, d) && h > 0 && Ascending(Contents(t))
    requires i < |t.vals| && |t.kids[i].vals| == |t.kids[i + 1].vals| == d - 1
    ensures var x := DeleteBelow(MergeKids(t, i), i, t.vals[i].rank, h, d);
            Contents(x.0) == Del(Contents(t), t.vals[i].rank) && x.1 == Holds(Contents(t), t.vals[i].rank)
    decreases h, 1
  {
    hide Contents, Ascending, Del;
    var u := MergeKids(t, i);
    MergeKidsFit(t, i, h, d);
    MergeKidsContents(t, i, h, d);
    if i > 0 { ValsOrdered(t, i - 1, i); assert u.vals[i - 1] == t.vals[i - 1]; }
    if i + 1 < |t.vals| { ValsOrdered(t, i, i + 1); assert u.vals[i] == t.vals[i + 1]; }
    DeleteBelowDels(u, i, t.vals[i].rank, h, d);
  }

  lemma {:induction false} DeleteDescentDels<T>(t: Tree<T>, r: real, h: nat, d: nat)
    requires Sound(t, h, d) && h > 0 && Ascending(Contents(t)) && Leads(t, Slot(t.vals, r), r)
    ensures Contents(Delete(t, r, h, d).0) == Del(Contents(t), r)
    ensures Delete(t, r, h, d).1 == Holds(Contents(t), r)
    decreases h, 2
  {
    hide Contents, Ascending, Del;
    var i := Slot(t.vals, r);
    if |t.kids[i].vals| == d - 1 && t.vals != [] {
      FillFits(t, i, h, d);
      FillContents(t, i, h, d);
      FillLeads(t, i, r, h, d);
      DeleteBelowDels(Fill(t, i, d).0, Fill(t, i, d).1, r, h, d);
    } else {
      DeleteBelowDels(t, i, r, h, d);
    }
  }

  lemma {:induction false} DeleteBelowDels<T>(t: Tree<T>, i: nat, r: real, h: nat, d: nat)
    requires d >= 2 && h > 0 && Fit(t, h, d) && Ascending(Contents(t))
    requires Leads(t, i, r) && |t.kids[i].vals| >= d
    ensures Contents(DeleteBelow(t, i, r, h, d).0) == Del(Contents(t), r)
    ensures DeleteBelow(t, i, r, h, d).1 == Holds(Contents(t), r)
    decreases h, 0
  {
    hide Contents, Ascending, Del;
    Descend(t, i, r);
    DeleteDels(t.kids[i], r, h - 1, d);
    PutKidDels(t, i, Delete(t.kids[i], r, h - 1, d).0, r);
  }

  // ---------------------------------------------------------------- the root

  /** What Delete does: it removed the value, it found none, or it indexed a child
      before the first one, which stops the program. */
  datatype Removal = Removed | Absent | Panicked

  /** A root in shape: an inner root has a separator. */
  ghost predicate Rooted<T>(t: Tree<T>, h: nat, d: nat) {
    d >= 2 && Fit(t, h, d) && (h > 0 ==> t.vals != [])
  }

  /** A root with one child and no separator, that child minimal: its fill has no
      sibling to turn to. */
  ghost predicate Stuck<T>(t: Tree<T>, h: nat, d: nat) {
    h > 0 && t.vals == [] && t.kids != [] && |t.kids[0].vals| == d - 1
  }

  ghost function DeleteRoot<T>(t: Tree<T>, r: real, h: nat, d: nat): (Tree<T>, Removal, nat)
    requires d >= 1
  {
    if Stuck(t, h, d) then (t, Panicked, h) else
      var x := Delete(t, r, h, d);
      if !x.1 then (x.0, Absent, h)
      else if x.0.vals == [] && x.0.kids != [] && h > 0 then (x.0.kids[0], Removed, h - 1)
      else (x.0, Removed, h)
  }

  /** Deleting a stored value removes exactly it and leaves a root in shape, even
      when an earlier failed deletion had left the root without a separator. */
  lemma DeleteRootStored<T>(t: Tree<T>, r: real, h: nat, d: nat)
    requires d >= 2 && Fit(t, h, d) && !Stuck(t, h, d) && Ascending(Contents(t)) && Holds(Contents(t), r)
    ensures DeleteRoot(t, r, h, d).1 == Removed
    ensures Rooted(DeleteRoot(t, r, h, d).0, DeleteRoot(t, r, h, d).2, d)
    ensures Contents(DeleteRoot(t, r, h, d).0) == Del(Contents(t), r)
  {
    hide Delete, Contents, Ascending, Holds, Del;
    DeleteFits(t, r, h, d);
    DeleteDels(t, r, h, d);
    var u := Delete(t, r, h, d).0;
    if u.vals == [] && h > 0 {
      SameNode(u, Node([], [u.kids[0]]));
      Lone(u.kids[0]);
    }
  }

  /** One separator over two minimal children: a failed deletion merges them and leaves
      the root without a separator. */
  ghost predicate Hollows<T>(t: Tree<T>, h: nat, d: nat) {
    h > 0 && |t.vals| == 1 && |t.kids| == 2 && |t.kids[0].vals| == d - 1 && |t.kids[1].vals| == d - 1
  }

  /** Deleting a value that is not stored changes no contents. It keeps the root in
      shape exactly when the root is not one separator over two minimal children. */
  lemma DeleteRootAbsent<T>(t: Tree<T>, r: real, h: nat, d: nat)
    requires Rooted(t, h, d) && Ascending(Contents(t)) && !Holds(Contents(t), r)
    ensures DeleteRoot(t, r, h, d).1 == Absent
    ensures Contents(DeleteRoot(t, r, h, d).0) == Contents(t)
    ensures Fit(DeleteRoot(t, r, h, d).0, h, d)
    ensures Rooted(DeleteRoot(t, r, h, d).0, h, d) <==> !Hollows(t, h, d)
  {
    hide Contents, Ascending, Holds, Del;
    DeleteFits(t, r, h, d);
    DeleteDels(t, r, h, d);
    DelFromSet(Contents(t), r);
    if h > 0 { AbsentNotHit(t, r, h, d); }
  }

  lemma NotStuckSound<T>(t: Tree<T>, h: nat, d: nat)
    requires d >= 2 && Fit(t, h, d) && !Stuck(t, h, d)
    ensures Sound(t, h, d)
  {
  }

  /** What deleting at the root means, whatever earlier failed deletions left there. */
  lemma DeleteRootMeans<T>(t: Tree<T>, r: real, h: nat, d: nat)
    requires d >= 2 && Fit(t, h, d) && Ascending(Contents(t))
    ensures var x := DeleteRoot(t, r, h, d);
            && (x.1 == Panicked <==> Stuck(t, h, d)) && (x.1 == Panicked ==> x.0 == t && x.2 == h)
            && Fit(x.0, x.2, d) && Ascending(Contents(x.0))
            && (x.1 != Panicked ==> Contents(x.0) == Del(Contents(t), r) && (x.1 == Removed <==> Holds(Contents(t), r)))
            && |Contents(x.0)| == |Contents(t)| - (if x.1 == Removed then 1 else 0)
            && (x.1 == Removed ==> Rooted(x.0, x.2, d))
            && (x.1 == Absent && Rooted(t, h, d) ==> (Rooted(x.0, x.2, d) <==> !Hollows(t, h, d)))
  {
    hide Contents, Ascending, Holds, Del, Fit, Delete;
    if !Stuck(t, h, d) {
      NotStuckSound(t, h, d);
      DelFromSet(Contents(t), r);
      DeleteFits(t, r, h, d);
      DeleteDels(t, r, h, d);
      if Holds(Contents(t), r) {
        DeleteRootStored(t, r, h, d);
      } else if Rooted(t, h, d) {
        DeleteRootAbsent(t, r, h, d);
      }
    }
  }

  lemma AbsentNotHit<T>(t: Tree<T>, r: real, h: nat, d: nat)
    requires Fit(t, h, d) && !Holds(Contents(t), r)
    ensures !Hit(t.vals, r, Slot(t.vals, r))
  {
    var i := Slot(t.vals, r);
    if Hit(t.vals, r, i) { ValIn(t, h, d, i); }
  }

  /** A legal tree of seven values and minimum degree 2: 4 over 2 and 6, over the
      leaves 1, 3, 5 and 7. */
  ghost function V(rank: real): Entry<int> { Entry(rank, 0) }

  ghost function Seven(): Tree<int> {
    Node([V(4.0)], [Node([V(2.0)], [Node([V(1.0)], []), Node([V(3.0)], [])]),
                    Node([V(6.0)], [Node([V(5.0)], []), Node([V(7.0)], [])])])
  }

  lemma SevenIsLegal()
    ensures Rooted(Seven(), 2, 2)
    ensures Contents(Seven()) == [V(1.0), V(2.0), V(3.0), V(4.0), V(5.0), V(6.0), V(7.0)]
  {
    hide Fit, Contents;
    OneLegal(V(1.0));
    OneLegal(V(3.0));
    OneLegal(V(5.0));
    OneLegal(V(7.0));
    PairLegal(Node([V(1.0)], []), V(2.0), Node([V(3.0)], []), 0);
    PairLegal(Node([V(5.0)], []), V(6.0), Node([V(7.0)], []), 0);
    PairLegal(Seven().kids[0], V(4.0), Seven().kids[1], 1);
  }

  lemma OneLegal(v: Entry<int>)
    ensures Fit(Node([v], []), 0, 2) && Contents(Node([v], [])) == [v]
  {
  }

  lemma PairLegal(a: Tree<int>, v: Entry<int>, b: Tree<int>, h: nat)
    requires Fit(a, h, 2) && Fit(b, h, 2) && a.vals != [] && b.vals != []
    ensures Fit(Node([v], [a, b]), h + 1, 2) && Contents(Node([v], [a, b])) == Contents(a) + [v] + Contents(b)
  {
    hide Contents, Left, Right;
    var t := Node([v], [a, b]);
    FocusPair(t, 0);
    LeftOfNothing<int>();
    assert t.vals[..0] == [] && t.kids[..0] == [] && t.vals[1..] == [] && t.kids[2..] == [];
  }

  /** The tree the first failed deletion leaves, and the one the second leaves. */
  ghost function Six(): Tree<int> {
    Node([V(4.0), V(6.0)], [Node([V(1.0), V(2.0), V(3.0)], []), Node([V(5.0)], []), Node([V(7.0)], [])])
  }

  ghost function Five(): Tree<int> {
    Node([V(4.0)], [Node([V(1.0), V(2.0), V(3.0)], []), Node([V(5.0), V(6.0), V(7.0)], [])])
  }

  lemma SameNode<T>(a: Tree<T>, b: Tree<T>)
    requires a.vals == b.vals && a.kids == b.kids
    ensures a == b
  {
  }

  lemma FirstAbsent()
    ensures DeleteRoot(Seven(), 0.0, 2, 2) == (Node([], [Six()]), Absent, 2)
  {
    var l := [Node([V(1.0)], []), Node([V(3.0)], []), Node([V(5.0)], []), Node([V(7.0)], [])];
    var m := Node([V(2.0), V(4.0), V(6.0)], l);
    SameNode(Merge(Seven().kids[0], V(4.0), Seven().kids[1]), m);
    SameNode(MergeKids(Seven(), 0), Node([], [m]));
    SameNode(Merge(l[0], V(2.0), l[1]), Six().kids[0]);
    SameNode(MergeKids(m, 0), Six());
    assert Delete(Six().kids[0], 0.0, 0, 2) == (Six().kids[0], false);
    assert DeleteBelow(Six(), 0, 0.0, 1, 2).0.kids == Six().kids;
    assert Delete(m, 0.0, 1, 2) == (Six(), false);
    assert DeleteBelow(Node([], [m]), 0, 0.0, 2, 2).0.kids == [Six()];
  }

  lemma SecondAbsent()
    ensures DeleteRoot(Node([], [Six()]), 8.0, 2, 2) == (Node([], [Five()]), Absent, 2)
  {
    var m, f := Six(), Five();
    SlotIsUnique(m.vals, 8.0, Slot(m.vals, 8.0), 2);
    SlotIsUnique(f.kids[1].vals, 8.0, Slot(f.kids[1].vals, 8.0), 3);
    SameNode(Merge(m.kids[1], V(6.0), m.kids[2]), f.kids[1]);
    SameNode(MergeKids(m, 1), f);
    assert Delete(f.kids[1], 8.0, 0, 2) == (f.kids[1], false);
    assert DeleteBelow(f, 1, 8.0, 1, 2).0.kids == f.kids;
    assert Delete(m, 8.0, 1, 2) == (f, false);
    assert DeleteBelow(Node([], [m]), 0, 8.0, 2, 2).0.kids == [f];
  }

  /** Three deletions of values that were never stored stop the program. */
  lemma AbsentDeletesPanic()
    ensures Rooted(Seven(), 2, 2) && Ascending(Contents(Seven()))
    ensures !Holds(Contents(Seven()), 0.0) && !Holds(Contents(Seven()), 8.0)
    ensures var a := DeleteRoot(Seven(), 0.0, 2, 2);
            var b := DeleteRoot(a.0, 8.0, 2, 2);
            a.1 == Absent && b.1 == Absent && DeleteRoot(b.0, 8.0, 2, 2).1 == Panicked
  {
    hide Fit, Contents, Delete, Seven;
    SevenIsLegal();
    FirstAbsent();
    SecondAbsent();
  }
}
