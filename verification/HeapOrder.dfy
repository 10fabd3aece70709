/** Binary heaps laid out in a sequence: what one step of a percolate loop keeps. */
module HeapOrder {

  /** over(a, b): a may sit above b. */
  ghost predicate IsOrder<A(!new)>(over: (A, A) -> bool) {
    && (forall a, b :: over(a, b) || over(b, a))
    && (forall a, b, c :: over(a, b) && over(b, c) ==> over(a, c))
  }

  /** Slot i is where it belongs under its parent, if the parent is at from or later. */
  ghost predicate Edge<A(!new)>(s: seq<A>, over: (A, A) -> bool, from: nat, i: nat) {
    0 < i < |s| && from <= (i - 1) / 2 ==> over(s[(i - 1) / 2], s[i])
  }

  ghost predicate Heaped<A(!new)>(s: seq<A>, over: (A, A) -> bool, from: nat) {
    forall i: nat :: i < |s| ==> Edge(s, over, from, i)
  }

  /** What is under slot h belongs under what is above it. */
  ghost predicate Bridged<A(!new)>(s: seq<A>, over: (A, A) -> bool, from: nat, h: nat) {
    0 < h < |s| && from <= (h - 1) / 2 ==>
      && (2 * h + 1 < |s| ==> over(s[(h - 1) / 2], s[2 * h + 1]))
      && (2 * h + 2 < |s| ==> over(s[(h - 1) / 2], s[2 * h + 2]))
  }

  /** A heap but for slot h under its parent. */
  ghost predicate LooseAbove<A(!new)>(s: seq<A>, over: (A, A) -> bool, h: nat) {
    h < |s| && (forall i: nat :: i < |s| && i != h ==> Edge(s, over, 0, i)) && Bridged(s, over, 0, h)
  }

  /** A heap but for slot h over its children. */
  ghost predicate LooseBelow<A(!new)>(s: seq<A>, over: (A, A) -> bool, from: nat, h: nat) {
    h < |s| && (forall i: nat :: i < |s| && i != 2 * h + 1 && i != 2 * h + 2 ==> Edge(s, over, from, i))
        && Bridged(s, over, from, h)
  }

  function Swap<A>(s: seq<A>, i: nat, j: nat): (r: seq<A>)
    requires i < |s| && j < |s|
  {
    s[i := s[j]][j := s[i]]
  }

  lemma SwapKeeps<A>(s: seq<A>, i: nat, j: nat)
    requires i < |s| && j < |s|
    ensures multiset(Swap(s, i, j)) == multiset(s)
  {
  }

  lemma StepUp<A(!new)>(s: seq<A>, over: (A, A) -> bool, h: nat)
    requires IsOrder(over) && LooseAbove(s, over, h) && h > 0 && !over(s[(h - 1) / 2], s[h])
    ensures LooseAbove(Swap(s, h, (h - 1) / 2), over, (h - 1) / 2)
  {
    var p := (h - 1) / 2;
    var t := Swap(s, h, p);
    forall i: nat | i < |t| && i != p ensures Edge(t, over, 0, i) {
      assert Edge(s, over, 0, i) || i == h;
      assert over(s[h], s[p]);
    }
    assert Edge(s, over, 0, p);
    forall c: nat | c < |s| && (c == 2 * p + 1 || c == 2 * p + 2) && p > 0 ensures over(t[(p - 1) / 2], t[c]) {
      assert c == h || Edge(s, over, 0, c);
    }
  }

  lemma StepDown<A(!new)>(s: seq<A>, over: (A, A) -> bool, from: nat, h: nat, c: nat)
    requires IsOrder(over) && LooseBelow(s, over, from, h) && from <= h
    requires (c == 2 * h + 1 || c == 2 * h + 2) && c < |s| && over(s[c], s[h])
    requires 2 * h + 1 < |s| ==> over(s[c], s[2 * h + 1])
    requires 2 * h + 2 < |s| ==> over(s[c], s[2 * h + 2])
    ensures LooseBelow(Swap(s, h, c), over, from, c)
  {
    var t := Swap(s, h, c);
    forall i: nat | i < |t| && i != 2 * c + 1 && i != 2 * c + 2 ensures Edge(t, over, from, i) {
      assert i == 2 * h + 1 || i == 2 * h + 2 || Edge(s, over, from, i);
    }
    forall d: nat | d < |s| && (d == 2 * c + 1 || d == 2 * c + 2) ensures over(t[h], t[d]) {
      assert Edge(s, over, from, d);
    }
  }

  lemma SettledUp<A(!new)>(s: seq<A>, over: (A, A) -> bool, h: nat)
    requires LooseAbove(s, over, h) && (h > 0 ==> over(s[(h - 1) / 2], s[h]))
    ensures Heaped(s, over, 0)
  {
    assert Edge(s, over, 0, h);
  }

  lemma SettledDown<A(!new)>(s: seq<A>, over: (A, A) -> bool, from: nat, h: nat)
    requires LooseBelow(s, over, from, h)
    requires 2 * h + 1 < |s| ==> over(s[h], s[2 * h + 1])
    requires 2 * h + 2 < |s| ==> over(s[h], s[2 * h + 2])
    ensures Heaped(s, over, from)
  {
    assert Edge(s, over, from, 2 * h + 1) && Edge(s, over, from, 2 * h + 2);
  }

  /** The root is over everything. */
  lemma {:induction false} RootOver<A(!new)>(s: seq<A>, over: (A, A) -> bool, i: nat)
    requires IsOrder(over) && Heaped(s, over, 0) && i < |s|
    ensures over(s[0], s[i])
  {
    if i > 0 {
      RootOver(s, over, (i - 1) / 2);
      assert Edge(s, over, 0, i);
    }
  }
}
