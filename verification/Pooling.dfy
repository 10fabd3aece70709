/** Pooling what only one anchor reaches into groups, and ranking groups beside listed
    candidates: no answer can tell it from listing every member. */
module Pooling {
  import opened Keys
  import opened Scoring
  import opened Sequences
  import opened Traversals

  /** What the walk from the transmitting anchors reached, how deep, and from which. */
  datatype Expansion = Expansion(order: seq<Key>, depth: map<Key, nat>, reached: map<Key, seq<Key>>)
  {
    predicate Member(k: Key) { k in order && k in depth && depth[k] == 1 && k in reached }

    ghost predicate Valid() {
      NoRepeats(order) && forall k :: k in order ==> k in depth && k in reached && reached[k] != []
    }
  }

  /** reachedFrom: the full incidence when the walk records it, and otherwise the parent. */
  function ReachedFrom(w: Walk<Key>, v: Key): seq<Key>
    requires v in w.parent
  {
    if v in w.parents && w.parents[v] != [] then w.parents[v] else [w.parent[v]]
  }

  function Expanded(w: Walk<Key>): Expansion
    requires w.parent.Keys == w.depth.Keys
  {
    Expansion(w.order, w.depth, map v | v in w.parent :: ReachedFrom(w, v))
  }

  /** Either walk gives an expansion: each vertex once, reached from something. */
  lemma WalksExpand(g: View<Key>, dir: Direction, anchor: Key -> bool, sources: seq<Key>, w: Walk<Key>)
    requires Shortest(g, dir, sources, w) || Incident(g, anchor, sources, w)
    ensures Expanded(w).Valid()
  {
    hide Within;
    forall k | k in w.order ensures k in w.depth && k in w.parent {
    }
  }

  /** A member joins a group when one anchor alone reached it and nothing else did. */
  predicate Joins(x: Expansion, p: Pool, k: Key) { k in x.reached && |x.reached[k]| == 1 && k !in p }

  function Under(x: Expansion, p: Pool, a: Key): Key -> bool {
    k => x.Member(k) && Joins(x, p, k) && x.reached[k][0] == a
  }

  function Apart(x: Expansion, p: Pool): Key -> bool { k => x.Member(k) && !Joins(x, p, k) }

  /** What a candidate holds with every member listed: its own contributions, then one
      per anchor that reached it. */
  function Whole(x: Expansion, p: Pool, sent: Key -> Contribution, k: Key): seq<Contribution> {
    Held(p, k) + if x.Member(k) then Map(x.reached[k], sent) else []
  }

  /** The pool with every member listed. */
  function Everyone(x: Expansion, p: Pool, sent: Key -> Contribution): Pool {
    map k | k in p.Keys + (set k | k in x.order && x.Member(k)) :: Whole(x, p, sent, k)
  }

  /** All the groups' members, end to end. */
  function Flat(groups: seq<Group>): seq<Key> {
    if groups == [] then [] else Flat(groups[..|groups| - 1]) + groups[|groups| - 1].members
  }

  /** Listed candidates and group members are the candidates, each once, and each holds
      what listing everyone gives it. */
  ghost predicate Pooled(x: Expansion, p: Pool, sent: Key -> Contribution, q: Pool, groups: seq<Group>) {
    && NoRepeats(Flat(groups))
    && (forall k :: k in q ==> k !in Flat(groups) && q[k] == Whole(x, p, sent, k))
    && (forall g, k :: g in groups && k in g.members ==> g.contributions == Whole(x, p, sent, k))
    && (forall k :: k in q || k in Flat(groups) <==> k in Everyone(x, p, sent))
    && (forall g :: g in groups ==> Ascends(g.members, Hash()))
  }

  function Hash(): Key -> real { (k: Key) => k.hash as real }

  function Via(): Group -> real {
    (g: Group) => if g.contributions == [] then 0.0 else g.contributions[0].via.hash as real
  }

  // ---------------------------------------------------------------- flattened groups

  lemma {:induction false} FlatAppends(a: seq<Group>, b: seq<Group>)
    ensures Flat(a + b) == Flat(a) + Flat(b)
  {
    if b == [] {
      assert a + b == a;
    } else {
      var n := |b| - 1;
      assert (a + b)[..|a + b| - 1] == a + b[..n];
      FlatAppends(a, b[..n]);
    }
  }

  lemma {:induction false} FlatHas(groups: seq<Group>, k: Key)
    ensures k in Flat(groups) <==> exists g :: g in groups && k in g.members
  {
    if groups != [] {
      var r, e := groups[..|groups| - 1], groups[|groups| - 1];
      assert groups == r + [e];
      FlatHas(r, k);
      if k in Flat(groups) && k in e.members {
        assert e in groups;
      }
    }
  }

  ghost predicate Disjoint(groups: seq<Group>) {
    && (forall i :: 0 <= i < |groups| ==> NoRepeats(groups[i].members))
    && (forall i, j, k :: 0 <= i < j < |groups| && k in groups[i].members ==> k !in groups[j].members)
  }

  lemma {:induction false} FlatOnce(groups: seq<Group>)
    requires Disjoint(groups)
    ensures NoRepeats(Flat(groups))
  {
    hide NoRepeats;
    if groups != [] {
      var n := |groups| - 1;
      var r, e := groups[..n], groups[n];
      FlatOnce(r);
      forall k | k in Flat(r) ensures k !in e.members {
        FlatHas(r, k);
        var g :| g in r && k in g.members;
        var i :| 0 <= i < |r| && r[i] == g;
        assert groups[i] == g;
      }
      JoinedOnce(Flat(r), e.members);
    } else {
      assert Flat(groups) == [];
      NoneRepeat<Key>();
    }
  }

  lemma NoneRepeat<A>()
    ensures NoRepeats<A>([])
  {
  }

  lemma {:induction false} PlaceFlat(e: Group, s: seq<Group>)
    ensures multiset(Flat(PlaceBy(e, s, Via()))) == multiset(Flat(s)) + multiset(e.members)
  {
    hide Via;
    assert Flat([e]) == e.members by { assert Flat([e]) == Flat([]) + e.members; }
    if s == [] || Via()(e) < Via()(s[0]) {
      FlatAppends([e], s);
    } else {
      PlaceFlat(e, s[1..]);
      assert s == [s[0]] + s[1..];
      FlatAppends([s[0]], s[1..]);
      FlatAppends([s[0]], PlaceBy(e, s[1..], Via()));
    }
  }

  lemma {:induction false} SortFlat(s: seq<Group>)
    ensures multiset(Flat(SortBy(s, Via()))) == multiset(Flat(s))
  {
    hide Via;
    if s != [] {
      SortFlat(s[..|s| - 1]);
      PlaceFlat(s[|s| - 1], SortBy(s[..|s| - 1], Via()));
    }
  }

  // ---------------------------------------------------------------- pooling

  /** The first loop's state: the groups by anchor, in order of discovery. */
  ghost predicate Sorting(x: Expansion, p: Pool, sent: Key -> Contribution, done: seq<Key>,
      anchors: seq<Key>, groups: seq<Group>, grouped: map<Key, nat>) {
    && |anchors| == |groups|
    && (forall i :: 0 <= i < |groups| ==> groups[i] == Group(Filter(done, Under(x, p, anchors[i])), [sent(anchors[i])]))
    && (forall i :: 0 <= i < |anchors| ==> anchors[i] in grouped && grouped[anchors[i]] == i)
    && (forall a :: a in grouped ==> grouped[a] < |anchors| && anchors[grouped[a]] == a)
    && (forall k :: k in done && x.Member(k) && Joins(x, p, k) ==> x.reached[k][0] in grouped)
  }

  /** A new group, for an anchor no member done joined. */
  lemma Opened(x: Expansion, p: Pool, sent: Key -> Contribution, done: seq<Key>,
      anchors: seq<Key>, groups: seq<Group>, grouped: map<Key, nat>, a: Key)
    requires Sorting(x, p, sent, done, anchors, groups, grouped) && a !in grouped
    ensures Sorting(x, p, sent, done, anchors + [a], groups + [Group([], [sent(a)])], grouped[a := |groups|])
  {
    hide Filter;
    FilterNone(done, Under(x, p, a));
  }

  lemma UnderStep(x: Expansion, p: Pool, done: seq<Key>, k: Key, a: Key)
    requires x.Member(k) && Joins(x, p, k)
    ensures Filter(done + [k], Under(x, p, a)) == Filter(done, Under(x, p, a)) + if a == x.reached[k][0]
            then [k] else []
  {
    hide Filter;
    FilterOne(done, k, Under(x, p, a));
  }

  /** One more member in its anchor's group. */
  lemma Joined(x: Expansion, p: Pool, sent: Key -> Contribution, done: seq<Key>,
      anchors: seq<Key>, groups: seq<Group>, grouped: map<Key, nat>, k: Key)
    requires Sorting(x, p, sent, done, anchors, groups, grouped)
    requires x.Member(k) && Joins(x, p, k) && x.reached[k][0] in grouped
    ensures var i := grouped[x.reached[k][0]];
            Sorting(x, p, sent, done + [k], anchors,
                groups[i := Group(groups[i].members + [k], groups[i].contributions)], grouped)
  {
    var a := x.reached[k][0];
    var i := grouped[a];
    var after := groups[i := Group(groups[i].members + [k], groups[i].contributions)];
    forall j | 0 <= j < |after| ensures after[j] ==
        Group(Filter(done + [k], Under(x, p, anchors[j])), [sent(anchors[j])]) {
      hide Filter, Under;
      UnderStep(x, p, done, k, anchors[j]);
    }
  }

  lemma Passed(x: Expansion, p: Pool, sent: Key -> Contribution, done: seq<Key>,
      anchors: seq<Key>, groups: seq<Group>, grouped: map<Key, nat>, k: Key)
    requires Sorting(x, p, sent, done, anchors, groups, grouped) && !(x.Member(k) && Joins(x, p, k))
    ensures Sorting(x, p, sent, done + [k], anchors, groups, grouped)
  {
    hide Filter, Expansion.Member, Joins;
    forall i | 0 <= i < |anchors| ensures Filter(done + [k], Under(x, p, anchors[i])) ==
        Filter(done, Under(x, p, anchors[i])) {
      FilterOne(done, k, Under(x, p, anchors[i]));
    }
  }

  /** Splits the members by whether they join a group. */
  method Divide(x: Expansion, p: Pool, sent: Key -> Contribution)
    returns (groups: seq<Group>, listed: seq<Key>, ghost anchors: seq<Key>, ghost grouped: map<Key, nat>)
    requires x.Valid()
    ensures Sorting(x, p, sent, x.order, anchors, groups, grouped) && listed == Filter(x.order, Apart(x, p))
  {
    hide Sorting, Filter, NoRepeats;
    groups, listed, anchors := [], [], [];
    var byAnchor: map<Key, nat> := map[];
    assert Sorting(x, p, sent, [], [], [], map[]) by { Nothing(x, p, sent); }
    assert Filter([], Apart(x, p)) == [] by { FilterNone([], Apart(x, p)); }
    for i := 0 to |x.order|
      invariant Sorting(x, p, sent, x.order[..i], anchors, groups, byAnchor)
              && listed == Filter(x.order[..i], Apart(x, p))
    {
      var k := x.order[i];
      assert x.order[..i + 1] == x.order[..i] + [k];
      assert k in x.order;
      FilterOne(x.order[..i], k, Apart(x, p));
      if x.depth[k] != 1 {
        Passed(x, p, sent, x.order[..i], anchors, groups, byAnchor, k);
      } else if |x.reached[k]| == 1 && k !in p {
        var a := x.reached[k][0];
        if a !in byAnchor {
          Opened(x, p, sent, x.order[..i], anchors, groups, byAnchor, a);
          byAnchor := byAnchor[a := |groups|];
          groups := groups + [Group([], [sent(a)])];
          anchors := anchors + [a];
        }
        Joined(x, p, sent, x.order[..i], anchors, groups, byAnchor, k);
        assert byAnchor[a] < |groups| by { InRange(x, p, sent, x.order[..i], anchors, groups, byAnchor, a); }
        groups := groups[byAnchor[a] := Group(groups[byAnchor[a]].members + [k], groups[byAnchor[a]].contributions)];
      } else {
        Passed(x, p, sent, x.order[..i], anchors, groups, byAnchor, k);
        listed := listed + [k];
      }
    }
    assert x.order[..|x.order|] == x.order;
    grouped := byAnchor;
  }

  lemma Nothing(x: Expansion, p: Pool, sent: Key -> Contribution)
    ensures Sorting(x, p, sent, [], [], [], map[])
  {
  }

  lemma InRange(x: Expansion, p: Pool, sent: Key -> Contribution, done: seq<Key>,
      anchors: seq<Key>, groups: seq<Group>, grouped: map<Key, nat>, a: Key)
    requires Sorting(x, p, sent, done, anchors, groups, grouped) && a in grouped
    ensures grouped[a] < |groups|
  {
  }

  function InKeyOrder(): Group -> Group { (g: Group) => Group(SortBy(g.members, Hash()), g.contributions) }

  /** Members in key order, and groups in their anchors'. */
  method Arrange(found: seq<Group>) returns (groups: seq<Group>)
    ensures groups == SortBy(Map(found, InKeyOrder()), Via())
  {
    hide SortBy;
    var sorted: seq<Group> := [];
    for i := 0 to |found|
      invariant sorted == Map(found[..i], InKeyOrder())
    {
      sorted := sorted + [Group(SortBy(found[i].members, Hash()), found[i].contributions)];
    }
    assert found[..|found|] == found;
    groups := SortBy(sorted, Via());
  }

  /** The rest of the members listed, their own contributions first. */
  method List(x: Expansion, p: Pool, sent: Key -> Contribution, listed: seq<Key>) returns (q: Pool)
    requires x.Valid() && listed == Filter(x.order, Apart(x, p))
    ensures forall k :: k in q <==> k in p || k in listed
    ensures forall k :: k in q ==> q[k] == if k in listed then Whole(x, p, sent, k) else p[k]
  {
    hide Filter, Whole, Expansion.Valid, Map;
    q := p;
    for i := 0 to |listed|
      invariant forall k :: k in q <==> k in p || k in listed[..i]
      invariant forall k :: k in q ==> q[k] == if k in listed[..i] then Whole(x, p, sent, k) else p[k]
    {
      var k := listed[i];
      assert listed[..i + 1] == listed[..i] + [k];
      ListedOnce(x, p, listed, i);
      WholeMember(x, p, sent, k);
      q := q[k := (if k in q then q[k] else []) + Map(x.reached[k], sent)];
    }
    assert listed[..|listed|] == listed;
  }

  /** The members pooled into groups, in key order, and the rest listed with what reached
      them. */
  method PoolMembers(x: Expansion, p: Pool, sent: Key -> Contribution) returns (q: Pool, groups: seq<Group>)
    requires x.Valid()
    ensures Pooled(x, p, sent, q, groups) && Ascends(groups, Via())
  {
    hide *;
    var found, listed, anchors, grouped := Divide(x, p, sent);
    groups := Arrange(found);
    q := List(x, p, sent, listed);
    SortByKeeps(Map(found, InKeyOrder()), Via());
    GroupsPooled(x, p, sent, anchors, found, grouped, groups);
    PooledAfter(x, p, sent, listed, q, groups);
  }

  lemma WholeMember(x: Expansion, p: Pool, sent: Key -> Contribution, k: Key)
    requires x.Member(k)
    ensures Whole(x, p, sent, k) == Held(p, k) + Map(x.reached[k], sent)
  {
  }

  lemma ListedOnce(x: Expansion, p: Pool, listed: seq<Key>, i: nat)
    requires x.Valid() && listed == Filter(x.order, Apart(x, p)) && i < |listed|
    ensures listed[i] !in listed[..i] && x.Member(listed[i])
  {
    Filters(x.order, Apart(x, p));
    var k := listed[i];
    assert k in listed;
  }

  /** The groups found share no member, nor repeat one. */
  lemma FoundDisjoint(x: Expansion, p: Pool, sent: Key -> Contribution, anchors: seq<Key>, found: seq<Group>,
      grouped: map<Key, nat>)
    requires x.Valid() && Sorting(x, p, sent, x.order, anchors, found, grouped)
    ensures Disjoint(found)
    ensures forall i, k :: 0 <= i < |found| && k in found[i].members ==>
            x.Member(k) && Joins(x, p, k) && found[i].contributions == Whole(x, p, sent, k)
    ensures forall k :: x.Member(k) && Joins(x, p, k) ==> exists i :: 0 <= i < |found| && k in found[i].members
  {
    forall i | 0 <= i < |found|
      ensures NoRepeats(found[i].members) && forall k :: k in found[i].members <==>
              k in x.order && Under(x, p, anchors[i])(k) {
      Filters(x.order, Under(x, p, anchors[i]));
    }
    forall k | x.Member(k) && Joins(x, p, k) ensures exists i :: 0 <= i < |found| && k in found[i].members {
      var i := grouped[x.reached[k][0]];
      assert k in found[i].members;
    }
    forall i, k | 0 <= i < |found| && k in found[i].members ensures found[i].contributions == Whole(x, p, sent, k) {
      assert Map(x.reached[k], sent) == [sent(anchors[i])];
    }
  }

  /** What the groups hold: exactly the members that join one. */
  ghost predicate Grouped(x: Expansion, p: Pool, sent: Key -> Contribution, groups: seq<Group>) {
    && NoRepeats(Flat(groups))
    && (forall g, k :: g in groups && k in g.members ==> g.contributions == Whole(x, p, sent, k))
    && (forall k :: k in Flat(groups) <==> x.Member(k) && Joins(x, p, k))
    && (forall g :: g in groups ==> Ascends(g.members, Hash()))
  }

  lemma MembersSorted(found: seq<Group>)
    requires Disjoint(found)
    ensures var s := Map(found, InKeyOrder());
            Disjoint(s) && forall i :: 0 <= i < |s| ==>
              Ascends(s[i].members, Hash()) && forall k :: k in s[i].members <==> k in found[i].members
  {
    hide SortBy, Ascends, NoRepeats;
    var s := Map(found, InKeyOrder());
    forall i | 0 <= i < |s|
      ensures NoRepeats(s[i].members) && Ascends(s[i].members, Hash())
              && forall k :: k in s[i].members <==> k in found[i].members {
      SortByKeeps(found[i].members, Hash());
      Reordered(found[i].members, s[i].members);
      SameItems(found[i].members, s[i].members);
    }
  }

  lemma GroupsPooled(x: Expansion, p: Pool, sent: Key -> Contribution, anchors: seq<Key>, found: seq<Group>,
      grouped: map<Key, nat>, groups: seq<Group>)
    requires x.Valid() && Sorting(x, p, sent, x.order, anchors, found, grouped)
            && groups == SortBy(Map(found, InKeyOrder()), Via())
    ensures Grouped(x, p, sent, groups)
  {
    hide Sorting, Whole, SortBy, Ascends, NoRepeats, Disjoint, Expansion.Valid, Joins, Flat, Filter;
    FoundDisjoint(x, p, sent, anchors, found, grouped);
    var sorted := Map(found, InKeyOrder());
    MembersSorted(found);
    FlatOnce(sorted);
    SortFlat(sorted);
    Reordered(Flat(sorted), Flat(groups));
    SortByKeeps(sorted, Via());
    SameItems(sorted, groups);
    SameItems(Flat(sorted), Flat(groups));
    forall k ensures k in Flat(groups) <==> x.Member(k) && Joins(x, p, k) {
      FlatHas(sorted, k);
      if x.Member(k) && Joins(x, p, k) {
        var i :| 0 <= i < |found| && k in found[i].members;
        assert sorted[i] in sorted;
      }
    }
  }

  lemma PooledAfter(x: Expansion, p: Pool, sent: Key -> Contribution, listed: seq<Key>, q: Pool, groups: seq<Group>)
    requires x.Valid() && listed == Filter(x.order, Apart(x, p)) && Grouped(x, p, sent, groups)
    requires forall k :: k in q <==> k in p || k in listed
    requires forall k :: k in q ==> q[k] == if k in listed then Whole(x, p, sent, k) else p[k]
    ensures Pooled(x, p, sent, q, groups)
  {
    hide Filter, Whole, Flat, Ascends, NoRepeats;
    Filters(x.order, Apart(x, p));
    forall k | k in q ensures q[k] == Whole(x, p, sent, k) {
      WholeOwn(x, p, sent, k);
    }
  }

  lemma WholeOwn(x: Expansion, p: Pool, sent: Key -> Contribution, k: Key)
    ensures k in p && !x.Member(k) ==> Whole(x, p, sent, k) == p[k]
  {
  }
}
