/** A search's last stages: bind the scorer to the pool, offer every candidate, keep the
    best and cut the weak. Pooling members as groups changes none of the answer. */
module Ranking {
  import opened Keys
  import opened Pooling
  import opened Scoring
  import opened Sequences
  import TopKs

  /** What one search ranks by: which candidates it may return, how a score ages, how
      many hits it keeps and how weak a hit may be beside the best. */
  datatype Recall = Recall(scorer: Scorer, e: Excess, returnable: Key -> bool, decay: (real, Key) -> real, top: int,
      ratio: real)

  datatype Hit = Hit(key: Key, score: real, contributions: seq<Contribution>)

  // ---------------------------------------------------------------- specification

  function Trim(returnable: Key -> bool): Group -> Group {
    (g: Group) => Group(Filter(g.members, returnable), g.contributions)
  }

  function OfferOf(r: Recall, b: Bound, p: Pool): Key -> TopKs.Entry {
    (k: Key) => TopKs.Entry(k.hash, r.decay(b.Score(Held(p, k)), k))
  }

  function MemberOffer(r: Recall, relevance: real): Key -> TopKs.Entry {
    (k: Key) => TopKs.Entry(k.hash, r.decay(relevance, k))
  }

  function GroupOffers(r: Recall, b: Bound, groups: seq<Group>): seq<TopKs.Entry> {
    if groups == [] then [] else
      var g := groups[|groups| - 1];
      GroupOffers(r, b, groups[..|groups| - 1]) + Map(g.members, MemberOffer(r, b.Score(g.contributions)))
  }

  function Offers(r: Recall, b: Bound, keys: seq<Key>, q: Pool, groups: seq<Group>): seq<TopKs.Entry> {
    Map(keys, OfferOf(r, b, q)) + GroupOffers(r, b, groups)
  }

  function FromGroup(groups: seq<Group>, k: Key): seq<Contribution> {
    if groups == [] then [] else if k in groups[0].members then groups[0].contributions else FromGroup(groups[1..], k)
  }

  /** A ranked candidate's contributions: its own listing, or its group's. */
  function Contributions(q: Pool, groups: seq<Group>, k: Key): seq<Contribution> {
    if k in q then q[k] else FromGroup(groups, k)
  }

  function HitOf(q: Pool, groups: seq<Group>): TopKs.Entry -> Hit {
    (t: TopKs.Entry) => Hit(Key(t.key), t.score, Contributions(q, groups, Key(t.key)))
  }

  function Highest(b: Bound, hits: seq<Hit>): real
    requires hits != []
  {
    var x := b.Score(hits[|hits| - 1].contributions);
    if |hits| == 1 then x else
      var y := Highest(b, hits[..|hits| - 1]);
      if x > y then x else y
  }

  function Clears(b: Bound, bar: real): Hit -> bool { (h: Hit) => b.Score(h.contributions) >= bar }

  /** The hits whose relevance, undecayed, reaches the ratio of the best one's. */
  function Cut(ratio: real, b: Bound, hits: seq<Hit>): seq<Hit> {
    if ratio <= 0.0 || hits == [] then hits else Filter(hits, Clears(b, Mul(ratio, Highest(b, hits))))
  }

  function ScorerOf(r: Recall, keys: seq<Key>, q: Pool, kept: seq<Group>): Bound {
    Bind(r.scorer, r.e, PoolOf(r.e, keys, q, kept))
  }

  /** The answer to a recall over listed candidates and groups. */
  function Answer(r: Recall, keys: seq<Key>, q: Pool, groups: seq<Group>): seq<Hit> {
    var kept := Map(groups, Trim(r.returnable));
    var b := ScorerOf(r, keys, q, kept);
    Cut(r.ratio, b, Map(TopKs.Best(Offers(r, b, keys, q, kept), r.top), HitOf(q, kept)))
  }

  /** The pool's returnable keys, each once. */
  ghost predicate Lists(keys: seq<Key>, q: Pool, returnable: Key -> bool) {
    NoRepeats(keys) && forall k :: k in keys <==> k in q && returnable(k)
  }

  // ---------------------------------------------------------------- the stages

  /** The pool's returnable keys in ascending order, whatever order the map gives them in. */
  method KeysOf(r: Recall, q: Pool) returns (keys: seq<Key>)
    ensures Lists(keys, q, r.returnable) && Ascends(keys, Hash())
  {
    var left := q.Keys;
    var found: seq<Key> := [];
    while left != {}
      invariant left <= q.Keys && NoRepeats(found)
      invariant forall k :: k in found <==> k in q && k !in left && r.returnable(k)
    {
      var k :| k in left;
      left := left - {k};
      if r.returnable(k) {
        found := found + [k];
      }
    }
    keys := SortBy(found, Hash());
    SortByKeeps(found, Hash());
    Reordered(found, keys);
    SameItems(found, keys);
  }

  method TrimAll(r: Recall, groups: seq<Group>) returns (kept: seq<Group>)
    ensures kept == Map(groups, Trim(r.returnable))
    ensures (forall g :: g in groups ==> Ascends(g.members, Hash())) ==> forall g :: g in kept ==>
            Ascends(g.members, Hash())
  {
    hide Filter, Ascends;
    kept := [];
    for i := 0 to |groups|
      invariant kept == Map(groups[..i], Trim(r.returnable))
    {
      kept := kept + [Group(Filter(groups[i].members, r.returnable), groups[i].contributions)];
    }
    assert groups[..|groups|] == groups;
    if forall g :: g in groups ==> Ascends(g.members, Hash()) {
      forall i | 0 <= i < |kept| ensures Ascends(kept[i].members, Hash()) {
        var g := groups[i];
        assert g in groups;
        FilterAscends(g.members, r.returnable, Hash());
      }
    }
  }

  method OfferAll(r: Recall, b: Bound, keys: seq<Key>, q: Pool, groups: seq<Group>) returns (best: seq<TopKs.Entry>)
    ensures best == TopKs.Best(Offers(r, b, keys, q, groups), r.top)
  {
    hide Bound.Score, TopKs.Best, TopKs.TopK.Valid;
    var ranker := new TopKs.TopK(r.top);
    for i := 0 to |keys|
      invariant fresh(ranker) && ranker.Valid() && ranker.k == r.top
              && ranker.offered == Map(keys[..i], OfferOf(r, b, q))
    {
      var relevance := b.ScoreInLoops(Held(q, keys[i]));
      ranker.Offer(keys[i].hash, r.decay(relevance, keys[i]));
      assert Map(keys[..i + 1], OfferOf(r, b, q)) == Map(keys[..i], OfferOf(r, b, q)) + [OfferOf(r, b, q)(keys[i])];
    }
    assert keys[..|keys|] == keys;
    ghost var listed := Map(keys, OfferOf(r, b, q));
    for i := 0 to |groups|
      invariant fresh(ranker) && ranker.Valid() && ranker.k == r.top
              && ranker.offered == listed + GroupOffers(r, b, groups[..i])
    {
      assert groups[..i + 1][..i] == groups[..i];
      OfferGroup(r, b, groups[i], ranker);
    }
    assert groups[..|groups|] == groups;
    best := ranker.Drain();
  }

  /** One group's members, each at the group's relevance aged by its own time. */
  method OfferGroup(r: Recall, b: Bound, g: Group, ranker: TopKs.TopK)
    requires ranker.Valid()
    modifies ranker
    ensures ranker.Valid() && ranker.offered == old(ranker.offered)
            + Map(g.members, MemberOffer(r, b.Score(g.contributions)))
  {
    hide Bound.Score, TopKs.TopK.Valid;
    var relevance := b.ScoreInLoops(g.contributions);
    ghost var f := MemberOffer(r, relevance);
    for j := 0 to |g.members|
      invariant ranker.Valid() && ranker.offered == old(ranker.offered) + Map(g.members[..j], f)
    {
      ranker.Offer(g.members[j].hash, r.decay(relevance, g.members[j]));
      assert Map(g.members[..j + 1], f) == Map(g.members[..j], f) + [f(g.members[j])];
    }
    assert g.members[..|g.members|] == g.members;
  }

  /** slices.BinarySearch. */
  method BinarySearch(s: seq<Key>, k: Key) returns (found: bool)
    requires Ascends(s, Hash())
    ensures found <==> k in s
  {
    var lo, hi := 0, |s|;
    while lo < hi
      invariant 0 <= lo <= hi <= |s|
      invariant forall i :: 0 <= i < lo ==> s[i].hash < k.hash
      invariant forall i :: hi <= i < |s| ==> s[i].hash >= k.hash
    {
      var mid := (lo + hi) / 2;
      assert forall i :: 0 <= i < |s| ==> Hash()(s[i]) == s[i].hash as real;
      if s[mid].hash < k.hash {
        lo := mid + 1;
      } else {
        hi := mid;
      }
    }
    found := lo < |s| && s[lo].hash == k.hash;
    assert found ==> s[lo] == k;
    assert forall i :: 0 <= i < |s| ==> Hash()(s[i]) == s[i].hash as real;
    forall i | 0 <= i < |s| && s[i] == k ensures found {
      assert lo <= i;
      assert lo == i || Hash()(s[lo]) <= Hash()(s[i]);
    }
  }

  method LookUp(q: Pool, groups: seq<Group>, k: Key) returns (cs: seq<Contribution>)
    requires forall g :: g in groups ==> Ascends(g.members, Hash())
    ensures cs == Contributions(q, groups, k)
  {
    if k in q {
      return q[k];
    }
    for i := 0 to |groups|
      invariant FromGroup(groups, k) == FromGroup(groups[i..], k)
    {
      var g := groups[i];
      assert g in groups;
      assert groups[i..][1..] == groups[i + 1..];
      var found := BinarySearch(g.members, k);
      if found {
        return g.contributions;
      }
    }
    return [];
  }

  method CutOff(ratio: real, b: Bound, hits: seq<Hit>) returns (kept: seq<Hit>)
    ensures kept == Cut(ratio, b, hits)
  {
    hide Bound.Score, Mul;
    if ratio <= 0.0 || hits == [] {
      return hits;
    }
    var relevance: seq<real> := [];
    var highest := 0.0;
    for i := 0 to |hits|
      invariant |relevance| == i && forall j :: 0 <= j < i ==> relevance[j] == b.Score(hits[j].contributions)
      invariant i > 0 ==> highest == Highest(b, hits[..i])
    {
      var x := b.ScoreInLoops(hits[i].contributions);
      relevance := relevance + [x];
      assert hits[..i + 1][..i] == hits[..i];
      highest := if i == 0 || x > highest then x else highest;
    }
    assert hits[..|hits|] == hits;
    var bar := Mul(ratio, highest);
    kept := [];
    for i := 0 to |hits|
      invariant kept == Filter(hits[..i], Clears(b, bar))
    {
      assert hits[..i + 1][..i] == hits[..i];
      if relevance[i] >= bar {
        kept := kept + [hits[i]];
      }
    }
  }

  /** Search, once the candidates are collected. */
  method Rank(r: Recall, q: Pool, groups: seq<Group>) returns (keys: seq<Key>, hits: seq<Hit>)
    requires forall g :: g in groups ==> Ascends(g.members, Hash())
    ensures Lists(keys, q, r.returnable) && hits == Answer(r, keys, q, groups)
  {
    hide Contributions, Cut, Offers, Bind, PoolOf, TopKs.Best, Ascends, Lists;
    keys := KeysOf(r, q);
    var kept := TrimAll(r, groups);
    var b := ObserveAll(r.scorer, r.e, keys, q, kept);
    var best := OfferAll(r, b, keys, q, kept);
    hits := [];
    for i := 0 to |best|
      invariant hits == Map(best[..i], HitOf(q, kept))
    {
      var k := Key(best[i].key);
      var cs := LookUp(q, kept, k);
      hits := hits + [Hit(k, best[i].score, cs)];
    }
    assert best[..|best|] == best;
    hits := CutOff(r.ratio, b, hits);
  }

  // ---------------------------------------------------------------- pooling is invisible

  lemma {:induction false} FlatTrims(groups: seq<Group>, returnable: Key -> bool)
    ensures Flat(Map(groups, Trim(returnable))) == Filter(Flat(groups), returnable)
  {
    hide Filter;
    var kept := Map(groups, Trim(returnable));
    if groups == [] {
      FilterNone([], returnable);
    } else {
      var n := |groups| - 1;
      FlatTrims(groups[..n], returnable);
      assert kept[..n] == Map(groups[..n], Trim(returnable));
      FilterPermutes(Flat(groups[..n]), groups[n].members, returnable);
    }
  }

  /** Groups whose members hold what a pool with everyone listed holds. */
  ghost predicate Agree(groups: seq<Group>, w: Pool) {
    forall g, k :: g in groups && k in g.members ==> k in w && w[k] == g.contributions
  }

  lemma AgreeFront(groups: seq<Group>, w: Pool)
    requires groups != [] && Agree(groups, w)
    ensures Agree(groups[..|groups| - 1], w)
    ensures var g := groups[|groups| - 1]; forall k :: k in g.members ==> Held(w, k) == g.contributions
  {
    var g := groups[|groups| - 1];
    assert g in groups;
    var r := groups[..|groups| - 1];
    forall h | h in r ensures h in groups {
    }
  }

  lemma {:induction false} ListedOnes(s: seq<Weighed>, t: seq<Weighed>)
    requires forall i :: 0 <= i < |t| ==> t[i].weight == 1
    ensures Listed(s + t) == Listed(s) + t
  {
    if t == [] {
      assert s + t == s;
    } else {
      var n := |t| - 1;
      ListedOnes(s, t[..n]);
      assert (s + t)[..|s + t| - 1] == s + t[..n];
      OneCopy(t[n]);
      Associates(Listed(s), t[..n], [t[n]]);
      assert t == t[..n] + [t[n]];
    }
  }

  lemma OneCopy(w: Weighed)
    requires w.weight == 1
    ensures Copies(w.value, w.weight) == [w]
  {
  }

  lemma PoolStep(e: Excess, keys: seq<Key>, q: Pool, groups: seq<Group>)
    requires groups != []
    ensures var n := |groups| - 1;
            Listed(PoolOf(e, keys, q, groups))
            == Listed(PoolOf(e, keys, q, groups[..n])) + Copies(e.Fold(groups[n].contributions), |groups[n].members|)
  {
    hide Excess.Fold, Copies;
    var s, n := PoolOf(e, keys, q, groups), |groups| - 1;
    assert s[..|s| - 1] == PoolOf(e, keys, q, groups[..n]);
  }

  lemma PoolListed(e: Excess, keys: seq<Key>, q: Pool)
    ensures Listed(PoolOf(e, keys, q, [])) == Map(keys, ListedEntry(e, q))
  {
    hide Excess.Fold;
    var t := Map(keys, ListedEntry(e, q));
    ListedOnes([], t);
    assert PoolOf(e, keys, q, []) == [] + t;
  }

  lemma FlatStep<B>(keys: seq<Key>, groups: seq<Group>, f: Key -> B)
    requires groups != []
    ensures var n := |groups| - 1;
            Map(keys + Flat(groups), f) == Map(keys + Flat(groups[..n]), f) + Map(groups[n].members, f)
  {
    hide Map, Flat;
    var n := |groups| - 1;
    MapAppends(keys + Flat(groups[..n]), groups[n].members, f);
    FlatLast(groups);
    Associates(keys, Flat(groups[..n]), groups[n].members);
  }

  lemma FlatLast(groups: seq<Group>)
    requires groups != []
    ensures Flat(groups) == Flat(groups[..|groups| - 1]) + groups[|groups| - 1].members
  {
  }

  /** The pool, its groups listed one by one, is every candidate listed. */
  lemma {:induction false} PoolLists(e: Excess, keys: seq<Key>, q: Pool, groups: seq<Group>, w: Pool)
    requires Agree(groups, w) && forall k :: k in keys ==> Held(q, k) == Held(w, k)
    ensures Listed(PoolOf(e, keys, q, groups)) == Map(keys + Flat(groups), ListedEntry(e, w))
  {
    hide Excess.Fold, Listed, PoolOf, Map, Copies, Agree, Flat;
    if groups == [] {
      PoolListed(e, keys, q);
      MapsAlike(keys, ListedEntry(e, q), ListedEntry(e, w));
      NoGroups(keys);
    } else {
      var n := |groups| - 1;
      AgreeFront(groups, w);
      PoolLists(e, keys, q, groups[..n], w);
      PoolStep(e, keys, q, groups);
      CopiesOf(e, groups[n], w);
      FlatStep(keys, groups, ListedEntry(e, w));
    }
  }

  lemma CopiesOf(e: Excess, g: Group, w: Pool)
    requires forall k :: k in g.members ==> Held(w, k) == g.contributions
    ensures Copies(e.Fold(g.contributions), |g.members|) == Map(g.members, ListedEntry(e, w))
  {
    forall i | 0 <= i < |g.members| ensures Held(w, g.members[i]) == g.contributions {
      var k := g.members[i];
      assert k in g.members;
    }
  }

  lemma OffersStep(r: Recall, b: Bound, keys: seq<Key>, q: Pool, groups: seq<Group>)
    requires groups != []
    ensures var n := |groups| - 1;
            Offers(r, b, keys, q, groups)
            == Offers(r, b, keys, q, groups[..n]) + Map(groups[n].members,
                MemberOffer(r, b.Score(groups[n].contributions)))
  {
    hide Bound.Score, Map;
    var n := |groups| - 1;
    Associates(Map(keys, OfferOf(r, b, q)), GroupOffers(r, b, groups[..n]),
        Map(groups[n].members, MemberOffer(r, b.Score(groups[n].contributions))));
  }

  lemma OffersListed(r: Recall, b: Bound, keys: seq<Key>, q: Pool)
    ensures Offers(r, b, keys, q, []) == Map(keys, OfferOf(r, b, q))
  {
    hide Bound.Score, Map;
  }

  /** A group's offers are its members' own. */
  lemma {:induction false} OffersList(r: Recall, b: Bound, keys: seq<Key>, q: Pool, groups: seq<Group>, w: Pool)
    requires Agree(groups, w) && forall k :: k in keys ==> Held(q, k) == Held(w, k)
    ensures Offers(r, b, keys, q, groups) == Map(keys + Flat(groups), OfferOf(r, b, w))
  {
    hide Bound.Score, Map, Agree, Flat, Offers;
    if groups == [] {
      OffersListed(r, b, keys, q);
      MapsAlike(keys, OfferOf(r, b, q), OfferOf(r, b, w));
      NoGroups(keys);
    } else {
      var n := |groups| - 1;
      var g := groups[n];
      AgreeFront(groups, w);
      OffersList(r, b, keys, q, groups[..n], w);
      OffersStep(r, b, keys, q, groups);
      FlatStep(keys, groups, OfferOf(r, b, w));
      MapsAlike(g.members, MemberOffer(r, b.Score(g.contributions)), OfferOf(r, b, w));
    }
  }

  lemma {:induction false} FromAgreeing(groups: seq<Group>, w: Pool, k: Key)
    requires Agree(groups, w) && k in Flat(groups)
    ensures k in w && FromGroup(groups, k) == w[k]
  {
    FlatHas(groups, k);
    var g :| g in groups && k in g.members;
    var h := groups[0];
    assert h in groups;
    if k !in h.members {
      FlatHas(groups[1..], k);
      assert g in groups[1..];
      FromAgreeing(groups[1..], w, k);
    }
  }

  /** Listed candidates and groups that together hold a pool with everyone listed answer
      every recall as that pool does. */
  lemma SameAnswer(r: Recall, keys: seq<Key>, q: Pool, groups: seq<Group>, all: seq<Key>, w: Pool)
    requires Agree(groups, w) && NoRepeats(Flat(groups))
    requires forall k :: k in q ==> k in w && w[k] == q[k] && k !in Flat(groups)
    requires forall k :: k in w <==> k in q || k in Flat(groups)
    requires Lists(keys, q, r.returnable) && Lists(all, w, r.returnable)
    ensures Answer(r, keys, q, groups) == Answer(r, all, w, [])
  {
    hide Flat, Agree, Filter, Bind, Bound.Score, Offers, PoolOf, TopKs.Best, Cut, NoRepeats, Excess.Fold, Listed;
    var kept := Map(groups, Trim(r.returnable));
    KeptAgree(groups, r.returnable, w);
    var everyone := keys + Flat(kept);
    EveryoneOnce(r.returnable, keys, q, groups, all, w);
    SameScorer(r, keys, q, kept, all, w);
    var b := ScorerOf(r, keys, q, kept);
    SameOffers(r, b, keys, q, kept, all, w);
    var none: seq<Group> := Map([], Trim(r.returnable));
    assert none == [];
    var best := TopKs.Best(Offers(r, b, all, w, []), r.top);
    forall e | e in best ensures HitOf(q, kept)(e) == HitOf(w, [])(e) {
      SameHit(r, b, keys, q, kept, all, w, e);
    }
    MapsAlike(best, HitOf(q, kept), HitOf(w, []));
  }

  lemma KeptAgree(groups: seq<Group>, returnable: Key -> bool, w: Pool)
    requires Agree(groups, w)
    ensures Agree(Map(groups, Trim(returnable)), w)
  {
    var kept := Map(groups, Trim(returnable));
    forall i, k | 0 <= i < |kept| && k in kept[i].members ensures k in w && w[k] == kept[i].contributions {
      Filters(groups[i].members, returnable);
      var g := groups[i];
      assert g in groups;
    }
  }

  /** The returnable candidates, listed and grouped, are all of them, each once. */
  lemma EveryoneOnce(returnable: Key -> bool, keys: seq<Key>, q: Pool, groups: seq<Group>, all: seq<Key>, w: Pool)
    requires NoRepeats(Flat(groups))
    requires forall k :: k in q ==> k !in Flat(groups)
    requires forall k :: k in w <==> k in q || k in Flat(groups)
    requires Lists(keys, q, returnable) && Lists(all, w, returnable)
    ensures multiset(keys + Flat(Map(groups, Trim(returnable)))) == multiset(all)
    ensures forall k :: k in Flat(Map(groups, Trim(returnable))) ==> k !in q
  {
    hide Flat, Filter, NoRepeats, Map, Trim;
    FlatTrims(groups, returnable);
    Filters(Flat(groups), returnable);
    var f := Filter(Flat(groups), returnable);
    JoinedOnce(keys, f);
    SameOnce(keys + f, all);
  }

  lemma SameScorer(r: Recall, keys: seq<Key>, q: Pool, kept: seq<Group>, all: seq<Key>, w: Pool)
    requires Agree(kept, w) && (forall k :: k in q ==> k in w && w[k] == q[k]) && forall k :: k in keys ==> k in q
    requires multiset(keys + Flat(kept)) == multiset(all)
    ensures ScorerOf(r, keys, q, kept) == ScorerOf(r, all, w, [])
  {
    hide Flat, Bind, PoolOf, Excess.Fold, Listed;
    PoolLists(r.e, keys, q, kept, w);
    WeighedIsListed(r.scorer, r.e, PoolOf(r.e, keys, q, kept));
    PoolLists(r.e, all, w, [], w);
    WeighedIsListed(r.scorer, r.e, PoolOf(r.e, all, w, []));
    MapPermutes(keys + Flat(kept), all, ListedEntry(r.e, w));
    NoGroups(all);
    BindPermutes(r.scorer, r.e, Listed(PoolOf(r.e, keys, q, kept)), Listed(PoolOf(r.e, all, w, [])));
  }

  lemma NoGroups(all: seq<Key>)
    ensures all + Flat([]) == all
  {
  }

  lemma SameOffers(r: Recall, b: Bound, keys: seq<Key>, q: Pool, kept: seq<Group>, all: seq<Key>, w: Pool)
    requires Agree(kept, w) && (forall k :: k in q ==> k in w && w[k] == q[k]) && forall k :: k in keys ==> k in q
    requires multiset(keys + Flat(kept)) == multiset(all)
    ensures TopKs.Best(Offers(r, b, keys, q, kept), r.top) == TopKs.Best(Offers(r, b, all, w, []), r.top)
  {
    hide Flat, Offers, TopKs.Best, Bound.Score;
    OffersList(r, b, keys, q, kept, w);
    OffersList(r, b, all, w, [], w);
    NoGroups(all);
    MapPermutes(keys + Flat(kept), all, OfferOf(r, b, w));
    TopKs.BestPermutes(Offers(r, b, keys, q, kept), Offers(r, b, all, w, []), r.top);
  }

  lemma SameHit(r: Recall, b: Bound, keys: seq<Key>, q: Pool, kept: seq<Group>, all: seq<Key>, w: Pool, e: TopKs.Entry)
    requires Agree(kept, w) && (forall k :: k in q ==> k in w && w[k] == q[k]) && forall k :: k in keys ==> k in q
    requires multiset(keys + Flat(kept)) == multiset(all) && Lists(all, w, r.returnable)
    requires e in TopKs.Best(Offers(r, b, all, w, []), r.top)
    ensures HitOf(q, kept)(e) == HitOf(w, [])(e)
  {
    hide Flat, Offers, TopKs.Best, Bound.Score, FromGroup;
    TopKs.BestOffered(Offers(r, b, all, w, []), r.top, e);
    OffersList(r, b, all, w, [], w);
    NoGroups(all);
    var i :| 0 <= i < |all| && Map(all, OfferOf(r, b, w))[i] == e;
    var k := all[i];
    assert Key(e.key) == k && k in all;
    SameItems(keys + Flat(kept), all);
    if k !in q {
      assert k in Flat(kept);
      FromAgreeing(kept, w, k);
    }
  }

  /** Pooling what one anchor alone reaches answers every recall as listing every member
      does: the same hits, in the same order, with the same scores and contributions. */
  lemma PoolingInvisible(x: Expansion, p: Pool, sent: Key -> Contribution, q: Pool, groups: seq<Group>, r: Recall,
      keys: seq<Key>, all: seq<Key>)
    requires Pooled(x, p, sent, q, groups)
    requires Lists(keys, q, r.returnable) && Lists(all, Everyone(x, p, sent), r.returnable)
    ensures Answer(r, keys, q, groups) == Answer(r, all, Everyone(x, p, sent), [])
  {
    hide Flat, Whole, Answer;
    var w := Everyone(x, p, sent);
    forall g, k | g in groups && k in g.members ensures k in w && w[k] == g.contributions {
      FlatHas(groups, k);
    }
    SameAnswer(r, keys, q, groups, all, w);
  }

  /** The anchor round and the ranking after it, against listing everyone. */
  method PoolAndRank(x: Expansion, p: Pool, sent: Key -> Contribution, r: Recall) returns (hits: seq<Hit>)
    requires x.Valid()
    ensures forall all :: Lists(all, Everyone(x, p, sent), r.returnable) ==>
            hits == Answer(r, all, Everyone(x, p, sent), [])
  {
    hide Answer, Lists, Everyone, Expansion.Valid;
    var q, groups := PoolMembers(x, p, sent);
    var keys;
    keys, hits := Rank(r, q, groups);
    forall all | Lists(all, Everyone(x, p, sent), r.returnable)
        ensures hits == Answer(r, all, Everyone(x, p, sent), []) {
      PoolingInvisible(x, p, sent, q, groups, r, keys, all);
    }
  }
}
