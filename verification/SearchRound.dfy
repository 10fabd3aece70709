/** A search end to end, once its seeds are gathered: both walks of the anchor round, the
    masses, admission, pooling and ranking. It answers as the graph says, read directly:
    every candidate listed with one contribution per transmitting anchor beside it. */
module Searches {
  import opened AnchorRound
  import opened Keys
  import opened Pooling
  import opened Ranking
  import opened Scoring
  import opened Sequences
  import opened Traversals
  import opened Wrappers

  /** The traversal a graph has installed. */
  datatype Walker = Across | Breadth(dir: Direction)

  /** What the round reads: the graph, the scorer, the seeds with what the indexes found of
      them, the anchors the query names, and the depth. */
  datatype Question = Question(
    g: View<Key>,
    anchor: Key -> bool,
    walker: Walker,
    scorer: Scorer,
    seeds: seq<Key>,
    found: Pool,
    named: set<Key>,
    depth: int,
    missed: real)

  // ---------------------------------------------------------------- what the walks give

  /** The round runs only for a query that names an anchor, at some depth. */
  predicate Traverses(q: Question) { q.depth >= 1 && q.seeds != [] && q.named != {} }

  /** A seed's mass: its own contributions, folded before anything else is observed. */
  function SeedMass(q: Question, k: Key): real {
    if k in q.seeds then Bind(q.scorer, Excess(0.0, q.missed), []).Score(Held(q.found, k)) else 0.0
  }

  function MassOf(q: Question, seeds: seq<Key>): real {
    if seeds == [] then 0.0 else MassOf(q, seeds[..|seeds| - 1]) + SeedMass(q, seeds[|seeds| - 1])
  }

  /** The anchors heard, each with the seeds that fund it. */
  type Heard = map<Key, seq<Key>>

  function AnchorIn(q: Question, h: Heard): Key -> Anchor {
    (k: Key) => Anchor(k, MassOf(q, if k in h then h[k] else []), |q.g.Neighbours(k)|, k in q.named)
  }

  /** What an anchor sends each of its members. */
  function SentAt(q: Question, h: Heard, k: Key): Contribution
    requires k in h
  {
    Contribution(FromGraph, MassOf(q, h[k]), k, |q.g.Neighbours(k)|, |h[k]|, k in q.named, 0.0, 0)
  }

  const NOTHING := Contribution(FromGraph, 0.0, Key(0), 0, 0, false, 0.0, 0)

  function SentBy(m: map<Key, Contribution>): Key -> Contribution { (k: Key) => if k in m then m[k] else NOTHING }

  function Transmissions(q: Question, h: Heard): map<Key, Contribution> { map k | k in h :: SentAt(q, h, k) }

  /** The anchors heard, in ascending order. */
  ghost predicate InOrder(ks: seq<Key>, h: Heard) {
    NoRepeats(ks) && Ascends(ks, Hash()) && forall k :: k in ks <==> k in h
  }

  function Background(anchors: seq<Anchor>): real {
    if TotalDegree(anchors) > 0 then TotalMass(anchors) / TotalDegree(anchors) as real else 0.0
  }

  /** The keys of the anchors that transmit. */
  function Senders(q: Question, h: Heard, ks: seq<Key>): seq<Key>
    requires q.depth >= 0
  {
    var anchors := Map(ks, AnchorIn(q, h));
    Map(Transmitting(anchors, TotalMass(anchors), TotalDegree(anchors), q.depth), KeyOf())
  }

  function KeyOf(): Anchor -> Key { (a: Anchor) => a.key }

  /** What the round leaves a search: the background rate, and every candidate listed. */
  datatype Outcome = Outcome(background: real, pool: Pool)

  // ---------------------------------------------------------------- either traversal

  ghost predicate WalkOf(q: Question, sources: seq<Key>, r: Option<Walk<Key>>) {
    && (r.None? <==> forall k :: k in sources ==> k !in q.g.held)
    && (r.Some? ==>
          match q.walker
          case Across => Incident(q.g, q.anchor, sources, r.value)
          case Breadth(dir) => Shortest(q.g, dir, sources, r.value))
  }

  predicate IsHeard(q: Question, w: Walk<Key>, k: Key) {
    k in w.depth && w.depth[k] == 1 && q.anchor(k) && k in w.parent
  }

  /** The anchors a walk from the seeds reached at depth 1. */
  function HeardIn(q: Question, w: Walk<Key>): Heard { map k | k in w.order && IsHeard(q, w, k) :: ReachedFrom(w, k) }

  /** The pool after the second walk, everyone listed. */
  function Told(q: Question, h: Heard, r: Option<Walk<Key>>): Pool {
    if r.Some? && r.value.parent.Keys == r.value.depth.Keys
    then Everyone(Expanded(r.value), q.found, SentBy(Transmissions(q, h)))
    else q.found
  }

  ghost predicate After(q: Question, h: Heard, o: Outcome)
    requires q.depth >= 0
  {
    exists ks, r ::
      && InOrder(ks, h) && WalkOf(q, Senders(q, h, ks), r)
      && o == Outcome(Background(Map(ks, AnchorIn(q, h))), Told(q, h, r))
  }

  /** The outcome of some run of the walks. */
  ghost predicate Rounds(q: Question, o: Outcome) {
    if !Traverses(q) then o == Outcome(0.0, q.found)
    else exists r :: WalkOf(q, q.seeds, r) && After(q, if r.Some? then HeardIn(q, r.value) else map[], o)
  }

  /** The installed traversal, run from some sources. */
  method Walk(q: Question, sources: seq<Key>) returns (r: Option<Walk<Key>>)
    ensures WalkOf(q, sources, r)
  {
    hide Incident, Shortest, Ascends, Firsts;
    match q.walker
    case Across => r := OneStep(q.g, q.anchor, Hash(), sources);
    case Breadth(dir) => r := BreadthFirst(q.g, dir, sources);
  }

  // ---------------------------------------------------------------- the round

  /** Every seed's mass, fixed before any anchor's contribution is appended. */
  method SeedMasses(q: Question) returns (m: map<Key, real>)
    ensures forall k :: k in m <==> k in q.seeds
    ensures forall k :: k in m ==> m[k] == SeedMass(q, k)
  {
    hide Bind, Bound.Score, PoolOf;
    var e := Excess(0.0, q.missed);
    var seeding := ObserveAll(q.scorer, e, [], map[], []);
    assert PoolOf(e, [], map[], []) == [] by { NobodyPooled(e); }
    m := map[];
    for i := 0 to |q.seeds|
      invariant forall k :: k in m <==> k in q.seeds[..i]
      invariant forall k :: k in m ==> m[k] == SeedMass(q, k)
    {
      var s := q.seeds[i];
      var mass := seeding.ScoreInLoops(Held(q.found, s));
      m := m[s := mass];
      assert q.seeds[..i + 1] == q.seeds[..i] + [s];
    }
    assert q.seeds[..|q.seeds|] == q.seeds;
  }

  lemma NobodyPooled(e: Excess)
    ensures PoolOf(e, [], map[], []) == []
  {
  }

  /** What an anchor's seeds fund it with. */
  method Fund(q: Question, m: map<Key, real>, seeds: seq<Key>) returns (mass: real)
    requires forall k :: k in m <==> k in q.seeds
    requires forall k :: k in m ==> m[k] == SeedMass(q, k)
    ensures mass == MassOf(q, seeds)
  {
    hide Bind, Bound.Score;
    mass := 0.0;
    for i := 0 to |seeds|
      invariant mass == MassOf(q, seeds[..i])
    {
      assert seeds[..i + 1][..i] == seeds[..i];
      var s := seeds[i];
      mass := mass + if s in m then m[s] else 0.0;
    }
    assert seeds[..|seeds|] == seeds;
  }

  /** Pass 1: the anchors a walk reached at depth 1, their seeds and their masses. */
  method Listen(q: Question, w: Walk<Key>, m: map<Key, real>)
    returns (h: Heard, masses: map<Key, real>, ks: seq<Key>)
    requires NoRepeats(w.order)
    requires forall k :: k in m <==> k in q.seeds
    requires forall k :: k in m ==> m[k] == SeedMass(q, k)
    ensures h == HeardIn(q, w) && InOrder(ks, h)
    ensures masses.Keys == h.Keys && forall k :: k in h ==> masses[k] == MassOf(q, h[k])
  {
    hide MassOf, SeedMass, NoRepeats, ReachedFrom, HeardIn, InOrder, Listening, Ascends;
    h, masses := map[], map[];
    var touched: seq<Key> := [];
    NothingHeard(q, w);
    for i := 0 to |w.order|
      invariant touched == Filter(w.order[..i], HeardTest(q, w)) && Listening(q, w, w.order[..i], h, masses)
    {
      var k := w.order[i];
      assert w.order[..i + 1] == w.order[..i] + [k];
      FilterOne(w.order[..i], k, HeardTest(q, w));
      if k in w.depth && w.depth[k] == 1 && q.anchor(k) && k in w.parent {
        touched := touched + [k];
        var mass := Fund(q, m, ReachedFrom(w, k));
        ListenOn(q, w, w.order[..i], h, masses, k);
        h, masses := h[k := ReachedFrom(w, k)], masses[k := mass];
      } else {
        ListenPast(q, w, w.order[..i], h, masses, k);
      }
    }
    assert w.order[..|w.order|] == w.order;
    ks := SortBy(touched, Hash());
    AllHeard(q, w, h, masses, touched);
  }

  /** What has been heard of the first vertices of a walk. */
  ghost predicate Listening(q: Question, w: Walk<Key>, done: seq<Key>, h: Heard, masses: map<Key, real>) {
    && (forall k :: k in h <==> k in done && IsHeard(q, w, k))
    && (forall k :: k in h ==> h[k] == ReachedFrom(w, k))
    && masses.Keys == h.Keys && (forall k :: k in h ==> masses[k] == MassOf(q, h[k]))
  }

  lemma NothingHeard(q: Question, w: Walk<Key>)
    ensures Listening(q, w, w.order[..0], map[], map[]) && Filter(w.order[..0], HeardTest(q, w)) == []
  {
  }

  lemma ListenOn(q: Question, w: Walk<Key>, done: seq<Key>, h: Heard, masses: map<Key, real>, k: Key)
    requires Listening(q, w, done, h, masses) && IsHeard(q, w, k)
    ensures Listening(q, w, done + [k], h[k := ReachedFrom(w, k)], masses[k := MassOf(q, ReachedFrom(w, k))])
  {
    hide MassOf, ReachedFrom;
  }

  lemma ListenPast(q: Question, w: Walk<Key>, done: seq<Key>, h: Heard, masses: map<Key, real>, k: Key)
    requires Listening(q, w, done, h, masses) && !IsHeard(q, w, k)
    ensures Listening(q, w, done + [k], h, masses)
  {
    hide MassOf, ReachedFrom;
  }

  lemma AllHeard(q: Question, w: Walk<Key>, h: Heard, masses: map<Key, real>, touched: seq<Key>)
    requires NoRepeats(w.order) && Listening(q, w, w.order, h, masses) && touched == Filter(w.order, HeardTest(q, w))
    ensures h == HeardIn(q, w) && InOrder(SortBy(touched, Hash()), h)
    ensures masses.Keys == h.Keys && forall k :: k in h ==> masses[k] == MassOf(q, h[k])
  {
    hide MassOf, ReachedFrom, NoRepeats, Ascends;
    var ks := SortBy(touched, Hash());
    Filters(w.order, HeardTest(q, w));
    SortByKeeps(touched, Hash());
    Reordered(touched, ks);
    SameItems(touched, ks);
  }

  function HeardTest(q: Question, w: Walk<Key>): Key -> bool { (k: Key) => IsHeard(q, w, k) }

  method Weigh(q: Question, ghost h: Heard, masses: map<Key, real>, ks: seq<Key>) returns (anchors: seq<Anchor>)
    requires InOrder(ks, h) && masses.Keys == h.Keys && forall k :: k in h ==> masses[k] == MassOf(q, h[k])
    ensures anchors == Map(ks, AnchorIn(q, h))
  {
    hide MassOf, NoRepeats, Ascends;
    anchors := [];
    for i := 0 to |ks|
      invariant anchors == Map(ks[..i], AnchorIn(q, h))
    {
      var k := ks[i];
      assert k in ks;
      anchors := anchors + [Anchor(k, masses[k], |q.g.Neighbours(k)|, k in q.named)];
    }
    assert ks[..|ks|] == ks;
  }

  method Send(q: Question, h: Heard, masses: map<Key, real>) returns (sent: map<Key, Contribution>)
    requires masses.Keys == h.Keys && forall k :: k in h ==> masses[k] == MassOf(q, h[k])
    ensures sent == Transmissions(q, h)
  {
    hide MassOf;
    sent := map k | k in h :: Contribution(FromGraph, masses[k], k, |q.g.Neighbours(k)|, |h[k]|, k in q.named, 0.0, 0);
  }

  method KeysOfAll(anchors: seq<Anchor>) returns (ks: seq<Key>)
    ensures ks == Map(anchors, KeyOf())
  {
    ks := [];
    for i := 0 to |anchors|
      invariant ks == Map(anchors[..i], KeyOf())
    {
      ks := ks + [anchors[i].key];
    }
    assert anchors[..|anchors|] == anchors;
  }

  /** Listed candidates and groups that hold just what listing everyone gives. */
  ghost predicate Stands(pool: Pool, groups: seq<Group>, all: Pool) {
    && Agree(groups, all) && NoRepeats(Flat(groups))
    && (forall k :: k in pool ==> k in all && all[k] == pool[k] && k !in Flat(groups))
    && (forall k :: k in all <==> k in pool || k in Flat(groups))
    && (forall g :: g in groups ==> Ascends(g.members, Hash()))
  }

  lemma StandsAlone(pool: Pool)
    ensures Stands(pool, [], pool)
  {
  }

  lemma PooledStands(x: Expansion, p: Pool, sent: Key -> Contribution, pool: Pool, groups: seq<Group>)
    requires Pooled(x, p, sent, pool, groups)
    ensures Stands(pool, groups, Everyone(x, p, sent))
  {
    hide Whole, Ascends, NoRepeats;
    var all := Everyone(x, p, sent);
    forall g, k | g in groups && k in g.members ensures k in all && all[k] == g.contributions {
      FlatHas(groups, k);
    }
  }

  lemma WalkExpands(q: Question, sources: seq<Key>, w: Walk<Key>)
    requires WalkOf(q, sources, Some(w))
    ensures w.parent.Keys == w.depth.Keys && NoRepeats(w.order) && Expanded(w).Valid()
  {
    match q.walker
    case Across => WalksExpand(q.g, Both, q.anchor, sources, w);
    case Breadth(dir) => WalksExpand(q.g, dir, q.anchor, sources, w);
  }

  /** A background, a pool and groups that stand for some run's outcome. */
  ghost predicate Rounded(q: Question, background: real, pool: Pool, groups: seq<Group>) {
    exists all :: Rounds(q, Outcome(background, all)) && Stands(pool, groups, all)
  }

  /** findNeighbours: observe the anchors around the seeds, expand those that transmit, and
      pool what they reach. */
  method FindNeighbours(q: Question) returns (background: real, pool: Pool, groups: seq<Group>)
    ensures Rounded(q, background, pool, groups)
  {
    hide WalkOf, HeardIn, Stands, Transmissions, Everyone, Expansion.Valid, Transmitting, TotalMass, NoRepeats, Told,
         InOrder;
    StandsAlone(q.found);
    if !Traverses(q) {
      assert Rounds(q, Outcome(0.0, q.found));
      return 0.0, q.found, [];
    }
    var m := SeedMasses(q);
    var observed := Walk(q, q.seeds);
    if observed.None? {
      NobodyHeard(q, Outcome(0.0, q.found));
      return 0.0, q.found, [];
    }
    WalkExpands(q, q.seeds, observed.value);
    var h, masses, ks := Listen(q, observed.value, m);
    var anchors := Weigh(q, h, masses, ks);
    var transmitting;
    transmitting, background := Admit(anchors, q.depth);
    var senders := KeysOfAll(transmitting);
    assert senders == Senders(q, h, ks);
    var expanded := None;
    if senders != [] {
      expanded := Walk(q, senders);
    } else {
      NoSenders(q);
    }
    ghost var o := Outcome(background, Told(q, h, expanded));
    assert After(q, h, o);
    if expanded.None? {
      NobodyTold(q, h);
      return background, q.found, [];
    }
    WalkExpands(q, senders, expanded.value);
    var sent := Send(q, h, masses);
    pool, groups := PoolMembers(Expanded(expanded.value), q.found, SentBy(sent));
    PooledStands(Expanded(expanded.value), q.found, SentBy(sent), pool, groups);
    Everyones(q, h, expanded.value);
  }

  lemma NobodyHeard(q: Question, o: Outcome)
    requires Traverses(q) && o == Outcome(0.0, q.found) && WalkOf(q, q.seeds, None)
    ensures Rounds(q, o)
  {
    var ks: seq<Key> := [];
    assert InOrder(ks, map[]) && Map(ks, AnchorIn(q, map[])) == [];
    assert Senders(q, map[], ks) == [];
    assert WalkOf(q, [], None) && Told(q, map[], None) == q.found;
    assert After(q, map[], o);
  }

  lemma NoSenders(q: Question)
    ensures WalkOf(q, [], None)
  {
  }

  lemma NobodyTold(q: Question, h: Heard)
    ensures Told(q, h, None) == q.found
  {
  }

  lemma Everyones(q: Question, h: Heard, w: Walk<Key>)
    requires w.parent.Keys == w.depth.Keys
    ensures Told(q, h, Some(w)) == Everyone(Expanded(w), q.found, SentBy(Transmissions(q, h)))
  {
  }

  // ---------------------------------------------------------------- the round, read off the graph

  function Around(g: View<Key>, ks: seq<Key>): set<Key> { set s, k | s in ks && k in g.Neighbours(s) :: k }

  /** The held ones among some vertices that step to another. */
  function ReachedBy(q: Question, ks: seq<Key>, k: Key): seq<Key> {
    Filter(Firsts(ks, q.g.held), StepsTo(q.g, q.anchor, k))
  }

  /** Every anchor beside a seed, with the seeds beside it. */
  function HeardBy(q: Question): Heard {
    map k | k in Around(q.g, q.seeds) && q.anchor(k) && ReachedBy(q, q.seeds, k) != [] :: ReachedBy(q, q.seeds, k)
  }

  /** Every candidate with what was found of it, then what each sender beside it sends. */
  function PoolBy(q: Question, h: Heard, senders: seq<Key>): Pool {
    map k | k in q.found.Keys + Around(q.g, senders) && (k in q.found || ReachedBy(q, senders, k) != []) ::
      Held(q.found, k) + Map(ReachedBy(q, senders, k), SentBy(Transmissions(q, h)))
  }

  /** The outcome read off the graph. */
  ghost predicate Reads(q: Question, o: Outcome) {
    if !Traverses(q) then o == Outcome(0.0, q.found)
    else exists ks ::
      && InOrder(ks, HeardBy(q))
      && o == Outcome(Background(Map(ks, AnchorIn(q, HeardBy(q)))), PoolBy(q, HeardBy(q), Senders(q, HeardBy(q), ks)))
  }

  /** Something is reached exactly when some held vertex steps to it, so it lies around. */
  lemma ReachedIff(q: Question, ks: seq<Key>, k: Key)
    ensures ReachedBy(q, ks, k) != [] <==> exists s :: s in ks && s in q.g.held && StepsTo(q.g, q.anchor, k)(s)
    ensures ReachedBy(q, ks, k) != [] ==> k in Around(q.g, ks)
  {
    FirstsHold(ks, q.g.held);
    Filters(Firsts(ks, q.g.held), StepsTo(q.g, q.anchor, k));
    var r := ReachedBy(q, ks, k);
    if r != [] {
      assert r[0] in r;
    }
    if exists s :: s in ks && s in q.g.held && StepsTo(q.g, q.anchor, k)(s) {
      var s :| s in ks && s in q.g.held && StepsTo(q.g, q.anchor, k)(s);
      assert s in r;
    }
  }

  lemma IncidentReached(q: Question, ks: seq<Key>, w: Walk<Key>, k: Key)
    requires Incident(q.g, q.anchor, ks, w)
    ensures k in w.order <==> ReachedBy(q, ks, k) != []
    ensures k in w.order ==> k in w.parent && k in w.depth && w.depth[k] == 1
    ensures k in w.order ==> ReachedFrom(w, k) == ReachedBy(q, ks, k)
  {
    hide Filter, Firsts, NoRepeats;
    ReachedIff(q, ks, k);
  }

  lemma HeardAcross(q: Question, w: Walk<Key>)
    requires Incident(q.g, q.anchor, q.seeds, w)
    ensures HeardIn(q, w) == HeardBy(q)
  {
    hide Incident, ReachedBy, ReachedFrom, Around;
    forall k ensures k in HeardIn(q, w) <==> k in HeardBy(q)
             ensures k in HeardIn(q, w) ==> HeardIn(q, w)[k] == ReachedBy(q, q.seeds, k) {
      IncidentReached(q, q.seeds, w, k);
      ReachedIff(q, q.seeds, k);
    }
  }

  lemma NoneAcross(q: Question, ks: seq<Key>)
    requires forall k :: k in ks ==> k !in q.g.held
    ensures forall k :: ReachedBy(q, ks, k) == []
  {
    forall k ensures ReachedBy(q, ks, k) == [] {
      ReachedIff(q, ks, k);
    }
  }

  lemma ListedAcross(q: Question, sent: Key -> Contribution, ks: seq<Key>, w: Walk<Key>, k: Key)
    requires Incident(q.g, q.anchor, ks, w) && w.parent.Keys == w.depth.Keys
    ensures var all := Everyone(Expanded(w), q.found, sent);
            && (k in all <==> k in q.found || ReachedBy(q, ks, k) != [])
            && (k in all ==> all[k] == Held(q.found, k) + Map(ReachedBy(q, ks, k), sent))
  {
    IncidentReached(q, ks, w, k);
    hide Incident, ReachedBy, ReachedFrom, Held;
    var x := Expanded(w);
    assert x.Member(k) <==> k in w.order;
    if k in w.order {
      assert x.reached[k] == ReachedBy(q, ks, k);
    }
  }

  lemma PoolAt(q: Question, h: Heard, ks: seq<Key>, k: Key)
    ensures var all := PoolBy(q, h, ks);
            && (k in all <==> k in q.found || ReachedBy(q, ks, k) != [])
            && (k in all ==> all[k] == Held(q.found, k) + Map(ReachedBy(q, ks, k), SentBy(Transmissions(q, h))))
  {
    ReachedIff(q, ks, k);
    hide ReachedBy, Around, Transmissions, Held;
  }

  lemma SamePool(p: Pool, q: Pool)
    requires forall k :: (k in p <==> k in q) && (k in p ==> p[k] == q[k])
    ensures p == q
  {
  }

  lemma ToldAcross(q: Question, h: Heard, ks: seq<Key>, r: Option<Walk<Key>>)
    requires q.walker.Across? && WalkOf(q, ks, r)
    ensures Told(q, h, r) == PoolBy(q, h, ks)
  {
    var sent := SentBy(Transmissions(q, h));
    if r.None? {
      NoneAcross(q, ks);
      hide ReachedBy, PoolBy, Transmissions;
      forall k ensures (k in PoolBy(q, h, ks) <==> k in q.found)
                       && (k in q.found ==> PoolBy(q, h, ks)[k] == q.found[k]) {
        PoolAt(q, h, ks, k);
        assert Map([], sent) == [];
      }
      SamePool(PoolBy(q, h, ks), q.found);
    } else {
      var w := r.value;
      assert w.parent.Keys == w.depth.Keys;
      hide Incident, ReachedBy, PoolBy, Transmissions, Everyone, Expanded, Held;
      forall k ensures (k in Told(q, h, r) <==> k in PoolBy(q, h, ks))
                       && (k in Told(q, h, r) ==> Told(q, h, r)[k] == PoolBy(q, h, ks)[k]) {
        ListedAcross(q, sent, ks, w, k);
        PoolAt(q, h, ks, k);
      }
      SamePool(Told(q, h, r), PoolBy(q, h, ks));
    }
  }

  /** With the facts-and-anchors traversal the round's outcome is the one read off the
      graph. */
  lemma AcrossReads(q: Question, o: Outcome)
    requires q.walker.Across? && Rounds(q, o)
    ensures Reads(q, o)
  {
    hide HeardIn, HeardBy, Told, PoolBy, InOrder, Senders, Incident;
    if Traverses(q) {
      var r :| WalkOf(q, q.seeds, r) && After(q, if r.Some? then HeardIn(q, r.value) else map[], o);
      var h := if r.Some? then HeardIn(q, r.value) else map[];
      if r.Some? {
        HeardAcross(q, r.value);
      } else {
        NoneHeard(q);
      }
      var ks, t :| InOrder(ks, h) && WalkOf(q, Senders(q, h, ks), t)
        && o == Outcome(Background(Map(ks, AnchorIn(q, h))), Told(q, h, t));
      ToldAcross(q, h, Senders(q, h, ks), t);
    }
  }

  lemma NoneHeard(q: Question)
    requires forall k :: k in q.seeds ==> k !in q.g.held
    ensures HeardBy(q) == map[]
  {
    NoneAcross(q, q.seeds);
  }

  lemma FrontAscends(a: seq<Key>)
    requires NoRepeats(a) && Ascends(a, Hash()) && a != []
    ensures var m := |a| - 1;
            && NoRepeats(a[..m]) && Ascends(a[..m], Hash()) && a[m] !in a[..m]
            && forall k :: k in a <==> k in a[..m] || k == a[m]
  {
    var m := |a| - 1;
    assert a == a[..m] + [a[m]];
  }

  lemma {:induction false} AscendingOnce(a: seq<Key>, b: seq<Key>)
    requires NoRepeats(a) && NoRepeats(b) && Ascends(a, Hash()) && Ascends(b, Hash())
    requires forall k :: k in a <==> k in b
    ensures a == b
  {
    hide NoRepeats, Ascends;
    if a == [] {
      NobodyIn(b);
    } else if b == [] {
      NobodyIn(a);
    } else {
      var m, n := |a| - 1, |b| - 1;
      LastLeads(a, b);
      LastLeads(b, a);
      FrontAscends(a);
      FrontAscends(b);
      assert a[m] == b[n];
      AscendingOnce(a[..m], b[..n]);
      assert a == a[..m] + [a[m]] && b == b[..n] + [b[n]];
    }
  }

  lemma NobodyIn(s: seq<Key>)
    requires forall k :: k !in s
    ensures s == []
  {
    if s != [] {
      FirstIn(s);
    }
  }

  lemma FirstIn(s: seq<Key>)
    requires s != []
    ensures exists k :: k in s
  {
    assert s[0] in s;
  }

  lemma LastLeads(a: seq<Key>, b: seq<Key>)
    requires a != [] && b != [] && Ascends(a, Hash()) && forall k :: k in b ==> k in a
    ensures Hash()(b[|b| - 1]) <= Hash()(a[|a| - 1])
  {
    var x := b[|b| - 1];
    assert x in b;
    var i :| 0 <= i < |a| && a[i] == x;
    assert i < |a| - 1 ==> Hash()(a[i]) <= Hash()(a[|a| - 1]);
  }

  /** There is one such outcome. */
  lemma ReadsOnce(q: Question, o: Outcome, p: Outcome)
    requires Reads(q, o) && Reads(q, p)
    ensures o == p
  {
    hide HeardBy, PoolBy, Senders;
    if Traverses(q) {
      var h := HeardBy(q);
      var ks :| InOrder(ks, h) && o == Outcome(Background(Map(ks, AnchorIn(q, h))), PoolBy(q, h, Senders(q, h, ks)));
      var ls :| InOrder(ls, h) && p == Outcome(Background(Map(ls, AnchorIn(q, h))), PoolBy(q, h, Senders(q, h, ls)));
      AscendingOnce(ks, ls);
    }
  }

  // ---------------------------------------------------------------- the search

  function RecallOf(q: Question, o: Outcome, s: Settings): Recall {
    Recall(q.scorer, Excess(o.background, q.missed), s.returnable, s.decay, s.top, s.ratio)
  }

  /** What a search ranks by beside the scorer. */
  datatype Settings = Settings(returnable: Key -> bool, decay: (real, Key) -> real, top: int, ratio: real)

  /** The hits of an outcome: what ranking its candidates gives, each listed one by one. */
  ghost predicate HitsOf(q: Question, s: Settings, o: Outcome, hits: seq<Hit>) {
    exists all :: Lists(all, o.pool, s.returnable) && hits == Answer(RecallOf(q, o, s), all, o.pool, [])
  }

  /** The hits of some run of the round. */
  ghost predicate Answered(q: Question, s: Settings, hits: seq<Hit>) {
    exists o :: Rounds(q, o) && HitsOf(q, s, o, hits)
  }

  /** A recall from its gathered seeds. */
  method Search(q: Question, s: Settings) returns (hits: seq<Hit>)
    ensures Answered(q, s, hits)
  {
    hide Rounds, Answer, Lists, Flat, Agree, NoRepeats, Ascends;
    var background, pool, groups := FindNeighbours(q);
    ghost var all :| Rounds(q, Outcome(background, all)) && Stands(pool, groups, all);
    var r := Recall(q.scorer, Excess(background, q.missed), s.returnable, s.decay, s.top, s.ratio);
    var keys;
    keys, hits := Rank(r, pool, groups);
    ghost var listed := SomeList(all, s.returnable);
    SameAnswer(r, keys, pool, groups, listed, all);
    assert HitsOf(q, s, Outcome(background, all), hits);
  }

  lemma {:induction false} SomeList(p: Pool, returnable: Key -> bool) returns (all: seq<Key>)
    ensures Lists(all, p, returnable)
    decreases p.Keys
  {
    if p == map[] {
      return [];
    }
    var k :| k in p;
    var rest := p - {k};
    assert k !in rest.Keys && rest.Keys < p.Keys;
    all := SomeList(rest, returnable);
    if returnable(k) {
      all := all + [k];
    }
  }

  /** With the facts-and-anchors traversal a recall has one answer: it does not depend on
      the order of the walks, on how the candidates are listed, or on what is pooled. */
  lemma OneAnswer(q: Question, s: Settings, hits: seq<Hit>, others: seq<Hit>)
    requires q.walker.Across? && Answered(q, s, hits) && Answered(q, s, others)
    ensures hits == others
  {
    hide Rounds, Reads, Answer, Lists;
    var o :| Rounds(q, o) && HitsOf(q, s, o, hits);
    var p :| Rounds(q, p) && HitsOf(q, s, p, others);
    AcrossReads(q, o);
    AcrossReads(q, p);
    ReadsOnce(q, o, p);
    var a :| Lists(a, o.pool, s.returnable) && hits == Answer(RecallOf(q, o, s), a, o.pool, []);
    var b :| Lists(b, o.pool, s.returnable) && others == Answer(RecallOf(q, o, s), b, o.pool, []);
    SameAnswer(RecallOf(q, o, s), a, o.pool, [], b, o.pool);
  }
}
