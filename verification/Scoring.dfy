/** Folding a candidate's contributions: the excess of its anchors over their fair
    share, and how far each channel places it above the recall's pool. */
module Scoring {
  import opened Keys
  import opened Sequences

  datatype Origin = FromText | FromVector | FromGraph | FromAnchor

  /** One observation of a candidate by one retrieval stage. */
  datatype Contribution = Contribution(src: Origin, score: real, via: Key, degree: nat, count: nat, named: bool,
      held: real, rank: nat)

  /** What a candidate's contributions add up to. */
  datatype Channels = Channels(text: real, vector: real, mass: real, graph: real)

  function Mul(a: real, b: real): real { a * b }

  /** n candidates' share of a mean over m. */
  function Share(n: nat, x: real, m: real): real
    requires m > 0.0
  {
    n as real * x / m
  }

  lemma MulPlus(k: real, a: real, b: real)
    ensures Mul(k, a + b) == Mul(k, a) + Mul(k, b) && Mul(k, 0.0) == 0.0
  {
  }

  lemma MulSwap(k: real, m: real, x: real)
    ensures Mul(k, Mul(m, x)) == Mul(m, Mul(k, x))
  {
  }

  // ---------------------------------------------------------------- excess

  datatype Excess = Excess(background: real, missed: real)
  {
    /** An anchor's surplus over its fair share, per edge, and never negative. */
    function Surplus(c: Contribution, mass: real): real {
      var deg := if c.degree < 1 then 1.0 else c.degree as real;
      var fair := if c.named then 0.0 else Mul(deg, background);
      var surplus := Per(c.score - mass - fair, deg);
      if surplus > 0.0 then surplus else 0.0
    }

    function GraphTerm(cs: seq<Contribution>, mass: real): real {
      if cs == [] then 0.0 else
        var c := cs[|cs| - 1];
        GraphTerm(cs[..|cs| - 1], mass) + if c.src == FromGraph then Surplus(c, mass) else 0.0
    }

    function Fold(cs: seq<Contribution>): Channels {
      var mass := SumOf(FromText, cs) + Mul(1.0 + missed, SumOf(FromVector, cs)) + SumOf(FromAnchor, cs);
      Channels(SumOf(FromText, cs), SumOf(FromVector, cs), mass, GraphTerm(cs, mass))
    }

    function Score(cs: seq<Contribution>): real { Fold(cs).mass + Fold(cs).graph }

    /** fold: the seed mass first, then the hinge over each graph observation. */
    method FoldInLoops(cs: seq<Contribution>) returns (f: Channels)
      ensures f == Fold(cs)
    {
      hide Mul, Surplus;
      var text, vector, anchor := 0.0, 0.0, 0.0;
      for i := 0 to |cs|
        invariant text == SumOf(FromText, cs[..i]) && vector == SumOf(FromVector, cs[..i])
                && anchor == SumOf(FromAnchor, cs[..i])
      {
        assert cs[..i + 1][..i] == cs[..i];
        match cs[i].src
        case FromText => text := text + cs[i].score;
        case FromVector => vector := vector + cs[i].score;
        case FromAnchor => anchor := anchor + cs[i].score;
        case FromGraph =>
      }
      assert cs[..|cs|] == cs;
      var mass := text + Mul(1.0 + missed, vector) + anchor;
      var graph := 0.0;
      for i := 0 to |cs|
        invariant graph == GraphTerm(cs[..i], mass)
      {
        assert cs[..i + 1][..i] == cs[..i];
        if cs[i].src == FromGraph {
          graph := graph + Surplus(cs[i], mass);
        }
      }
      return Channels(text, vector, mass, graph);
    }
  }

  function SumOf(src: Origin, cs: seq<Contribution>): real {
    if cs == [] then 0.0 else SumOf(src, cs[..|cs| - 1]) + if cs[|cs| - 1].src == src then cs[|cs| - 1].score else 0.0
  }

  function Scaled(k: real, cs: seq<Contribution>): seq<Contribution> {
    seq(|cs|, i requires 0 <= i < |cs| => cs[i].(score := Mul(k, cs[i].score)))
  }

  lemma ScaledFront(k: real, cs: seq<Contribution>)
    requires cs != []
    ensures var n := |cs| - 1;
            Scaled(k, cs)[..n] == Scaled(k, cs[..n]) && Scaled(k, cs)[n] == cs[n].(score := Mul(k, cs[n].score))
  {
    hide Mul;
    var n := |cs| - 1;
    assert forall i :: 0 <= i < n ==> Scaled(k, cs)[..n][i] == Scaled(k, cs[..n])[i];
  }

  lemma {:induction false} SumScales(src: Origin, cs: seq<Contribution>, k: real)
    ensures SumOf(src, Scaled(k, cs)) == Mul(k, SumOf(src, cs))
  {
    hide Mul, Scaled;
    if cs == [] {
      assert Scaled(k, cs) == [] by { ScaledNone(k); }
      MulPlus(k, 0.0, 0.0);
    } else {
      var n := |cs| - 1;
      SumScales(src, cs[..n], k);
      ScaledFront(k, cs);
      assert |Scaled(k, cs)| == |cs| by { ScaledSize(k, cs); }
      MulPlus(k, SumOf(src, cs[..n]), if cs[n].src == src then cs[n].score else 0.0);
      MulPlus(k, 0.0, 0.0);
    }
  }

  lemma ScaledNone(k: real)
    ensures Scaled(k, []) == []
  {
  }

  lemma ScaledSize(k: real, cs: seq<Contribution>)
    ensures |Scaled(k, cs)| == |cs|
  {
  }

  function Per(x: real, d: real): real
    requires d > 0.0
  {
    x / d
  }

  lemma PerScales(k: real, x: real, d: real)
    requires k > 0.0 && d > 0.0
    ensures Per(Mul(k, x), d) == Mul(k, Per(x, d)) && (Mul(k, Per(x, d)) > 0.0 <==> Per(x, d) > 0.0)
  {
    var q := x / d;
    assert q * d == x;
    assert (k * q) * d == k * x;
  }

  lemma SurplusScales(e: Excess, c: Contribution, mass: real, k: real)
    requires k > 0.0
    ensures Excess(Mul(k, e.background), e.missed).Surplus(c.(score := Mul(k, c.score)), Mul(k, mass)) ==
            Mul(k, e.Surplus(c, mass))
  {
    hide Mul, Per;
    var deg := if c.degree < 1 then 1.0 else c.degree as real;
    var fair := if c.named then 0.0 else Mul(deg, e.background);
    MulSwap(k, deg, e.background);
    MulPlus(k, 0.0, 0.0);
    MulMinus(k, c.score, mass, fair);
    PerScales(k, c.score - mass - fair, deg);
  }

  lemma MulMinus(k: real, a: real, b: real, c: real)
    ensures Mul(k, a - b - c) == Mul(k, a) - Mul(k, b) - Mul(k, c)
  {
  }

  lemma {:induction false} GraphTermScales(e: Excess, cs: seq<Contribution>, mass: real, k: real)
    requires k > 0.0
    ensures Excess(Mul(k, e.background), e.missed).GraphTerm(Scaled(k, cs), Mul(k, mass)) ==
            Mul(k, e.GraphTerm(cs, mass))
  {
    hide Excess.Surplus, Mul, Scaled;
    if cs == [] {
      assert Scaled(k, cs) == [] by { ScaledNone(k); }
      MulPlus(k, 0.0, 0.0);
    } else {
      var n := |cs| - 1;
      GraphTermScales(e, cs[..n], mass, k);
      SurplusScales(e, cs[n], mass, k);
      ScaledFront(k, cs);
      assert |Scaled(k, cs)| == |cs| by { ScaledSize(k, cs); }
      MulPlus(k, e.GraphTerm(cs[..n], mass), if cs[n].src == FromGraph then e.Surplus(cs[n], mass) else 0.0);
      MulPlus(k, 0.0, 0.0);
    }
  }

  /** Scale invariance: rescaling every mass rescales every relevance alike, so the
      ordering stays. */
  lemma ScoreScales(e: Excess, cs: seq<Contribution>, k: real)
    requires k > 0.0
    ensures Excess(Mul(k, e.background), e.missed).Score(Scaled(k, cs)) == Mul(k, e.Score(cs))
  {
    hide Excess.GraphTerm, SumOf, Mul, Scaled;
    SumScales(FromText, cs, k);
    SumScales(FromVector, cs, k);
    SumScales(FromAnchor, cs, k);
    var t, v, a := SumOf(FromText, cs), SumOf(FromVector, cs), SumOf(FromAnchor, cs);
    var mass := e.Fold(cs).mass;
    MulSwap(k, 1.0 + e.missed, v);
    MulPlus(k, t + Mul(1.0 + e.missed, v), a);
    MulPlus(k, t, Mul(1.0 + e.missed, v));
    GraphTermScales(e, cs, mass, k);
    MulPlus(k, mass, e.GraphTerm(cs, mass));
  }

  /** An anchor's fair share of the mass around it; a named one owes none. */
  function FairShare(e: Excess, c: Contribution): real {
    if c.named then 0.0 else Mul(if c.degree < 1 then 1.0 else c.degree as real, e.background)
  }

  /** No anchor holds more than the candidate's own mass and its fair share. */
  ghost predicate Silent(e: Excess, cs: seq<Contribution>, mass: real) {
    forall i :: 0 <= i < |cs| && cs[i].src == FromGraph ==> cs[i].score <= mass + FairShare(e, cs[i])
  }

  lemma SurplusSilent(e: Excess, c: Contribution, mass: real)
    ensures e.Surplus(c, mass) >= 0.0 && (e.Surplus(c, mass) == 0.0 <==> c.score <= mass + FairShare(e, c))
  {
    var deg := if c.degree < 1 then 1.0 else c.degree as real;
    SignOf(c.score - mass - FairShare(e, c), deg);
  }

  lemma {:induction false} TermSilent(e: Excess, cs: seq<Contribution>, mass: real)
    ensures e.GraphTerm(cs, mass) >= 0.0 && (e.GraphTerm(cs, mass) == 0.0 <==> Silent(e, cs, mass))
  {
    hide Excess.Surplus, FairShare;
    if cs != [] {
      var n := |cs| - 1;
      TermSilent(e, cs[..n], mass);
      SurplusSilent(e, cs[n], mass);
      assert forall i :: 0 <= i < n ==> cs[..n][i] == cs[i];
    }
  }

  /** Hub silence and self-exclusion: the graph never lowers a candidate, and lifts it
      exactly when some anchor holds more than the candidate's own mass and, unless the
      query named it, its fair share. */
  lemma HubSilence(e: Excess, cs: seq<Contribution>)
    ensures e.Score(cs) >= e.Fold(cs).mass
    ensures e.Score(cs) == e.Fold(cs).mass <==> Silent(e, cs, e.Fold(cs).mass)
  {
    hide Excess.GraphTerm, Silent;
    TermSilent(e, cs, e.Fold(cs).mass);
  }

  lemma SignOf(x: real, d: real)
    requires d > 0.0
    ensures x / d > 0.0 <==> x > 0.0
  {
    assert x / d * d == x;
  }

  // ---------------------------------------------------------------- information

  /** Candidates that hold the same contributions and nothing else. */
  datatype Group = Group(members: seq<Key>, contributions: seq<Contribution>)

  type Pool = map<Key, seq<Contribution>>

  function Held(p: Pool, k: Key): seq<Contribution> { if k in p then p[k] else [] }

  /** What the information fold takes from analysis. */
  datatype Analysis = Analysis(sqrt: real -> real, bar: nat -> real, pow: (real, real) -> real)

  /** Channel values that weigh as many candidates as they stand for. */
  datatype Weighed = Weighed(value: Channels, weight: nat)

  datatype Channel = TextChannel | VectorChannel | GraphChannel

  function Read(v: Channels, c: Channel): real {
    match c case TextChannel => v.text case VectorChannel => v.vector case GraphChannel => v.graph
  }

  function Members(pool: seq<Weighed>): nat {
    if pool == [] then 0 else Members(pool[..|pool| - 1]) + pool[|pool| - 1].weight
  }

  /** What is averaged over the pool: a channel's value, or its squared distance from a
      mean. */
  datatype Measure = Value(c: Channel) | Square(c: Channel, mean: real)

  function Of(m: Measure, v: Channels): real {
    match m case Value(c) => Read(v, c) case Square(c, mean) => Mul(Read(v, c) - mean, Read(v, c) - mean)
  }

  function Average(pool: seq<Weighed>, m: Measure, n: real): real
    requires n > 0.0
  {
    if pool == [] then 0.0 else
      Average(pool[..|pool| - 1], m, n) + Share(pool[|pool| - 1].weight, Of(m, pool[|pool| - 1].value), n)
  }

  /** A channel's mean and spread over the pool. */
  datatype Stat = Stat(mean: real, sd: real)

  function StatOf(a: Analysis, pool: seq<Weighed>, c: Channel): Stat
    requires Members(pool) > 0
  {
    var n := Members(pool) as real;
    var mean := Average(pool, Value(c), n);
    var variance := Average(pool, Square(c, mean), n);
    Stat(mean, if variance > 0.0 then a.sqrt(variance) else 0.0)
  }

  function Inform(a: Analysis, e: Excess, pool: seq<Weighed>): Informed {
    if Members(pool) == 0 then Informed(a, e, false, Stat(0.0, 0.0), Stat(0.0, 0.0), Stat(0.0, 0.0), 0.0)
    else Informed(a, e, true, StatOf(a, pool, TextChannel), StatOf(a, pool, VectorChannel),
        StatOf(a, pool, GraphChannel), a.bar(Members(pool)))
  }

  /** The information scorer bound to one query. */
  datatype Informed = Informed(a: Analysis, excess: Excess, pooled: bool, text: Stat, vector: Stat, graph: Stat,
      bar: real)
  {
    function Trust(cs: seq<Contribution>): real {
      if Above(vector, excess.Fold(cs).vector) > bar then 2.0 - MostHeld(cs) else 1.0
    }

    function Score(cs: seq<Contribution>): real {
      var f := excess.Fold(cs);
      if !pooled || (text.sd == 0.0 && vector.sd == 0.0 && graph.sd == 0.0) then f.mass
      else Mul(1.0 + Above(text, f.text), a.pow(1.0 + Above(vector, f.vector), Trust(cs))) + Above(graph, f.graph)
    }

    method ScoreInLoops(cs: seq<Contribution>) returns (r: real)
      ensures r == Score(cs)
    {
      hide Excess.Fold, Mul, Above;
      var f := excess.FoldInLoops(cs);
      if !pooled || (text.sd == 0.0 && vector.sd == 0.0 && graph.sd == 0.0) {
        return f.mass;
      }
      var trust := 1.0;
      if Above(vector, f.vector) > bar {
        var held := 0.0;
        for i := 0 to |cs|
          invariant held == MostHeld(cs[..i])
        {
          assert cs[..i + 1][..i] == cs[..i];
          if cs[i].src == FromText && cs[i].held > held {
            held := cs[i].held;
          }
        }
        assert cs[..|cs|] == cs;
        trust := 2.0 - held;
      }
      return Mul(1.0 + Above(text, f.text), a.pow(1.0 + Above(vector, f.vector), trust)) + Above(graph, f.graph);
    }
  }

  /** The most of the question any text observation holds. */
  function MostHeld(cs: seq<Contribution>): real {
    if cs == [] then 0.0 else
      var c := cs[|cs| - 1];
      var rest := MostHeld(cs[..|cs| - 1]);
      if c.src == FromText && c.held > rest then c.held else rest
  }

  /** How far above the pool's mean a channel places a value it saw. */
  function Above(s: Stat, v: real): real {
    if v <= 0.0 || s.sd <= 0.0 || v <= s.mean then 0.0 else Per(v - s.mean, s.sd)
  }

  function ListedEntry(e: Excess, p: Pool): Key -> Weighed { k => Weighed(e.Fold(Held(p, k)), 1) }

  function GroupEntry(e: Excess): Group -> Weighed { (g: Group) => Weighed(e.Fold(g.contributions), |g.members|) }

  /** The pool a scorer reads: each listed candidate once, then each group once for all
      its members. */
  function PoolOf(e: Excess, keys: seq<Key>, p: Pool, groups: seq<Group>): seq<Weighed> {
    Map(keys, ListedEntry(e, p)) + Map(groups, GroupEntry(e))
  }

  /** One channel's mean, and then its spread about it, each in one pass. */
  method Measured(a: Analysis, values: seq<Weighed>, c: Channel, members: nat) returns (s: Stat)
    requires members == Members(values) > 0
    ensures s == StatOf(a, values, c)
  {
    hide Share, Of, Members;
    var n := members as real;
    var mean := 0.0;
    for i := 0 to |values|
      invariant mean == Average(values[..i], Value(c), n)
    {
      assert values[..i + 1][..i] == values[..i];
      mean := mean + Share(values[i].weight, Of(Value(c), values[i].value), n);
    }
    assert values[..|values|] == values;
    var variance := 0.0;
    for i := 0 to |values|
      invariant variance == Average(values[..i], Square(c, mean), n)
    {
      assert values[..i + 1][..i] == values[..i];
      variance := variance + Share(values[i].weight, Of(Square(c, mean), values[i].value), n);
    }
    return Stat(mean, if variance > 0.0 then a.sqrt(variance) else 0.0);
  }

  /** Observe: folds every listed candidate, then every group once, and binds the
      statistics of both. */
  method Observe(a: Analysis, e: Excess, keys: seq<Key>, p: Pool, groups: seq<Group>) returns (b: Informed)
    ensures b == Inform(a, e, PoolOf(e, keys, p, groups))
  {
    hide Excess.Fold, StatOf;
    var values: seq<Weighed> := [];
    var members := 0;
    for i := 0 to |keys|
      invariant values == Map(keys[..i], ListedEntry(e, p)) && members == Members(values)
    {
      var f := e.FoldInLoops(Held(p, keys[i]));
      ghost var was := values;
      values := values + [Weighed(f, 1)];
      assert values[..|values| - 1] == was;
      members := members + 1;
    }
    assert keys[..|keys|] == keys;
    for i := 0 to |groups|
      invariant values == Map(keys, ListedEntry(e, p)) + Map(groups[..i], GroupEntry(e)) && members == Members(values)
    {
      var f := e.FoldInLoops(groups[i].contributions);
      ghost var was := values;
      values := values + [Weighed(f, |groups[i].members|)];
      assert values[..|values| - 1] == was;
      assert Map(groups[..i + 1], GroupEntry(e)) == Map(groups[..i], GroupEntry(e)) + [GroupEntry(e)(groups[i])];
      members := members + |groups[i].members|;
    }
    assert groups[..|groups|] == groups;
    b := Summarise(a, e, values, members);
  }

  method Summarise(a: Analysis, e: Excess, values: seq<Weighed>, members: nat) returns (b: Informed)
    requires members == Members(values)
    ensures b == Inform(a, e, values)
  {
    if members == 0 {
      return Informed(a, e, false, Stat(0.0, 0.0), Stat(0.0, 0.0), Stat(0.0, 0.0), 0.0);
    }
    var text := Measured(a, values, TextChannel, members);
    var vector := Measured(a, values, VectorChannel, members);
    var graph := Measured(a, values, GraphChannel, members);
    return Informed(a, e, true, text, vector, graph, a.bar(members));
  }

  // ---------------------------------------------------------------- groups weigh as lists

  /** A stretch of equal candidates, listed one by one. */
  function Copies(v: Channels, n: nat): seq<Weighed> { seq(n, _ => Weighed(v, 1)) }

  /** A pool with every candidate listed. */
  function Listed(pool: seq<Weighed>): seq<Weighed> {
    if pool == [] then [] else Listed(pool[..|pool| - 1]) + Copies(pool[|pool| - 1].value, pool[|pool| - 1].weight)
  }

  lemma {:induction false} CopiesCount(r: seq<Weighed>, v: Channels, n: nat)
    ensures Members(r + Copies(v, n)) == Members(r) + n
  {
    var s := r + Copies(v, n);
    if n == 0 {
      assert s == r;
    } else {
      CopiesCount(r, v, n - 1);
      assert s[..|s| - 1] == r + Copies(v, n - 1);
    }
  }

  lemma ShareStep(n: nat, x: real, m: real)
    requires m > 0.0
    ensures Share(n + 1, x, m) == Share(n, x, m) + Share(1, x, m) && Share(0, x, m) == 0.0
  {
  }

  lemma {:induction false} CopiesAverage(r: seq<Weighed>, v: Channels, n: nat, m: Measure, d: real)
    requires d > 0.0
    ensures Average(r + Copies(v, n), m, d) == Average(r, m, d) + Share(n, Of(m, v), d)
  {
    hide Share, Of;
    var s := r + Copies(v, n);
    if n == 0 {
      assert s == r;
      ShareStep(0, Of(m, v), d);
    } else {
      CopiesAverage(r, v, n - 1, m, d);
      assert s[..|s| - 1] == r + Copies(v, n - 1);
      ShareStep(n - 1, Of(m, v), d);
      assert Average(s, m, d) == Average(s[..|s| - 1], m, d) + Share(1, Of(m, v), d);
    }
  }

  lemma {:induction false} ListedCounts(pool: seq<Weighed>)
    ensures Members(Listed(pool)) == Members(pool)
  {
    if pool != [] {
      var n := |pool| - 1;
      ListedCounts(pool[..n]);
      CopiesCount(Listed(pool[..n]), pool[n].value, pool[n].weight);
    }
  }

  lemma {:induction false} ListedAverage(pool: seq<Weighed>, m: Measure, d: real)
    requires d > 0.0
    ensures Average(Listed(pool), m, d) == Average(pool, m, d)
  {
    hide Share, Of;
    if pool != [] {
      var n := |pool| - 1;
      ListedAverage(pool[..n], m, d);
      CopiesAverage(Listed(pool[..n]), pool[n].value, pool[n].weight, m, d);
    }
  }

  /** Weighing a group as many candidates as it has gives the statistics that listing
      them all gives. */
  lemma InformsListed(a: Analysis, e: Excess, pool: seq<Weighed>)
    ensures Inform(a, e, Listed(pool)) == Inform(a, e, pool)
  {
    ListedCounts(pool);
    if Members(pool) > 0 {
      var n := Members(pool) as real;
      forall c ensures StatOf(a, Listed(pool), c) == StatOf(a, pool, c) {
        ListedAverage(pool, Value(c), n);
        ListedAverage(pool, Square(c, Average(pool, Value(c), n)), n);
      }
    }
  }

  lemma {:induction false} TakenOut(l: seq<Weighed>, e: Weighed, r: seq<Weighed>, m: Measure, d: real)
    requires d > 0.0
    ensures Members(l + [e] + r) == Members(l + r) + e.weight
    ensures Average(l + [e] + r, m, d) == Average(l + r, m, d) + Share(e.weight, Of(m, e.value), d)
  {
    hide Share, Of;
    var s, t := l + [e] + r, l + r;
    if r == [] {
      assert s == l + [e] && t == l;
      assert s[..|s| - 1] == l;
    } else {
      var q := r[..|r| - 1];
      assert s[..|s| - 1] == l + [e] + q && t[..|t| - 1] == l + q;
      TakenOut(l, e, q, m, d);
    }
  }

  lemma LastWeighs(s: seq<Weighed>, m: Measure, d: real)
    requires s != [] && d > 0.0
    ensures var r, e := s[..|s| - 1], s[|s| - 1];
            Members(s) == Members(r) + e.weight && Average(s, m, d) ==
                Average(r, m, d) + Share(e.weight, Of(m, e.value), d)
  {
  }

  /** The order candidates are read in changes no average. */
  lemma {:induction false} AveragePermutes(a: seq<Weighed>, b: seq<Weighed>, m: Measure, d: real)
    requires multiset(a) == multiset(b) && d > 0.0
    ensures Members(a) == Members(b) && Average(a, m, d) == Average(b, m, d)
  {
    hide Share, Of, Average, Members;
    SameItems(a, b);
    if a == [] {
      assert b == [];
    } else {
      var r, e, u, v := LastOut(a, b);
      AveragePermutes(r, u + v, m, d);
      TakenOut(u, e, v, m, d);
      LastWeighs(a, m, d);
    }
  }

  lemma InformPermutes(a: Analysis, e: Excess, p: seq<Weighed>, q: seq<Weighed>)
    requires multiset(p) == multiset(q)
    ensures Inform(a, e, p) == Inform(a, e, q)
  {
    AveragePermutes(p, q, Value(TextChannel), 1.0);
    if Members(p) > 0 {
      var n := Members(p) as real;
      forall c ensures StatOf(a, p, c) == StatOf(a, q, c) {
        AveragePermutes(p, q, Value(c), n);
        AveragePermutes(p, q, Square(c, Average(p, Value(c), n)), n);
      }
    }
  }

  // ---------------------------------------------------------------- every scorer

  type Positive = k: int | k > 0 witness 1

  /** The scorers a graph may install: information, excess, and reciprocal rank. */
  datatype Scorer = ByInformation(a: Analysis) | ByExcess | ByRank(k: Positive)

  /** The sum of 1 / (k + rank). */
  function Reciprocals(k: Positive, cs: seq<Contribution>): real {
    if cs == [] then 0.0 else Reciprocals(k, cs[..|cs| - 1]) + 1.0 / (k + cs[|cs| - 1].rank) as real
  }

  /** A scorer bound to one query. */
  datatype Bound = Information(stats: Informed) | Surplus(excess: Excess) | Fusion(k: Positive)
  {
    function Score(cs: seq<Contribution>): real {
      match this
      case Information(stats) => stats.Score(cs)
      case Surplus(excess) => excess.Score(cs)
      case Fusion(k) => Reciprocals(k, cs)
    }

    method ScoreInLoops(cs: seq<Contribution>) returns (r: real)
      ensures r == Score(cs)
    {
      hide Informed.Score, Excess.Fold;
      match this
      case Information(stats) =>
        r := stats.ScoreInLoops(cs);
      case Surplus(excess) =>
        var f := excess.FoldInLoops(cs);
        return f.mass + f.graph;
      case Fusion(k) =>
        r := 0.0;
        for i := 0 to |cs|
          invariant r == Reciprocals(k, cs[..i])
        {
          assert cs[..i + 1][..i] == cs[..i];
          r := r + 1.0 / (k + cs[i].rank) as real;
        }
        assert cs[..|cs|] == cs;
    }
  }

  /** Observe: what each scorer takes of a query's pool. Only the information scorer reads
      the candidates. */
  function Bind(sc: Scorer, e: Excess, pool: seq<Weighed>): Bound {
    match sc
    case ByInformation(a) => Information(Inform(a, e, pool))
    case ByExcess => Surplus(e)
    case ByRank(k) => Fusion(k)
  }

  method ObserveAll(sc: Scorer, e: Excess, keys: seq<Key>, p: Pool, groups: seq<Group>) returns (b: Bound)
    ensures b == Bind(sc, e, PoolOf(e, keys, p, groups))
  {
    hide Inform, PoolOf;
    match sc
    case ByInformation(a) =>
      var stats := Observe(a, e, keys, p, groups);
      return Information(stats);
    case ByExcess => return Surplus(e);
    case ByRank(k) => return Fusion(k);
  }

  /** Weighing a group as many candidates as it has binds the scorer that listing them
      all binds. */
  lemma WeighedIsListed(sc: Scorer, e: Excess, pool: seq<Weighed>)
    ensures Bind(sc, e, Listed(pool)) == Bind(sc, e, pool)
  {
    hide Inform;
    if sc.ByInformation? {
      InformsListed(sc.a, e, pool);
    }
  }

  /** The order candidates are read in binds the same scorer. */
  lemma BindPermutes(sc: Scorer, e: Excess, p: seq<Weighed>, q: seq<Weighed>)
    requires multiset(p) == multiset(q)
    ensures Bind(sc, e, p) == Bind(sc, e, q)
  {
    hide Inform;
    if sc.ByInformation? {
      InformPermutes(sc.a, e, p, q);
    }
  }
}
