/** What a text search answers: each document a keep accepts, scored term by term from
    its own counts and its neighbours', and the k best of those that match. */
module SearchSpec {
  import opened Wrappers
  import opened Keys
  import opened PostingLists
  import TopKs

  /** What a search reads of the index: document numbers, lengths and the window. */
  datatype Corpus = Corpus(
    ids: map<Key, nat>,
    numbered: nat,
    lengths: map<Key, nat>,
    gamma: real,
    neighbours: Option<Key -> seq<Key>>)

  /** The relevance model's numbers, for any model. */
  datatype Model = Model(gain: (real, real, real, real) -> real, finalize: (real, int, int) -> real, prepared: real)

  type Keep = Option<Key -> bool>

  /** A query term some document holds: its postings and its weight. */
  datatype QueryTerm = QueryTerm(postings: seq<Posting>, weight: real)

  predicate Keeps(keep: Keep, x: Key) { keep.None? || keep.value(x) }

  predicate Windowed(c: Corpus) { c.gamma > 0.0 && c.neighbours.Some? }

  function Near(c: Corpus, x: Key): seq<Key> { if Windowed(c) then c.neighbours.value(x) else [] }

  function Own(c: Corpus, x: Key): real { if x in c.lengths then c.lengths[x] as real else 0.0 }

  function Occurs(s: seq<Key>, x: Key): nat { multiset(s)[x] }

  function Mul(a: real, b: real): real { a * b }

  function Times(a: real, n: nat): real { a * n as real }

  /** A neighbours b as often as b neighbours a. */
  ghost predicate Symmetric(c: Corpus) { forall a, b :: Occurs(Near(c, a), b) == Occurs(Near(c, b), a) }

  // ---------------------------------------------------------------- the naive search

  function OwnOf(c: Corpus): Key -> real { k => Own(c, k) }

  function TfIn(ps: seq<Posting>): Key -> real { k => Tf(ps, k) as real }

  /** What the neighbours a keep accepts add up to. */
  function Borrowed(keep: Keep, near: seq<Key>, f: Key -> real): real {
    if near == [] then 0.0 else
      Borrowed(keep, near[..|near| - 1], f) + if Keeps(keep, near[|near| - 1]) then f(near[|near| - 1]) else 0.0
  }

  /** A document's window length: its own plus gamma of each accepted neighbour's. */
  function Length(c: Corpus, keep: Keep, x: Key): real {
    Own(c, x) + Mul(c.gamma, Borrowed(keep, Near(c, x), OwnOf(c)))
  }

  /** What has reached a document: the amount, and whether anything has. */
  datatype Sum = Sum(total: real, any: bool)

  function Given(keep: Keep, near: seq<Key>, x: Key, amount: real): Sum {
    Sum(if Keeps(keep, x) then Times(amount, Occurs(near, x)) else 0.0, Keeps(keep, x) && x in near)
  }

  function Plus(a: Sum, b: Sum): Sum { Sum(a.total + b.total, a.any || b.any) }

  const NOTHING := Sum(0.0, false)

  /** What a posting lends each neighbour. */
  function Share(c: Corpus, p: Posting): real { Mul(c.gamma, p.tf as real) }

  /** What one posting gives to x. */
  function GivenBy(c: Corpus, keep: Keep, p: Posting, x: Key): Sum {
    if p.tf == 0 || !Keeps(keep, p.key) then NOTHING
    else Plus(if x == p.key then Sum(p.tf as real, true) else NOTHING, Given(keep, Near(c, p.key), x, Share(c, p)))
  }

  function GivenByAll(c: Corpus, keep: Keep, ps: seq<Posting>, x: Key): Sum {
    if ps == [] then NOTHING else Plus(GivenByAll(c, keep, ps[..|ps| - 1], x), GivenBy(c, keep, ps[|ps| - 1], x))
  }

  /** A document's window frequency for a term: what every posting lends it. */
  function Frequency(c: Corpus, keep: Keep, ps: seq<Posting>, x: Key): real { GivenByAll(c, keep, ps, x).total }

  /** A document matches a term some posting lends it. */
  predicate Matches(c: Corpus, keep: Keep, ps: seq<Posting>, x: Key) { GivenByAll(c, keep, ps, x).any }

  /** A document's window frequency for a term, gathered from its neighbours. */
  function Gathered(c: Corpus, keep: Keep, ps: seq<Posting>, x: Key): real {
    Tf(ps, x) as real + Mul(c.gamma, Borrowed(keep, Near(c, x), TfIn(ps)))
  }

  /** Whether a document holds a term, or an accepted neighbour does. */
  ghost predicate Gathers(c: Corpus, keep: Keep, ps: seq<Posting>, x: Key) {
    Keeps(keep, x) && (Tf(ps, x) > 0 || exists n :: n in Near(c, x) && Keeps(keep, n) && Tf(ps, n) > 0)
  }

  ghost function Score(c: Corpus, m: Model, keep: Keep, qs: seq<QueryTerm>, x: Key): real {
    if qs == [] then 0.0 else
      var q := qs[|qs| - 1];
      Score(c, m, keep, qs[..|qs| - 1], x)
      + if Matches(c, keep, q.postings, x) then m.gain(q.weight, Frequency(c, keep, q.postings, x), Length(c, keep, x),
          m.prepared) else 0.0
  }

  ghost function Matched(c: Corpus, keep: Keep, qs: seq<QueryTerm>, x: Key): real {
    if qs == [] then 0.0 else
      var q := qs[|qs| - 1];
      Matched(c, keep, qs[..|qs| - 1], x) + if Matches(c, keep, q.postings, x) then q.weight else 0.0
  }

  function TotalWeight(qs: seq<QueryTerm>): real {
    if qs == [] then 0.0 else TotalWeight(qs[..|qs| - 1]) + qs[|qs| - 1].weight
  }

  ghost predicate MatchesAny(c: Corpus, keep: Keep, qs: seq<QueryTerm>, x: Key) {
    exists i :: 0 <= i < |qs| && Matches(c, keep, qs[i].postings, x)
  }

  /** int(x) in Go: towards zero. */
  function Truncate(x: real): int { if x >= 0.0 then x.Floor else -(-x).Floor }

  ghost function Final(c: Corpus, m: Model, keep: Keep, qs: seq<QueryTerm>, x: Key): real {
    m.finalize(Score(c, m, keep, qs, x), Truncate(Matched(c, keep, qs, x) * 1024.0),
        Truncate(TotalWeight(qs) * 1024.0) + 1)
  }

  /** Every document that matches, once, at its final relevance. */
  ghost predicate Offers(c: Corpus, m: Model, keep: Keep, qs: seq<QueryTerm>, offers: seq<TopKs.Entry>) {
    && (forall i, j :: 0 <= i < j < |offers| ==> offers[i].key != offers[j].key)
    && (forall i :: 0 <= i < |offers| ==>
       MatchesAny(c, keep, qs, Key(offers[i].key)) && offers[i].score == Final(c, m, keep, qs, Key(offers[i].key)))
    && (forall x :: MatchesAny(c, keep, qs, x) ==> exists i :: 0 <= i < |offers| && offers[i].key == x.hash)
  }

  /** The answer for one keep: the k best offers, by score then key. */
  ghost predicate Answers(c: Corpus, m: Model, keep: Keep, qs: seq<QueryTerm>, k: int, answer: seq<TopKs.Entry>) {
    exists offers :: Offers(c, m, keep, qs, offers) && answer == TopKs.Best(offers, k)
  }

  lemma SameOffers(a: seq<TopKs.Entry>, b: seq<TopKs.Entry>)
    requires forall i, j :: 0 <= i < j < |a| ==> a[i] != a[j]
    requires forall i, j :: 0 <= i < j < |b| ==> b[i] != b[j]
    requires forall e :: e in a <==> e in b
    ensures multiset(a) == multiset(b)
  {
    forall e ensures multiset(a)[e] == multiset(b)[e] {
      Once(a, e);
      Once(b, e);
    }
  }

  lemma {:induction false} Once(s: seq<TopKs.Entry>, e: TopKs.Entry)
    requires forall i, j :: 0 <= i < j < |s| ==> s[i] != s[j]
    ensures multiset(s)[e] == if e in s then 1 else 0
  {
    if s != [] {
      var n := |s| - 1;
      assert s == s[..n] + [s[n]];
      Once(s[..n], e);
    }
  }

  // ---------------------------------------------------------------- scattering

  /** One reading's state for one document: the last term that reached it, its frequency
      for that term, and what it has gained. */
  datatype Cell = Cell(seen: nat, tf: real, score: real, matched: real)

  const EMPTY := Cell(0, 0.0, 0.0, 0.0)

  type View = map<Key, Cell>

  function Look(v: View, x: Key): Cell { if x in v then v[x] else EMPTY }

  /** Adds an amount to a document's frequency for the current term. */
  function Lend(v: View, term: nat, x: Key, amount: real): View {
    var d := Look(v, x);
    v[x := d.(seen := term, tf := (if d.seen == term then d.tf else 0.0) + amount)]
  }

  function LendEach(keep: Keep, v: View, term: nat, near: seq<Key>, amount: real): View {
    if near == [] then v else
      var w := LendEach(keep, v, term, near[..|near| - 1], amount);
      if Keeps(keep, near[|near| - 1]) then Lend(w, term, near[|near| - 1], amount) else w
  }

  /** One posting lends to its document and to the accepted neighbours. */
  function Scatter(c: Corpus, keep: Keep, v: View, term: nat, p: Posting): View {
    if p.tf == 0 || !Keeps(keep, p.key) then v
    else LendEach(keep, Lend(v, term, p.key, p.tf as real), term, Near(c, p.key), Share(c, p))
  }

  function ScatterAll(c: Corpus, keep: Keep, v: View, term: nat, ps: seq<Posting>): View {
    if ps == [] then v else Scatter(c, keep, ScatterAll(c, keep, v, term, ps[..|ps| - 1]), term, ps[|ps| - 1])
  }

  /** v after the sum s has been lent to x, where it held d0 before the term. */
  ghost predicate Holds(v: View, term: nat, x: Key, before: Cell, s: Sum) {
    if s.any then Look(v, x) == before.(seen := term, tf := s.total) else Look(v, x) == before && s.total == 0.0
  }

  lemma LendHolds(v: View, term: nat, y: Key, amount: real, x: Key, before: Cell, s: Sum)
    requires before.seen != term && Holds(v, term, x, before, s)
    ensures Holds(Lend(v, term, y, amount), term, x, before, Plus(s, if x == y then Sum(amount, true) else NOTHING))
  {
  }

  lemma GivenStep(keep: Keep, near: seq<Key>, y: Key, x: Key, amount: real)
    ensures Given(keep, near + [y], x, amount) == Plus(Given(keep, near, x, amount), if x == y
            && Keeps(keep, y) then Sum(amount, true) else NOTHING)
  {
    assert Occurs(near + [y], x) == Occurs(near, x) + if y == x then 1 else 0;
    Distribute(amount, Occurs(near, x), y == x);
  }

  lemma PlusRegroups(a: Sum, b: Sum, c: Sum)
    ensures Plus(Plus(a, b), c) == Plus(a, Plus(b, c)) && Plus(a, NOTHING) == a
  {
  }

  lemma NoneNear(keep: Keep, x: Key, amount: real)
    ensures Given(keep, [], x, amount) == NOTHING
  {
    assert Occurs([], x) == 0;
  }

  lemma {:induction false} LendEachHolds(keep: Keep, v: View, term: nat, near: seq<Key>, amount: real, x: Key,
      before: Cell, s: Sum)
    requires before.seen != term && Holds(v, term, x, before, s)
    ensures Holds(LendEach(keep, v, term, near, amount), term, x, before, Plus(s, Given(keep, near, x, amount)))
  {
    hide Holds, Given, Plus, Lend;
    if near == [] {
      NoneNear(keep, x, amount);
      PlusRegroups(s, NOTHING, NOTHING);
    } else {
      var n := |near| - 1;
      var r, y := near[..n], near[n];
      var w := LendEach(keep, v, term, r, amount);
      var one := if x == y && Keeps(keep, y) then Sum(amount, true) else NOTHING;
      LendEachHolds(keep, v, term, r, amount, x, before, s);
      assert near == r + [y];
      GivenStep(keep, r, y, x, amount);
      PlusRegroups(s, Given(keep, r, x, amount), one);
      if Keeps(keep, y) {
        LendHolds(w, term, y, amount, x, before, Plus(s, Given(keep, r, x, amount)));
      } else {
        PlusRegroups(Plus(s, Given(keep, r, x, amount)), NOTHING, NOTHING);
      }
    }
  }

  lemma Distribute(a: real, n: nat, one: bool)
    ensures Times(a, n + if one then 1 else 0) == Times(a, n) + if one then a else 0.0
    ensures Times(a, 0) == 0.0 && Times(0.0, n) == 0.0
  {
  }

  lemma ScatterHolds(c: Corpus, keep: Keep, v: View, term: nat, p: Posting, x: Key, before: Cell, s: Sum)
    requires before.seen != term && Holds(v, term, x, before, s)
    ensures Holds(Scatter(c, keep, v, term, p), term, x, before, Plus(s, GivenBy(c, keep, p, x)))
  {
    hide LendEach, Given, Lend, Holds, Plus, Share, Near;
    if p.tf > 0 && Keeps(keep, p.key) {
      var w := Lend(v, term, p.key, p.tf as real);
      var own := if x == p.key then Sum(p.tf as real, true) else NOTHING;
      LendHolds(v, term, p.key, p.tf as real, x, before, s);
      LendEachHolds(keep, w, term, Near(c, p.key), Share(c, p), x, before, Plus(s, own));
      PlusRegroups(s, own, Given(keep, Near(c, p.key), x, Share(c, p)));
    } else {
      PlusRegroups(s, NOTHING, NOTHING);
    }
  }

  lemma {:induction false} ScatterAllHolds(c: Corpus, keep: Keep, v: View, term: nat, ps: seq<Posting>, x: Key)
    requires Look(v, x).seen != term
    ensures Holds(ScatterAll(c, keep, v, term, ps), term, x, Look(v, x), GivenByAll(c, keep, ps, x))
  {
    hide Scatter, GivenBy;
    if ps != [] {
      var r := ps[..|ps| - 1];
      ScatterAllHolds(c, keep, v, term, r, x);
      ScatterHolds(c, keep, ScatterAll(c, keep, v, term, r), term, ps[|ps| - 1], x, Look(v, x),
          GivenByAll(c, keep, r, x));
    }
  }

  // ---------------------------------------------------------------- scattered is gathered

  lemma {:induction false} BorrowStep(keep: Keep, near: seq<Key>, f: Key -> real, g: Key -> real, y: Key, a: real)
    requires forall k :: g(k) == f(k) + if k == y then a else 0.0
    ensures Borrowed(keep, near, g) == Borrowed(keep, near, f) + if Keeps(keep, y)
            then Times(a, Occurs(near, y)) else 0.0
  {
    hide Times;
    if near == [] {
      assert Occurs(near, y) == 0;
      Distribute(a, 0, false);
    } else {
      var n := |near| - 1;
      var r, z := near[..n], near[n];
      BorrowStep(keep, r, f, g, y, a);
      assert near == r + [z];
      assert Occurs(near, y) == Occurs(r, y) + if z == y then 1 else 0;
      Distribute(a, Occurs(r, y), z == y);
      assert g(z) == f(z) + if z == y then a else 0.0;
    }
  }

  lemma {:induction false} BorrowNone(keep: Keep, near: seq<Key>, f: Key -> real)
    requires forall k :: f(k) == 0.0
    ensures Borrowed(keep, near, f) == 0.0
  {
    if near != [] {
      BorrowNone(keep, near[..|near| - 1], f);
    }
  }

  /** The last posting's key is new, so it only adds its own frequency. */
  lemma TfLast(ps: seq<Posting>, p: Posting, k: Key)
    requires Ascending(ps + [p])
    ensures Tf(ps + [p], k) == if k == p.key then p.tf else Tf(ps, k)
    ensures Tf(ps, p.key) == 0
  {
    var s := ps + [p];
    assert Below(ps, p.key) by {
      assert forall i :: 0 <= i < |ps| ==> s[i] == ps[i] && s[i].key.hash < s[|ps|].key.hash;
    }
    Middle(ps, p, [], k);
    assert s + [] == s && ps + [] == ps;
    NotIn(ps, p.key);
    Absent(ps, p.key);
  }

  lemma Scaled(g: real, b: real, tf: nat, n: nat)
    ensures Mul(g, b + Times(tf as real, n)) == Mul(g, b) + Times(Mul(g, tf as real), n)
  {
  }

  lemma GatheredStep(c: Corpus, keep: Keep, ps: seq<Posting>, p: Posting, x: Key)
    requires Ascending(ps + [p]) && Symmetric(c)
    ensures Gathered(c, keep, ps + [p], x) ==
            Gathered(c, keep, ps, x) + (if p.key == x then p.tf as real else 0.0)
            + if Keeps(keep, p.key) then Times(Share(c, p), Occurs(Near(c, p.key), x)) else 0.0
  {
    hide Tf, Borrowed, Ascending, Near, Times, Mul, Occurs;
    forall k ensures Tf(ps + [p], k) == if k == p.key then p.tf else Tf(ps, k) {
      TfLast(ps, p, k);
    }
    TfLast(ps, p, p.key);
    BorrowStep(keep, Near(c, x), TfIn(ps), TfIn(ps + [p]), p.key, p.tf as real);
    assert Occurs(Near(c, x), p.key) == Occurs(Near(c, p.key), x);
    var b, d := Borrowed(keep, Near(c, x), TfIn(ps)), Borrowed(keep, Near(c, x), TfIn(ps + [p]));
    Scaled(c.gamma, b, p.tf, Occurs(Near(c, p.key), x));
    assert d == b + if Keeps(keep, p.key) then Times(p.tf as real, Occurs(Near(c, p.key), x)) else 0.0;
  }

  lemma GathersStep(c: Corpus, keep: Keep, ps: seq<Posting>, p: Posting, x: Key)
    requires Ascending(ps + [p]) && Symmetric(c)
    ensures Gathers(c, keep, ps + [p], x) <==>
            (Gathers(c, keep, ps, x) || (Keeps(keep, x) && p.tf > 0
                && (p.key == x || (Keeps(keep, p.key) && x in Near(c, p.key)))))
  {
    hide Tf, Ascending, Near;
    forall k ensures Tf(ps + [p], k) == if k == p.key then p.tf else Tf(ps, k) {
      TfLast(ps, p, k);
    }
    TfLast(ps, p, p.key);
    assert p.key in Near(c, x) <==> x in Near(c, p.key) by {
      assert Occurs(Near(c, x), p.key) == Occurs(Near(c, p.key), x);
      assert (p.key in Near(c, x)) == (Occurs(Near(c, x), p.key) > 0);
    }
  }

  /** What the postings scatter to an accepted document is what it gathers. */
  lemma {:induction false} ScatteredIsGathered(c: Corpus, keep: Keep, ps: seq<Posting>, x: Key)
    requires Ascending(ps) && Symmetric(c)
    ensures Matches(c, keep, ps, x) <==> Gathers(c, keep, ps, x)
    ensures Keeps(keep, x) ==> Frequency(c, keep, ps, x) == Gathered(c, keep, ps, x)
  {
    hide Gathered, Gathers, Near, Symmetric, Share, Times, Occurs, GivenBy;
    if ps == [] {
      NoneGathered(c, keep, x);
    } else {
      var n := |ps| - 1;
      var r, p := ps[..n], ps[n];
      assert ps == r + [p];
      ScatteredIsGathered(c, keep, r, x);
      GatheredStep(c, keep, r, p, x);
      GathersStep(c, keep, r, p, x);
      GivenByOne(c, keep, p, x);
    }
  }

  lemma GivenByOne(c: Corpus, keep: Keep, p: Posting, x: Key)
    ensures GivenBy(c, keep, p, x).any <==>
            Keeps(keep, x) && p.tf > 0 && (p.key == x || (Keeps(keep, p.key) && x in Near(c, p.key)))
    ensures Keeps(keep, x) ==> (
            GivenBy(c, keep, p, x).total ==
            (if p.key == x then p.tf as real else 0.0) + if Keeps(keep, p.key)
                then Times(Share(c, p), Occurs(Near(c, p.key), x)) else 0.0)
  {
    if p.tf == 0 {
      assert Share(c, p) == 0.0;
      Distribute(0.0, Occurs(Near(c, p.key), x), false);
    }
    hide Times, Share, Near, Occurs;
  }

  lemma NoneGathered(c: Corpus, keep: Keep, x: Key)
    ensures Gathered(c, keep, [], x) == 0.0 && !Gathers(c, keep, [], x)
  {
    BorrowNone(keep, Near(c, x), TfIn([]));
  }

  // ---------------------------------------------------------------- one term, and all of them

  /** One term's share of the search: every match gains, and nothing else changes. */
  ghost predicate Scored(c: Corpus, m: Model, keep: Keep, q: QueryTerm, term: nat, v: View, w: View) {
    forall x :: if Matches(c, keep, q.postings, x)
      then Look(w, x).seen == term
           && Look(w, x).score == Look(v, x).score
              + m.gain(q.weight, Frequency(c, keep, q.postings, x), Length(c, keep, x), m.prepared)
           && Look(w, x).matched == Look(v, x).matched + q.weight
      else Look(w, x) == Look(v, x)
  }

  /** A reading after some terms: what each document has gained so far. */
  ghost predicate Tracks(c: Corpus, m: Model, keep: Keep, qs: seq<QueryTerm>, v: View) {
    forall x ::
      && Look(v, x).seen <= |qs|
      && (Look(v, x).seen > 0 <==> MatchesAny(c, keep, qs, x))
      && Look(v, x).score == Score(c, m, keep, qs, x) && Look(v, x).matched == Matched(c, keep, qs, x)
  }

  lemma TracksNext(c: Corpus, m: Model, keep: Keep, qs: seq<QueryTerm>, q: QueryTerm, v: View, w: View)
    requires Tracks(c, m, keep, qs, v) && Scored(c, m, keep, q, |qs| + 1, v, w)
    ensures Tracks(c, m, keep, qs + [q], w)
  {
    hide Matches, Frequency, Length;
    var rs := qs + [q];
    assert rs[..|qs|] == qs;
    forall x ensures MatchesAny(c, keep, rs, x) <==> MatchesAny(c, keep, qs, x) || Matches(c, keep, q.postings, x) {
      MatchesAnyNext(c, keep, qs, q, x);
    }
    hide MatchesAny;
  }

  lemma MatchesAnyNext(c: Corpus, keep: Keep, qs: seq<QueryTerm>, q: QueryTerm, x: Key)
    ensures MatchesAny(c, keep, qs + [q], x) <==> MatchesAny(c, keep, qs, x) || Matches(c, keep, q.postings, x)
  {
    hide Matches;
    var rs := qs + [q];
    if MatchesAny(c, keep, qs, x) {
      var i :| 0 <= i < |qs| && Matches(c, keep, qs[i].postings, x);
      assert rs[i] == qs[i];
    }
    if Matches(c, keep, q.postings, x) {
      assert rs[|qs|] == q;
    }
    if MatchesAny(c, keep, rs, x) {
      var i :| 0 <= i < |rs| && Matches(c, keep, rs[i].postings, x);
      assert i < |qs| ==> rs[i] == qs[i];
    }
  }

  // ---------------------------------------------------------------- scoring what was scattered

  /** A reached document gains the term's worth at its frequency and length. */
  function Settle(c: Corpus, m: Model, keep: Keep, weight: real, v: View, x: Key): View {
    var d := Look(v, x);
    v[x := d.(score := d.score + m.gain(weight, d.tf, Length(c, keep, x), m.prepared), matched := d.matched + weight)]
  }

  function SettleAll(c: Corpus, m: Model, keep: Keep, weight: real, v: View, xs: seq<Key>): View {
    if xs == [] then v else Settle(c, m, keep, weight, SettleAll(c, m, keep, weight, v, xs[..|xs| - 1]), xs[|xs| - 1])
  }

  predicate IsIn(xs: seq<Key>, x: Key) { exists i :: 0 <= i < |xs| && xs[i] == x }

  ghost predicate Distinct(xs: seq<Key>) { forall i, j :: 0 <= i < j < |xs| ==> xs[i] != xs[j] }

  lemma {:induction false} SettleAllAt(c: Corpus, m: Model, keep: Keep, weight: real, v: View, xs: seq<Key>, x: Key)
    requires Distinct(xs)
    ensures Look(SettleAll(c, m, keep, weight, v, xs), x) ==
            if IsIn(xs, x) then Look(Settle(c, m, keep, weight, v, x), x) else Look(v, x)
  {
    hide Length;
    if xs != [] {
      var n := |xs| - 1;
      SettleAllAt(c, m, keep, weight, v, xs[..n], x);
      if IsIn(xs[..n], x) {
        var i :| 0 <= i < n && xs[..n][i] == x;
        assert xs[i] == x;
      }
      if xs[n] == x {
        assert !IsIn(xs[..n], x);
      } else if IsIn(xs, x) {
        var i :| 0 <= i < |xs| && xs[i] == x;
        assert xs[..n][i] == x;
      }
    }
  }

  /** Scattering a term's postings and settling what was reached scores the term. */
  lemma WindowScores(c: Corpus, m: Model, keep: Keep, q: QueryTerm, term: nat, v: View, xs: seq<Key>)
    requires Distinct(xs)
    requires forall x :: Look(v, x).seen < term
    requires forall x :: IsIn(xs, x) <==> Look(ScatterAll(c, keep, v, term, q.postings), x).seen == term
    ensures Scored(c, m, keep, q, term, v, SettleAll(c, m, keep, q.weight, ScatterAll(c, keep, v, term, q.postings),
            xs))
  {
    hide Length, GivenByAll, ScatterAll, SettleAll, IsIn;
    var w := ScatterAll(c, keep, v, term, q.postings);
    forall x ensures
      if Matches(c, keep, q.postings, x)
      then Look(w, x) == Look(v, x).(seen := term, tf := Frequency(c, keep, q.postings, x)) && Keeps(keep, x)
      else Look(w, x) == Look(v, x)
    {
      ScatterAllHolds(c, keep, v, term, q.postings, x);
      MatchIsKept(c, keep, q.postings, x);
    }
    forall x ensures Look(SettleAll(c, m, keep, q.weight, w, xs), x) ==
                     if Matches(c, keep, q.postings, x) then Look(Settle(c, m, keep, q.weight, w, x), x)
                         else Look(w, x) {
      SettleAllAt(c, m, keep, q.weight, w, xs, x);
    }
  }

  lemma {:induction false} MatchIsKept(c: Corpus, keep: Keep, ps: seq<Posting>, x: Key)
    ensures Matches(c, keep, ps, x) ==> Keeps(keep, x)
    ensures !Matches(c, keep, ps, x) ==> Frequency(c, keep, ps, x) == 0.0
  {
    if ps != [] {
      MatchIsKept(c, keep, ps[..|ps| - 1], x);
      GivenIsKept(c, keep, ps[|ps| - 1], x);
      hide GivenBy;
    }
  }

  lemma GivenIsKept(c: Corpus, keep: Keep, p: Posting, x: Key)
    ensures GivenBy(c, keep, p, x).any ==> Keeps(keep, x)
    ensures !GivenBy(c, keep, p, x).any ==> GivenBy(c, keep, p, x).total == 0.0
  {
    var near := Near(c, p.key);
    if x !in near {
      assert Occurs(near, x) == 0;
      Distribute(Share(c, p), 0, false);
    }
  }

  // ---------------------------------------------------------------- without a window

  /** Without a window a posting scores its document at once. */
  function Post(c: Corpus, m: Model, keep: Keep, weight: real, v: View, term: nat, p: Posting): View {
    if p.tf == 0 || !Keeps(keep, p.key) then v else
      var d := Look(v, p.key);
      v[p.key := d.(seen := term, score := d.score + m.gain(weight, p.tf as real, Own(c, p.key), m.prepared),
          matched := d.matched + weight)]
  }

  function PostAll(c: Corpus, m: Model, keep: Keep, weight: real, v: View, term: nat, ps: seq<Posting>): View {
    if ps == [] then v else Post(c, m, keep, weight, PostAll(c, m, keep, weight, v, term, ps[..|ps| - 1]), term,
        ps[|ps| - 1])
  }

  lemma {:induction false} PostAllAt(c: Corpus, m: Model, keep: Keep, weight: real, v: View, term: nat,
      ps: seq<Posting>, x: Key)
    requires Ascending(ps)
    ensures Look(PostAll(c, m, keep, weight, v, term, ps), x) ==
            if Tf(ps, x) > 0 && Keeps(keep, x)
            then Look(v, x).(seen := term, score :=
                Look(v, x).score + m.gain(weight, Tf(ps, x) as real, Own(c, x), m.prepared),
                matched := Look(v, x).matched + weight)
            else Look(v, x)
  {
    if ps != [] {
      var n := |ps| - 1;
      assert ps == ps[..n] + [ps[n]];
      PostAllAt(c, m, keep, weight, v, term, ps[..n], x);
      TfLast(ps[..n], ps[n], x);
      hide Tf;
    }
  }

  /** No window at all is a symmetric one. */
  lemma PlainSymmetric(c: Corpus)
    requires !Windowed(c)
    ensures Symmetric(c)
  {
  }

  lemma PlainScores(c: Corpus, m: Model, keep: Keep, q: QueryTerm, term: nat, v: View)
    requires !Windowed(c) && Ascending(q.postings)
    ensures Scored(c, m, keep, q, term, v, PostAll(c, m, keep, q.weight, v, term, q.postings))
  {
    PlainSymmetric(c);
    forall x ensures Matches(c, keep, q.postings, x) <==> Tf(q.postings, x) > 0 && Keeps(keep, x)
             ensures Keeps(keep, x) ==> Frequency(c, keep, q.postings, x) == Tf(q.postings, x) as real
             ensures Length(c, keep, x) == Own(c, x) {
      ScatteredIsGathered(c, keep, q.postings, x);
    }
    hide PostAll, Tf, Matches, Frequency, Length, Windowed;
    forall x {
      PostAllAt(c, m, keep, q.weight, v, term, q.postings, x);
    }
  }
}
