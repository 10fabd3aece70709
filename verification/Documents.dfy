/** The raw documents, and what a search over them answers: every count and length taken
    from the texts themselves. */
module Documents {
  import opened Keys
  import opened SearchSpec
  import opened Wrappers
  import PostingLists
  import Sums
  import TopKs

  /** How often a term occurs among tokens. */
  function Count(tokens: seq<string>, term: string): nat {
    if tokens == [] then 0 else Count(tokens[..|tokens| - 1], term) + if tokens[|tokens| - 1] == term then 1 else 0
  }

  lemma {:induction false} CountIn(tokens: seq<string>, term: string)
    ensures Count(tokens, term) > 0 <==> term in tokens
  {
    if tokens != [] {
      var n := |tokens| - 1;
      CountIn(tokens[..n], term);
      assert tokens == tokens[..n] + [tokens[n]];
    }
  }

  lemma CountAppend(tokens: seq<string>, i: nat, term: string)
    requires i < |tokens|
    ensures Count(tokens[..i + 1], term) == Count(tokens[..i], term) + if tokens[i] == term then 1 else 0
  {
    assert tokens[..i + 1][..i] == tokens[..i];
  }

  /** What the relevance model makes of counts: a term's weight, a match's gain, and the
      final relevance. */
  datatype Relevance = Relevance(weight: (nat, nat) -> real, gain: (real, real, real, real) -> real,
      finalize: (real, int, int) -> real)

  /** The sum of a map's values. */
  ghost function Total<K(!new)>(m: map<K, nat>): nat {
    if m == map[] then 0 else var k :| k in m; m[k] + Total(m - {k})
  }

  lemma {:induction false} TotalWithout<K(!new)>(m: map<K, nat>, k: K)
    requires k in m
    ensures Total(m) == m[k] + Total(m - {k})
  {
    var j :| j in m && Total(m) == m[j] + Total(m - {j});
    if j != k {
      TotalWithout(m - {j}, k);
      TotalWithout(m - {k}, j);
      assert m - {j} - {k} == m - {k} - {j};
    }
  }

  lemma TotalWith<K(!new)>(m: map<K, nat>, k: K, v: nat)
    requires k !in m
    ensures Total(m[k := v]) == Total(m) + v
  {
    TotalWithout(m[k := v], k);
    assert m[k := v] - {k} == m;
  }

  // ---------------------------------------------------------------- the naive answer

  /** The stored texts, how they are cut, what their counts are worth, and the window. */
  datatype Library = Library(
    documents: map<Key, string>,
    tokenize: string -> seq<string>,
    relevance: Relevance,
    gamma: real,
    neighbours: Option<Key -> seq<Key>>)
  {
    function Tokens(x: Key): seq<string> { if x in documents then tokenize(documents[x]) else [] }

    function Near(x: Key): seq<Key> { if gamma > 0.0 && neighbours.Some? then neighbours.value(x) else [] }

    function Size(): Key -> real { x => |Tokens(x)| as real }

    function Counted(term: string): Key -> real { x => Count(Tokens(x), term) as real }

    /** The documents that hold a term. */
    ghost function Holders(term: string): set<Key> { set x | x in documents && Count(Tokens(x), term) > 0 }

    ghost function Weight(term: string): real { relevance.weight(|Holders(term)|, |documents|) }

    ghost function Sizes(): map<Key, nat> { map x | x in documents :: |Tokens(x)| }

    /** What length normalisation needs of the average length. */
    ghost function Prepared(): real {
      var total := Total(Sizes());
      if documents == map[] || total == 0 then 0.0 else 1.2 * 0.75 / (total as real / |documents| as real)
    }

    function Length(keep: Keep, x: Key): real { |Tokens(x)| as real + Mul(gamma, Borrowed(keep, Near(x), Size())) }

    /** What one document lends another of its count of a term: all of it to itself, and
        gamma of it for each time it lists the other beside it. */
    function LentBy(keep: Keep, term: string, d: Key, x: Key): real {
      var n := Count(Tokens(d), term);
      if n == 0 || !Keeps(keep, d) then 0.0
      else (if x == d then n as real else 0.0)
           + if Keeps(keep, x) then Times(Mul(gamma, n as real), Occurs(Near(d), x)) else 0.0
    }

    function LentTo(keep: Keep, term: string, x: Key): Key -> real { (d: Key) => LentBy(keep, term, d, x) }

    /** A document's window frequency: what every document lends it. */
    ghost function Frequency(keep: Keep, term: string, x: Key): real {
      Sums.SumOver(documents.Keys, LentTo(keep, term, x))
    }

    predicate Lends(keep: Keep, term: string, d: Key, x: Key) {
      Count(Tokens(d), term) > 0 && Keeps(keep, d) && Keeps(keep, x) && (d == x || x in Near(d))
    }

    /** A document matches a term some document lends it. */
    ghost predicate Matches(keep: Keep, term: string, x: Key) { exists d :: Lends(keep, term, d, x) }

    /** A document's own count plus gamma of each accepted neighbour's. */
    function Gathered(keep: Keep, term: string, x: Key): real {
      Count(Tokens(x), term) as real + Mul(gamma, Borrowed(keep, Near(x), Counted(term)))
    }

    /** Whether a document's text holds a term, or an accepted neighbour's does. */
    ghost predicate Gathers(keep: Keep, term: string, x: Key) {
      Keeps(keep, x) && (Count(Tokens(x), term) > 0 || exists n ::
          n in Near(x) && Keeps(keep, n) && Count(Tokens(n), term) > 0)
    }

    ghost function Gain(keep: Keep, term: string, x: Key): real {
      relevance.gain(Weight(term), Frequency(keep, term, x), Length(keep, x), Prepared())
    }

    ghost function Score(keep: Keep, terms: seq<string>, x: Key): real {
      if terms == [] then 0.0 else
        var t := terms[|terms| - 1];
        Score(keep, terms[..|terms| - 1], x) + if Matches(keep, t, x) then Gain(keep, t, x) else 0.0
    }

    ghost function Matched(keep: Keep, terms: seq<string>, x: Key): real {
      if terms == [] then 0.0 else
        var t := terms[|terms| - 1];
        Matched(keep, terms[..|terms| - 1], x) + if Matches(keep, t, x) then Weight(t) else 0.0
    }

    /** The weight of the terms some document holds. */
    ghost function TotalWeight(terms: seq<string>): real {
      if terms == [] then 0.0 else
        var t := terms[|terms| - 1];
        TotalWeight(terms[..|terms| - 1]) + if Holders(t) != {} then Weight(t) else 0.0
    }

    ghost function Final(keep: Keep, terms: seq<string>, x: Key): real {
      relevance.finalize(Score(keep, terms, x), Truncate(Matched(keep, terms, x) * 1024.0),
          Truncate(TotalWeight(terms) * 1024.0) + 1)
    }

    ghost predicate MatchesAny(keep: Keep, terms: seq<string>, x: Key) { exists t :: t in terms && Matches(keep, t, x) }

    /** Every document that matches, once, at its relevance. */
    ghost predicate Offers(keep: Keep, terms: seq<string>, offers: seq<TopKs.Entry>) {
      && (forall i, j :: 0 <= i < j < |offers| ==> offers[i].key != offers[j].key)
      && (forall i :: 0 <= i < |offers| ==>
         MatchesAny(keep, terms, Key(offers[i].key)) && offers[i].score == Final(keep, terms, Key(offers[i].key)))
      && (forall x :: MatchesAny(keep, terms, x) ==> exists i :: 0 <= i < |offers| && offers[i].key == x.hash)
    }

    /** The k best documents a keep accepts, for a query's terms. */
    ghost predicate Answers(keep: Keep, terms: seq<string>, k: int, answer: seq<TopKs.Entry>) {
      exists offers :: Offers(keep, terms, offers) && answer == TopKs.Best(offers, k)
    }
  }

  /** The answer is unique: it depends on the texts and the one keep, not on how or with
      which other keeps it was computed. */
  lemma AnswerIsUnique(l: Library, keep: Keep, terms: seq<string>, k: int, a: seq<TopKs.Entry>, b: seq<TopKs.Entry>)
    requires l.Answers(keep, terms, k, a) && l.Answers(keep, terms, k, b)
    ensures a == b
  {
    var s :| l.Offers(keep, terms, s) && a == TopKs.Best(s, k);
    var t :| l.Offers(keep, terms, t) && b == TopKs.Best(t, k);
    OffersWithin(l, keep, terms, s, t);
    OffersWithin(l, keep, terms, t, s);
    SameOffers(s, t);
    TopKs.SortSorts(s);
    TopKs.SortSorts(t);
    TopKs.SortedUnique(TopKs.Sort(s), TopKs.Sort(t));
  }

  lemma OffersWithin(l: Library, keep: Keep, terms: seq<string>, s: seq<TopKs.Entry>, t: seq<TopKs.Entry>)
    requires l.Offers(keep, terms, s) && l.Offers(keep, terms, t)
    ensures forall e :: e in s ==> e in t
  {
    hide Library.MatchesAny, Library.Final;
    forall e | e in s ensures e in t {
      var x := Key(e.key);
      assert l.MatchesAny(keep, terms, x);
      var i :| 0 <= i < |t| && t[i].key == x.hash;
      assert Key(t[i].key) == x;
    }
  }

  // ---------------------------------------------------------------- an index that agrees

  lemma {:induction false} BorrowedAlike(keep: Keep, near: seq<Key>, f: Key -> real, g: Key -> real)
    requires forall x :: f(x) == g(x)
    ensures Borrowed(keep, near, f) == Borrowed(keep, near, g)
  {
    if near != [] {
      BorrowedAlike(keep, near[..|near| - 1], f, g);
    }
  }

  /** What a search reads of an index says what the texts say. */
  ghost predicate Reflects(l: Library, c: Corpus, m: Model) {
    && c.gamma == l.gamma && c.neighbours == l.neighbours
    && (forall x :: Own(c, x) == |l.Tokens(x)| as real)
    && m.gain == l.relevance.gain && m.finalize == l.relevance.finalize && m.prepared == l.Prepared()
  }

  /** Postings, one a document, that say of each what its text says of a term. */
  ghost predicate Tells(l: Library, q: QueryTerm, term: string) {
    && q.weight == l.Weight(term) && PostingLists.Ascending(q.postings)
    && forall x :: PostingLists.Tf(q.postings, x) == Count(l.Tokens(x), term)
  }

  function KeysOf(ps: seq<PostingLists.Posting>): set<Key> {
    if ps == [] then {} else KeysOf(ps[..|ps| - 1]) + {ps[|ps| - 1].key}
  }

  lemma {:induction false} KeysAre(ps: seq<PostingLists.Posting>, x: Key)
    ensures x in KeysOf(ps) <==> PostingLists.Has(ps, x)
  {
    if ps != [] {
      var n := |ps| - 1;
      KeysAre(ps[..n], x);
      assert ps == ps[..n] + [ps[n]];
      PostingLists.HasEither(ps[..n], [ps[n]], x);
      PostingLists.Alone(ps[n], x);
    }
  }

  /** What a posting gives is what its document lends. */
  lemma GivenIsLent(l: Library, c: Corpus, keep: Keep, p: PostingLists.Posting, term: string, x: Key)
    requires c.gamma == l.gamma && c.neighbours == l.neighbours && p.tf == Count(l.Tokens(p.key), term)
    ensures GivenBy(c, keep, p, x).total == l.LentBy(keep, term, p.key, x)
    ensures GivenBy(c, keep, p, x).any <==> l.Lends(keep, term, p.key, x)
  {
    hide Count, Library.Tokens, Times, Mul, Occurs;
    assert SearchSpec.Near(c, p.key) == l.Near(p.key);
  }

  lemma TfAt(ps: seq<PostingLists.Posting>, i: nat)
    requires PostingLists.Ascending(ps) && i < |ps|
    ensures PostingLists.Tf(ps, ps[i].key) == ps[i].tf
  {
    var a, p, b := ps[..i], ps[i], ps[i + 1..];
    assert ps == a + [p] + b;
    PostingLists.Middle(a, p, b, p.key);
  }

  lemma {:induction false} GivenSums(l: Library, c: Corpus, keep: Keep, ps: seq<PostingLists.Posting>, term: string,
      x: Key)
    requires c.gamma == l.gamma && c.neighbours == l.neighbours && PostingLists.Ascending(ps)
    requires forall i :: 0 <= i < |ps| ==> ps[i].tf == Count(l.Tokens(ps[i].key), term)
    ensures GivenByAll(c, keep, ps, x).total == Sums.SumOver(KeysOf(ps), l.LentTo(keep, term, x))
    ensures GivenByAll(c, keep, ps, x).any <==> exists d :: d in KeysOf(ps) && l.Lends(keep, term, d, x)
  {
    hide Count, Library.Tokens, Library.Lends, Library.LentBy, GivenBy, Sums.SumOver, PostingLists.Has;
    if ps != [] {
      var n := |ps| - 1;
      var r, p := ps[..n], ps[n];
      GivenSums(l, c, keep, r, term, x);
      GivenIsLent(l, c, keep, p, term, x);
      KeysAre(r, p.key);
      NewKey(ps);
      Sums.SumWith(KeysOf(r), l.LentTo(keep, term, x), p.key);
    } else {
      NoSum(l.LentTo(keep, term, x));
    }
  }

  lemma NewKey(ps: seq<PostingLists.Posting>)
    requires ps != [] && PostingLists.Ascending(ps)
    ensures !PostingLists.Has(ps[..|ps| - 1], ps[|ps| - 1].key)
  {
  }

  lemma NoSum<K(!new)>(f: K -> real)
    ensures Sums.SumOver({}, f) == 0.0
  {
  }

  /** What the postings give is what the documents lend. */
  lemma ReceivedIsLent(l: Library, c: Corpus, m: Model, keep: Keep, q: QueryTerm, term: string, x: Key)
    requires Reflects(l, c, m) && Tells(l, q, term)
    ensures SearchSpec.Frequency(c, keep, q.postings, x) == l.Frequency(keep, term, x)
    ensures SearchSpec.Matches(c, keep, q.postings, x) <==> l.Matches(keep, term, x)
  {
    hide Library.Prepared, Own, PostingLists.Ascending, Sums.SumOver, GivenByAll;
    var ps := q.postings;
    forall i | 0 <= i < |ps| ensures ps[i].tf == Count(l.Tokens(ps[i].key), term) {
      TfAt(ps, i);
    }
    GivenSums(l, c, keep, ps, term, x);
    forall d | d !in KeysOf(ps) ensures Count(l.Tokens(d), term) == 0 {
      KeysAre(ps, d);
      PostingLists.Absent(ps, d);
    }
    forall d | d !in l.documents ensures Count(l.Tokens(d), term) == 0 {
    }
    hide Count, Library.Tokens;
    assert forall d :: d !in KeysOf(ps) ==> l.LentBy(keep, term, d, x) == 0.0 && !l.Lends(keep, term, d, x);
    assert forall d :: d !in l.documents ==> l.LentBy(keep, term, d, x) == 0.0;
    Sums.SumSame(KeysOf(ps), l.documents.Keys, l.LentTo(keep, term, x));
  }

  lemma TermAlike(l: Library, c: Corpus, m: Model, keep: Keep, q: QueryTerm, term: string, x: Key)
    requires Reflects(l, c, m) && Tells(l, q, term)
    ensures SearchSpec.Matches(c, keep, q.postings, x) <==> l.Matches(keep, term, x)
    ensures m.gain(q.weight, SearchSpec.Frequency(c, keep, q.postings, x), SearchSpec.Length(c, keep, x),
            m.prepared) == l.Gain(keep, term, x)
  {
    ReceivedIsLent(l, c, m, keep, q, term, x);
    hide Count, Library.Tokens, Library.Weight, Library.Prepared, Own, Mul, Borrowed, SearchSpec.Frequency,
         SearchSpec.Matches, Library.Frequency, Library.Matches, PostingLists.Ascending;
    assert SearchSpec.Near(c, x) == l.Near(x);
    BorrowedAlike(keep, l.Near(x), OwnOf(c), l.Size());
  }

  /** Under a symmetric window what the documents lend an accepted one is what it gathers
      from itself and its accepted neighbours. */
  lemma LentIsGathered(l: Library, c: Corpus, m: Model, keep: Keep, q: QueryTerm, term: string, x: Key)
    requires Reflects(l, c, m) && Tells(l, q, term) && Symmetric(c)
    ensures l.Matches(keep, term, x) <==> l.Gathers(keep, term, x)
    ensures Keeps(keep, x) ==> l.Frequency(keep, term, x) == l.Gathered(keep, term, x)
  {
    ReceivedIsLent(l, c, m, keep, q, term, x);
    ScatteredIsGathered(c, keep, q.postings, x);
    hide Count, Library.Tokens, Library.Prepared, Own, Mul, Borrowed, SearchSpec.Frequency, SearchSpec.Matches,
         Library.Frequency, Library.Matches, PostingLists.Ascending, Symmetric;
    assert SearchSpec.Near(c, x) == l.Near(x);
    BorrowedAlike(keep, l.Near(x), TfIn(q.postings), l.Counted(term));
  }

  /** Query terms as an index gives them: each term some document holds, with postings
      that tell it, and no others. */
  ghost predicate Queries(l: Library, qs: seq<QueryTerm>, terms: seq<string>)
    decreases |terms|
  {
    if terms == [] then qs == []
    else if l.Holders(terms[|terms| - 1]) == {} then Queries(l, qs, terms[..|terms| - 1])
    else qs != [] && Tells(l, qs[|qs| - 1], terms[|terms| - 1]) && Queries(l, qs[..|qs| - 1], terms[..|terms| - 1])
  }

  lemma NoHolder(l: Library, keep: Keep, term: string, x: Key)
    requires l.Holders(term) == {}
    ensures !l.Matches(keep, term, x)
  {
    forall n ensures Count(l.Tokens(n), term) == 0 {
      assert n !in l.Holders(term);
      CountIn([], term);
    }
  }

  /** A term nobody holds is lent by nobody, and gathered from nobody. */
  lemma NobodyLends(l: Library, keep: Keep, term: string, x: Key)
    requires l.Holders(term) == {}
    ensures !l.Matches(keep, term, x) && !l.Gathers(keep, term, x)
    ensures l.Frequency(keep, term, x) == l.Gathered(keep, term, x)
  {
    forall n ensures Count(l.Tokens(n), term) == 0 {
      assert n !in l.Holders(term);
      CountIn([], term);
    }
    hide Count, Library.Tokens;
    BorrowNone(keep, l.Near(x), l.Counted(term));
    Sums.SumSame({}, l.documents.Keys, l.LentTo(keep, term, x));
    NoSum(l.LentTo(keep, term, x));
  }

  /** The terms read from the index and the terms of the query say the same of a document. */
  ghost predicate Alike(l: Library, c: Corpus, m: Model, keep: Keep, qs: seq<QueryTerm>, terms: seq<string>, x: Key) {
    && SearchSpec.Score(c, m, keep, qs, x) == l.Score(keep, terms, x)
    && SearchSpec.Matched(c, keep, qs, x) == l.Matched(keep, terms, x)
    && SearchSpec.TotalWeight(qs) == l.TotalWeight(terms)
    && (SearchSpec.MatchesAny(c, keep, qs, x) <==> l.MatchesAny(keep, terms, x))
  }

  lemma AnyNext(l: Library, keep: Keep, terms: seq<string>, t: string, x: Key)
    ensures l.MatchesAny(keep, terms + [t], x) <==> l.MatchesAny(keep, terms, x) || l.Matches(keep, t, x)
  {
    hide Library.Matches;
    assert t in terms + [t];
    assert forall s :: s in terms ==> s in terms + [t];
  }

  /** A term nobody holds changes nothing. */
  lemma AlikeSkip(l: Library, c: Corpus, m: Model, keep: Keep, qs: seq<QueryTerm>, terms: seq<string>, t: string,
      x: Key)
    requires Alike(l, c, m, keep, qs, terms, x) && l.Holders(t) == {}
    ensures Alike(l, c, m, keep, qs, terms + [t], x)
  {
    hide *;
    NoHolder(l, keep, t, x);
    LibraryNext(l, keep, terms, t, x);
    AnyNext(l, keep, terms, t, x);
    Spelled(l, c, m, keep, qs, terms, x);
    Spelled(l, c, m, keep, qs, terms + [t], x);
  }

  lemma LibraryNext(l: Library, keep: Keep, terms: seq<string>, t: string, x: Key)
    ensures var ts := terms + [t];
            && l.Score(keep, ts, x) == l.Score(keep, terms, x)
               + (if l.Matches(keep, t, x) then l.Gain(keep, t, x) else 0.0)
            && l.Matched(keep, ts, x) == l.Matched(keep, terms, x)
               + (if l.Matches(keep, t, x) then l.Weight(t) else 0.0)
            && l.TotalWeight(ts) == l.TotalWeight(terms) + if l.Holders(t) != {} then l.Weight(t) else 0.0
  {
    hide Library.Matches, Library.Holders, Library.Gain, Library.Weight;
    assert (terms + [t])[..|terms|] == terms;
  }

  lemma IndexNext(c: Corpus, m: Model, keep: Keep, qs: seq<QueryTerm>, q: QueryTerm, x: Key)
    ensures var rs := qs + [q];
            var gain := m.gain(q.weight, SearchSpec.Frequency(c, keep, q.postings, x), SearchSpec.Length(c, keep, x),
                m.prepared);
            && SearchSpec.Score(c, m, keep, rs, x) ==
               SearchSpec.Score(c, m, keep, qs, x) + (if SearchSpec.Matches(c, keep, q.postings, x) then gain else 0.0)
            && SearchSpec.Matched(c, keep, rs, x) ==
               SearchSpec.Matched(c, keep, qs, x) + (if SearchSpec.Matches(c, keep, q.postings, x)
                   then q.weight else 0.0)
            && SearchSpec.TotalWeight(rs) == SearchSpec.TotalWeight(qs) + q.weight
  {
    hide SearchSpec.Matches, SearchSpec.Frequency, SearchSpec.Length;
    assert (qs + [q])[..|qs|] == qs;
  }

  lemma AlikeTell(l: Library, c: Corpus, m: Model, keep: Keep, qs: seq<QueryTerm>, terms: seq<string>, q: QueryTerm,
      t: string, x: Key)
    requires Reflects(l, c, m) && Alike(l, c, m, keep, qs, terms, x) && l.Holders(t) != {} && Tells(l, q, t)
    ensures Alike(l, c, m, keep, qs + [q], terms + [t], x)
  {
    hide *;
    TermAlike(l, c, m, keep, q, t, x);
    WeightTold(l, q, t);
    LibraryNext(l, keep, terms, t, x);
    IndexNext(c, m, keep, qs, q, x);
    AnyNext(l, keep, terms, t, x);
    MatchesAnyNext(c, keep, qs, q, x);
    Spelled(l, c, m, keep, qs, terms, x);
    Spelled(l, c, m, keep, qs + [q], terms + [t], x);
  }

  lemma WeightTold(l: Library, q: QueryTerm, t: string)
    requires Tells(l, q, t)
    ensures q.weight == l.Weight(t)
  {
  }

  lemma Spelled(l: Library, c: Corpus, m: Model, keep: Keep, qs: seq<QueryTerm>, terms: seq<string>, x: Key)
    ensures Alike(l, c, m, keep, qs, terms, x) <==>
            && SearchSpec.Score(c, m, keep, qs, x) == l.Score(keep, terms, x)
            && SearchSpec.Matched(c, keep, qs, x) == l.Matched(keep, terms, x)
            && SearchSpec.TotalWeight(qs) == l.TotalWeight(terms)
            && (SearchSpec.MatchesAny(c, keep, qs, x) <==> l.MatchesAny(keep, terms, x))
  {
  }

  lemma {:induction false} QueryAlike(l: Library, c: Corpus, m: Model, keep: Keep, qs: seq<QueryTerm>,
      terms: seq<string>, x: Key)
    requires Reflects(l, c, m) && Queries(l, qs, terms)
    ensures Alike(l, c, m, keep, qs, terms, x)
    decreases |terms|
  {
    hide Reflects, Tells, Library.Holders, Library.Matches, SearchSpec.Matches, Library.Gain;
    if terms != [] {
      var n := |terms| - 1;
      assert terms == terms[..n] + [terms[n]];
      if l.Holders(terms[n]) == {} {
        QueryAlike(l, c, m, keep, qs, terms[..n], x);
        AlikeSkip(l, c, m, keep, qs, terms[..n], terms[n], x);
      } else {
        var j := |qs| - 1;
        assert qs == qs[..j] + [qs[j]];
        QueryAlike(l, c, m, keep, qs[..j], terms[..n], x);
        AlikeTell(l, c, m, keep, qs[..j], terms[..n], qs[j], terms[n], x);
      }
    }
  }

  lemma FinalAlike(l: Library, c: Corpus, m: Model, keep: Keep, qs: seq<QueryTerm>, terms: seq<string>, x: Key)
    requires Reflects(l, c, m) && Queries(l, qs, terms)
    ensures SearchSpec.MatchesAny(c, keep, qs, x) <==> l.MatchesAny(keep, terms, x)
    ensures SearchSpec.Final(c, m, keep, qs, x) == l.Final(keep, terms, x)
  {
    hide Queries, Alike, Library.Prepared, SearchSpec.MatchesAny, Library.MatchesAny, SearchSpec.Score, Library.Score,
         Library.Matched, SearchSpec.Matched, SearchSpec.TotalWeight, Library.TotalWeight, Truncate;
    QueryAlike(l, c, m, keep, qs, terms, x);
    Spelled(l, c, m, keep, qs, terms, x);
  }

  /** An answer over an index that agrees with the texts is the answer the texts have. */
  lemma AnswersAlike(l: Library, c: Corpus, m: Model, keep: Keep, qs: seq<QueryTerm>, terms: seq<string>, k: int,
      answer: seq<TopKs.Entry>)
    requires Reflects(l, c, m) && Queries(l, qs, terms) && SearchSpec.Answers(c, m, keep, qs, k, answer)
    ensures l.Answers(keep, terms, k, answer)
  {
    hide Queries, Reflects, Library.MatchesAny, SearchSpec.MatchesAny, SearchSpec.Final, Library.Final, TopKs.Best;
    var offers :| SearchSpec.Offers(c, m, keep, qs, offers) && answer == TopKs.Best(offers, k);
    forall x ensures SearchSpec.MatchesAny(c, keep, qs, x) <==> l.MatchesAny(keep, terms, x)
             ensures SearchSpec.Final(c, m, keep, qs, x) == l.Final(keep, terms, x) {
      FinalAlike(l, c, m, keep, qs, terms, x);
    }
    assert l.Offers(keep, terms, offers);
  }
}
