/** The round trip: parse, print, parse again. */
module FqlTheorem {
  import opened Wrappers
  import opened Fql
  import opened FqlGrammar
  import opened FqlPrint
  import opened FqlReread
  import opened FqlRoundTrip

  // ---------------------------------------------------------------- the meaning of a command

  /** What the accessors of a command answer. */
  datatype Meaning =
    | Asks(selector: Option<nat>, terms: seq<string>, entities: seq<string>, topics: seq<string>, top: Option<int>,
        depth: Option<int>,
           since: Option<Time>, until: Option<Time>, vec: Option<string>)
    | Stores(selector: Option<nat>, fact: string, anchors: seq<(Kind, string)>, vec: Option<string>)

  function Count(f: Option<IntField>): Option<int> { if f.Some? then Some(f.value.value) else None }
  function Bound(f: Option<TimeField>): Option<Time> { if f.Some? then Some(f.value.value) else None }
  function Param(f: Option<VecField>): Option<string> { if f.Some? then Some(f.value.param.lit) else None }

  function MeaningOf(c: Command): Meaning {
    match c
    case RecallCommand(r) =>
      Asks(r.selector, Map((t: Term) => t.value, r.terms), Map((a: Anchor) => a.value, r.entities),
          Map((a: Anchor) => a.value, r.topics),
           Count(r.top), Count(r.depth), Bound(r.since), Bound(r.until), Param(r.vec))
    case RememberCommand(m) =>
      Stores(m.selector, m.fact, Map((a: Anchor) => (a.key.kind, a.value), m.anchors), Param(m.vec))
  }

  /** No top: or depth: that prints with a sign. */
  predicate IsUnsigned(c: Command) {
    c.RecallCommand? ==>
        (c.recall.top.Some? ==> c.recall.top.value.value >= 0)
        && (c.recall.depth.Some? ==> c.recall.depth.value.value >= 0)
  }

  /** A command with its values spelled the way they are read back. */
  function NormalAnchors(u: Script, s: seq<Anchor>): seq<Anchor> {
    if s == [] then [] else [NormalAnchor(u, s[0])] + NormalAnchors(u, s[1..])
  }

  function NormalBound(u: Script, f: Option<TimeField>): Option<TimeField> {
    if f.Some? then Some(NormalTime(u, f.value)) else None
  }

  function NormalRecall(u: Script, r: RecallNode): RecallNode {
    RecallNode(r.selector, NormalTerms(u, r.terms), NormalAnchors(u, r.entities), NormalAnchors(u, r.topics), r.top,
        r.depth,
               NormalBound(u, r.since), NormalBound(u, r.until), r.vec)
  }

  function Normal(u: Script, c: Command): Command {
    match c
    case RecallCommand(r) => RecallCommand(NormalRecall(u, r))
    case RememberCommand(m) => RememberCommand(m.(anchors := NormalAnchors(u, m.anchors)))
  }

  // ---------------------------------------------------------------- clauses read back

  lemma {:induction false} RereadAppend(u: Script, r: RecallNode, a: seq<Clause>, b: seq<Clause>)
    ensures Reread(u, r, a + b) == match Reread(u, r, a) case None => None case Some(q) => Reread(u, q, b)
    decreases |a|
  {
    if a == [] {
      assert a + b == b;
    } else {
      assert (a + b)[1..] == a[1..] + b;
      if Fits(r, a[0]) {
        RereadAppend(u, Add(u, r, a[0]), a[1..], b);
      }
    }
  }

  lemma {:induction false} RereadEntities(u: Script, r: RecallNode, s: seq<Anchor>)
    requires forall i :: 0 <= i < |s| ==> s[i].key.kind == Entity
    ensures Reread(u, r, Map(a => AnchorClause(a), s)) == Some(r.(entities := r.entities + NormalAnchors(u, s)))
    decreases |s|
  {
    if s == [] {
      assert r.entities + [] == r.entities;
    } else {
      assert Map(a => AnchorClause(a), s)[1..] == Map(a => AnchorClause(a), s[1..]);
      RereadEntities(u, Add(u, r, AnchorClause(s[0])), s[1..]);
      assert r.entities + [NormalAnchor(u, s[0])] + NormalAnchors(u, s[1..]) == r.entities + NormalAnchors(u, s);
    }
  }

  lemma {:induction false} RereadTopics(u: Script, r: RecallNode, s: seq<Anchor>)
    requires forall i :: 0 <= i < |s| ==> s[i].key.kind == Topic
    ensures Reread(u, r, Map(a => AnchorClause(a), s)) == Some(r.(topics := r.topics + NormalAnchors(u, s)))
    decreases |s|
  {
    if s == [] {
      assert r.topics + [] == r.topics;
    } else {
      assert Map(a => AnchorClause(a), s)[1..] == Map(a => AnchorClause(a), s[1..]);
      RereadTopics(u, Add(u, r, AnchorClause(s[0])), s[1..]);
      assert r.topics + [NormalAnchor(u, s[0])] + NormalAnchors(u, s[1..]) == r.topics + NormalAnchors(u, s);
    }
  }

  /** The single-valued clauses, in print order. */
  function Modifiers(r: RecallNode): seq<Clause> {
    Option2Seq(r.top, i => IntClause(i)) + Option2Seq(r.depth, i => IntClause(i))
    + Option2Seq(r.since, t => TimeClause(t)) + Option2Seq(r.until, t => TimeClause(t))
    + Option2Seq(r.vec, v => VecClause(v))
  }

  lemma RereadOne(u: Script, q: RecallNode, c: Clause, rest: seq<Clause>)
    ensures Reread(u, q, [c] + rest) == if Fits(q, c) then Reread(u, Add(u, q, c), rest) else None
  {
    assert ([c] + rest)[1..] == rest;
  }

  lemma RereadModifiers(u: Script, r: RecallNode, q: RecallNode)
    requires q.top == None && q.depth == None && q.since == None && q.until == None && q.vec == None
    requires (r.top.Some? ==> r.top.value.key.kind == Top) && (r.depth.Some? ==> r.depth.value.key.kind == Depth)
    requires (r.since.Some? ==> r.since.value.key.kind == Since) && (r.until.Some? ==> r.until.value.key.kind == Until)
    ensures Reread(u, q, Modifiers(r)) ==
            if IsUnsigned(RecallCommand(r))
            then Some(q.(top := r.top, depth := r.depth, since := NormalBound(u, r.since),
                until := NormalBound(u, r.until), vec := r.vec))
            else None
  {
    hide Reread;
    var vec := Option2Seq(r.vec, v => VecClause(v));
    var until := Option2Seq(r.until, t => TimeClause(t)) + vec;
    var since := Option2Seq(r.since, t => TimeClause(t)) + until;
    var depth := Option2Seq(r.depth, i => IntClause(i)) + since;
    assert Modifiers(r) == Option2Seq(r.top, i => IntClause(i)) + depth;
    var q1 := q.(top := r.top);
    var q2 := q1.(depth := r.depth);
    if r.top.Some? { RereadOne(u, q, IntClause(r.top.value), depth); } else { assert Modifiers(r) == depth; }
    if r.depth.Some? { RereadOne(u, q1, IntClause(r.depth.value), since); } else { assert depth == since; }
    RereadBounds(u, r, q2);
  }

  lemma RereadBounds(u: Script, r: RecallNode, q: RecallNode)
    requires q.since == None && q.until == None && q.vec == None
    requires (r.since.Some? ==> r.since.value.key.kind == Since) && (r.until.Some? ==> r.until.value.key.kind == Until)
    ensures Reread(u, q, Option2Seq(r.since, t => TimeClause(t))
            + (Option2Seq(r.until, t => TimeClause(t)) + Option2Seq(r.vec, v => VecClause(v)))) ==
            Some(q.(since := NormalBound(u, r.since), until := NormalBound(u, r.until), vec := r.vec))
  {
    var vec := Option2Seq(r.vec, v => VecClause(v));
    var until := Option2Seq(r.until, t => TimeClause(t)) + vec;
    var since := Option2Seq(r.since, t => TimeClause(t)) + until;
    var q1 := q.(since := NormalBound(u, r.since));
    var q2 := q1.(until := NormalBound(u, r.until));
    assert Reread(u, q2, vec) == Some(q2.(vec := r.vec));
    hide Reread;
    if r.since.Some? { RereadOne(u, q, TimeClause(r.since.value), until); } else { assert since == until; }
    if r.until.Some? { RereadOne(u, q1, TimeClause(r.until.value), vec); } else { assert until == vec; }
  }

  lemma RereadAll(u: Script, r: RecallNode, terms: seq<Term>)
    requires GoodRecall(u, r)
    ensures Reread(u, RecallNode(r.selector, terms, [], [], None, None, None, None, None), RecallClausesOf(r)) ==
            if IsUnsigned(RecallCommand(r)) then Some(NormalRecall(u, r).(terms := terms)) else None
  {
    hide Reread, GoodClause, GoodTerm, NormalAnchors, NormalBound, Option2Seq, Map;
    var q := RecallNode(r.selector, terms, [], [], None, None, None, None, None);
    var e, t := Map(a => AnchorClause(a), r.entities), Map(a => AnchorClause(a), r.topics);
    assert RecallClausesOf(r) == e + (t + Modifiers(r));
    RereadAppend(u, q, e, t + Modifiers(r));
    RereadEntities(u, q, r.entities);
    var q1 := q.(entities := NormalAnchors(u, r.entities));
    assert [] + NormalAnchors(u, r.entities) == NormalAnchors(u, r.entities);
    RereadAppend(u, q1, t, Modifiers(r));
    RereadTopics(u, q1, r.topics);
    assert [] + NormalAnchors(u, r.topics) == NormalAnchors(u, r.topics);
    RereadModifiers(u, r, q1.(topics := NormalAnchors(u, r.topics)));
  }

  // ---------------------------------------------------------------- the printed recall

  lemma {:induction false} SpacedAppend(a: seq<string>, b: seq<string>)
    ensures Spaced(a + b) == Spaced(a) + Spaced(b)
    decreases |a|
  {
    if a == [] {
      assert a + b == b;
    } else {
      SpacedAppend(a[1..], b);
      assert (a + b)[1..] == a[1..] + b;
    }
  }

  lemma ClausesGood(u: Script, r: RecallNode)
    requires GoodRecall(u, r)
    ensures forall c :: c in RecallClausesOf(r) ==> GoodClause(u, c)
  {
    hide GoodClause, GoodTerm;
  }

  lemma RecallTokens(u: Script, r: RecallNode)
    requires Lawful(u) && GoodRecall(u, r)
    ensures Tokens(u, Print(RecallCommand(r))) ==
            [Token(Recall, "recall")] + SelectorTokens(r.selector)
                + (TermsTokens(u, r.terms) + ClausesTokens(u, RecallClausesOf(r)))
  {
    hide Tokens, Lawful, GoodTerm, GoodClause, RecallClausesOf, Clause.Text, PrintSelector, SelectorTokens,
        TermsTokens, ClausesTokens;
    var a, b := Map(t => PrintTerm(t), r.terms), Map((k: Clause) => k.Text(), RecallClausesOf(r));
    var head := "recall" + PrintSelector(r.selector);
    ClausesGood(u, r);
    JoinSpaced(head, a + b);
    assert [head] + a + b == [head] + (a + b);
    SpacedAppend(a, b);
    ScanTerms(u, r.terms, Spaced(b));
    ScanClauses(u, RecallClausesOf(r));
    IsVerb(u);
    ScanVerb(u, "recall", r.selector, Spaced(a) + Spaced(b));
  }

  lemma IsVerb(u: Script)
    requires Lawful(u)
    ensures IsWordText(u, "recall") && IsWordText(u, "remember")
    ensures Keyword("recall") == Recall && Keyword("remember") == Remember
  {
  }

  lemma ClauseCount(r: RecallNode)
    ensures |RecallClausesOf(r)| >= |r.entities| + |r.topics| + if r.vec.Some? then 1 else 0
  {
  }

  lemma TermsSpaced(u: Script, r: RecallNode)
    requires Lawful(u) && GoodRecall(u, r) && IsSeeded(u, r)
    ensures var more := TermsTokens(u, r.terms) + ClausesTokens(u, RecallClausesOf(r));
            more != [] && more[0] == SPACE && |more| > 1 && more[1].kind != At
  {
    if r.terms != [] {
      hide Lawful, GoodTerm, GoodClause, TermToken, RecallClausesOf, ClausesTokens;
      TermTokenRead(u, r.terms[0]);
    } else {
      hide Lawful, GoodTerm, GoodClause, RecallClausesOf, ClausesTokens;
      ClauseCount(r);
      ClausesGood(u, r);
      var c := RecallClausesOf(r)[0];
      assert c in RecallClausesOf(r);
      ClausesHead(u, RecallClausesOf(r));
    }
  }

  lemma {:induction false} NormalTermsAt(u: Script, ts: seq<Term>, i: nat)
    requires i < |ts|
    ensures |NormalTerms(u, ts)| == |ts| && NormalTerms(u, ts)[i] == NormalTerm(u, ts[i])
    decreases |ts|
  {
    if |ts| > 1 {
      NormalTermsAt(u, ts[1..], if i > 0 then i - 1 else 0);
    }
  }

  lemma {:induction false} NormalAnchorsAt(u: Script, s: seq<Anchor>, i: nat)
    requires i < |s|
    ensures |NormalAnchors(u, s)| == |s| && NormalAnchors(u, s)[i] == NormalAnchor(u, s[i])
    decreases |s|
  {
    if |s| > 1 {
      NormalAnchorsAt(u, s[1..], if i > 0 then i - 1 else 0);
    }
  }

  /** A seeded recall is still seeded as it is read back. */
  lemma NormalSeeded(u: Script, r: RecallNode)
    requires Lawful(u) && GoodRecall(u, r) && IsSeeded(u, r)
    ensures IsSeeded(u, NormalRecall(u, r))
  {
    hide Lawful, Keyword, KindOf, GoodClause, Fold, IsEmpty;
    if r.terms != [] && r.vec == None {
      var t :| t in r.terms && CanMatch(u, t);
      var i :| 0 <= i < |r.terms| && r.terms[i] == t;
      NormalTermsAt(u, r.terms, i);
      CanStillMatch(u, t);
      assert NormalTerm(u, t) in NormalTerms(u, r.terms);
    }
  }

  lemma CanStillMatch(u: Script, t: Term)
    requires GoodTerm(u, t) && CanMatch(u, t)
    ensures CanMatch(u, NormalTerm(u, t))
  {
    hide IsEmpty, Fold;
  }

  lemma ReparseRecall(u: Script, r: RecallNode)
    requires Lawful(u) && GoodRecall(u, r) && IsSeeded(u, r)
    ensures ParseTokens(u, Tokens(u, Print(RecallCommand(r)))) ==
            if IsUnsigned(RecallCommand(r)) then Some(RecallCommand(NormalRecall(u, r))) else None
  {
    hide Tokens, Lawful, GoodTerm, GoodClause, RecallClausesOf, SelectorTokens, TermsTokens, ClausesTokens, IsSeeded,
        Print,
         ParseSelector, Reread, RecallClauses, NormalRecall, NormalTerms;
    var cs := RecallClausesOf(r);
    var more := TermsTokens(u, r.terms) + ClausesTokens(u, cs);
    var ts := Tokens(u, Print(RecallCommand(r)));
    var terms := NormalTerms(u, r.terms);
    RecallTokens(u, r);
    TermsSpaced(u, r);
    assert ts[0] == Token(Recall, "recall") && Drop(ts) == SelectorTokens(r.selector) + more;
    RereadSelector(r.selector, more);
    assert ParseTerms(u, more[1..], []) == ParseTerms(u, more, []);
    ClausesGood(u, r);
    ClausesSpaced(u, cs);
    RereadTerms(u, r.terms, ClausesTokens(u, cs), []);
    assert [] + terms == terms;
    TermsEnd(u, cs, terms);
    RereadClauses(u, cs, RecallNode(r.selector, terms, [], [], None, None, None, None, None));
    RereadAll(u, r, terms);
    assert NormalRecall(u, r).(terms := terms) == NormalRecall(u, r) by { NormalFields(u, r); }
    NormalSeeded(u, r);
  }

  lemma NormalFields(u: Script, r: RecallNode)
    ensures NormalRecall(u, r).(terms := NormalTerms(u, r.terms)) == NormalRecall(u, r)
  {
  }

  lemma ClausesSpaced(u: Script, cs: seq<Clause>)
    ensures ClausesTokens(u, cs) == [] || ClausesTokens(u, cs)[0] == SPACE
  {
  }

  // ---------------------------------------------------------------- the printed remember

  lemma NotesGood(u: Script, m: RememberNode)
    requires GoodRemember(u, m)
    ensures forall c :: c in RememberClausesOf(m) ==> GoodClause(u, c)
  {
    hide GoodClause;
  }

  lemma RememberTokens(u: Script, m: RememberNode)
    requires Lawful(u) && GoodRemember(u, m)
    ensures Tokens(u, Print(RememberCommand(m))) ==
            [Token(Remember, "remember")] + SelectorTokens(m.selector)
                + ([SPACE, Token(Phrase, m.fact)] + ClausesTokens(u, RememberClausesOf(m)))
  {
    hide Tokens, Lawful, GoodClause, RememberClausesOf, Clause.Text, PrintSelector, SelectorTokens, ClausesTokens,
        Doubled, IsEmpty, Scan, Keyword;
    var b := Map((k: Clause) => k.Text(), RememberClausesOf(m));
    var head := "remember" + PrintSelector(m.selector);
    var fact := Quote(m.fact);
    NotesGood(u, m);
    JoinSpaced(head, [fact] + b);
    assert [head, fact] + b == [head] + ([fact] + b);
    assert ([fact] + b)[1..] == b;
    ScanClauses(u, RememberClausesOf(m));
    ScanQuoted(u, m.fact, Spaced(b));
    ScanSpace(u, fact + Spaced(b));
    assert Spaced([fact] + b) == " " + (fact + Spaced(b));
    IsVerb(u);
    ScanVerb(u, "remember", m.selector, Spaced([fact] + b));
  }

  lemma SkipSpaceOnWrite(u: Script, ts: seq<Token>, m: RememberNode)
    requires ts != [] && ts[0] == SPACE
    ensures RememberClauses(u, ts, m) == RememberClauses(u, ts[1..], m)
  {
  }

  lemma {:induction false} RereadAnchors(u: Script, s: seq<Anchor>, rest: seq<Clause>, m: RememberNode)
    requires Lawful(u) && GoodAnchors(u, s)
    requires forall c :: c in rest ==> GoodClause(u, c)
    ensures RememberClauses(u, ClausesTokens(u, Map(a => AnchorClause(a), s) + rest), m) ==
            RememberClauses(u, ClausesTokens(u, rest), m.(anchors := m.anchors + NormalAnchors(u, s)))
    decreases |s|
  {
    hide Lawful, GoodClause, ClauseTokens, RememberClauses, NormalAnchor;
    var all := Map(a => AnchorClause(a), s) + rest;
    if s == [] {
      assert all == rest && m.anchors + [] == m.anchors;
    } else {
      var c := AnchorClause(s[0]);
      assert all[0] == c && all[1..] == Map(a => AnchorClause(a), s[1..]) + rest;
      var more := ClausesTokens(u, all[1..]);
      var m2 := m.(anchors := m.anchors + [NormalAnchor(u, s[0])]);
      RereadAnchors(u, s[1..], rest, m2);
      assert m2.anchors + NormalAnchors(u, s[1..]) == m.anchors + NormalAnchors(u, s);
      ClausesSpaced(u, all[1..]);
      RereadNote(u, s[0], more, m);
      assert ClausesTokens(u, all) == [SPACE] + (ClauseTokens(u, c) + more);
      SkipSpaceOnWrite(u, ClausesTokens(u, all), m);
    }
  }

  lemma RereadNote(u: Script, a: Anchor, more: seq<Token>, m: RememberNode)
    requires Lawful(u) && GoodClause(u, AnchorClause(a)) && MoreClauses(more)
    ensures RememberClauses(u, ClauseTokens(u, AnchorClause(a)) + more, m) ==
            RememberClauses(u, more, m.(anchors := m.anchors + [NormalAnchor(u, a)]))
  {
    hide Lawful, GoodClause, ParseAnchor, ValueTokens, MoreClauses;
    var c := AnchorClause(a);
    var ts := ClauseTokens(u, c) + more;
    assert ts[0] == a.key && ts[1] == Token(Colon, ":");
    ClauseKind(u, c);
    RereadAnchor(u, a, more);
    assert !IsAtEnd(ts) && !IsDangling(ts);
  }

  lemma ReparseRemember(u: Script, m: RememberNode)
    requires Lawful(u) && GoodRemember(u, m)
    ensures ParseTokens(u, Tokens(u, Print(RememberCommand(m)))) == Some(Normal(u, RememberCommand(m)))
  {
    hide Tokens, Lawful, GoodClause, RememberClausesOf, SelectorTokens, ClausesTokens, Print, ParseSelector,
        RememberClauses, IsEmpty;
    var cs := RememberClausesOf(m);
    var tail := ClausesTokens(u, cs);
    var more := [SPACE, Token(Phrase, m.fact)] + tail;
    var ts := Tokens(u, Print(RememberCommand(m)));
    RememberTokens(u, m);
    assert ts[0] == Token(Remember, "remember") && Drop(ts) == SelectorTokens(m.selector) + more;
    RereadSelector(m.selector, more);
    ClausesSpaced(u, cs);
    assert more[1..] == [Token(Phrase, m.fact)] + tail && Drop(more[1..]) == tail;
    RereadNotes(u, m);
  }

  lemma RereadNotes(u: Script, m: RememberNode)
    requires Lawful(u) && GoodRemember(u, m)
    ensures RememberClauses(u, ClausesTokens(u, RememberClausesOf(m)), RememberNode(m.selector, m.fact, [], None)) ==
            Done(m.(anchors := NormalAnchors(u, m.anchors)), [])
  {
    var vec := Option2Seq(m.vec, v => VecClause(v));
    var m0 := RememberNode(m.selector, m.fact, [], None);
    hide Lawful, GoodClause, ClauseTokens;
    RereadAnchors(u, m.anchors, vec, m0);
    assert [] + NormalAnchors(u, m.anchors) == NormalAnchors(u, m.anchors);
    var m1 := m0.(anchors := NormalAnchors(u, m.anchors));
    if m.vec.Some? {
      assert vec[0] == VecClause(m.vec.value) && vec[1..] == [];
      RereadWriteVec(u, m.vec.value, m1);
      assert ClausesTokens(u, vec) == [SPACE] + ClauseTokens(u, vec[0]);
      SkipSpaceOnWrite(u, ClausesTokens(u, vec), m1);
    }
  }

  lemma RereadWriteVec(u: Script, v: VecField, m: RememberNode)
    requires Lawful(u) && GoodClause(u, VecClause(v)) && m.vec == None
    ensures RememberClauses(u, ClauseTokens(u, VecClause(v)), m) == Done(m.(vec := Some(v)), [])
  {
    hide Lawful, GoodClause, ParseVec, ValueTokens;
    var ts := ClauseTokens(u, VecClause(v));
    assert ts[0] == v.key && ts[1] == Token(Colon, ":");
    ClauseKind(u, VecClause(v));
    RereadVec(u, v, []);
    assert ts + [] == ts;
    assert !IsAtEnd(ts) && !IsDangling(ts);
  }

  // ---------------------------------------------------------------- the printed text is UTF-8

  lemma {:induction false} DoubledClean(s: string)
    requires RUNE_ERROR !in s
    ensures RUNE_ERROR !in Doubled(s)
  {
    if s != [] {
      DoubledClean(s[1..]);
    }
  }

  lemma SpellClean(tok: Token, text: string)
    requires RUNE_ERROR !in text
    ensures RUNE_ERROR !in Spell(tok, text)
  {
    DoubledClean(text);
  }

  lemma ItoaClean(i: int)
    ensures RUNE_ERROR !in Itoa(i)
  {
    hide Digits;
    var d := Digits(if i < 0 then -i else i);
    DigitsAreDigits(if i < 0 then -i else i);
    forall k | 0 <= k < |d| ensures d[k] != RUNE_ERROR {
      assert '0' <= d[k] <= '9';
    }
  }

  lemma ClauseClean(u: Script, c: Clause)
    requires GoodClause(u, c)
    ensures RUNE_ERROR !in c.Text()
  {
    hide Itoa, Spell, Keyword, IsWordText, Fold, IsEmpty, IsBare, KindOf;
    match c
    case AnchorClause(a) => SpellClean(a.tok, a.value);
    case IntClause(i) => ItoaClean(i.value);
    case TimeClause(t) => SpellClean(t.tok, t.tok.lit);
    case VecClause(_) =>
  }

  lemma {:induction false} SpacedClean(parts: seq<string>)
    requires forall i :: 0 <= i < |parts| ==> RUNE_ERROR !in parts[i]
    ensures RUNE_ERROR !in Spaced(parts)
    decreases |parts|
  {
    if parts != [] {
      SpacedClean(parts[1..]);
    }
  }

  lemma HeadClean(s: Option<nat>)
    ensures RUNE_ERROR !in "recall" + PrintSelector(s) && RUNE_ERROR !in "remember" + PrintSelector(s)
  {
    if s.Some? {
      ItoaClean(s.value);
    }
  }

  lemma PrintClean(u: Script, c: Command)
    requires GoodCommand(u, c)
    ensures RUNE_ERROR !in Print(c)
  {
    hide GoodClause, GoodValue, IsEmpty, PrintSelector, Clause.Text, Spell, Doubled, Fold, RecallClausesOf,
        RememberClausesOf, IsSeeded;
    match c
    case RecallCommand(r) =>
      var a, b := Map(t => PrintTerm(t), r.terms), Map((k: Clause) => k.Text(), RecallClausesOf(r));
      var head := "recall" + PrintSelector(r.selector);
      JoinSpaced(head, a + b);
      assert [head] + a + b == [head] + (a + b);
      HeadClean(r.selector);
      ClausesGood(u, r);
      forall i | 0 <= i < |a| ensures RUNE_ERROR !in a[i] { TermClean(u, r.terms[i]); }
      forall i | 0 <= i < |b| ensures RUNE_ERROR !in b[i] { ClauseClean(u, RecallClausesOf(r)[i]); }
      SpacedClean(a + b);
    case RememberCommand(m) =>
      var b := Map((k: Clause) => k.Text(), RememberClausesOf(m));
      var head := "remember" + PrintSelector(m.selector);
      JoinSpaced(head, [Quote(m.fact)] + b);
      assert [head, Quote(m.fact)] + b == [head] + ([Quote(m.fact)] + b);
      HeadClean(m.selector);
      NotesGood(u, m);
      forall i | 0 <= i < |b| ensures RUNE_ERROR !in b[i] { ClauseClean(u, RememberClausesOf(m)[i]); }
      DoubledClean(m.fact);
      SpacedClean([Quote(m.fact)] + b);
  }

  lemma TermClean(u: Script, t: Term)
    requires GoodTerm(u, t)
    ensures RUNE_ERROR !in PrintTerm(t)
  {
    SpellClean(t.tok, t.value);
  }

  // ---------------------------------------------------------------- the theorem

  lemma NormalMeans(u: Script, c: Command)
    requires GoodCommand(u, c)
    ensures MeaningOf(Normal(u, c)) == MeaningOf(c) && Print(Normal(u, c)) == Print(c)
  {
    hide GoodClause, GoodTerm, IsSeeded, IsEmpty, RecallClausesOf, RememberClausesOf, Clause.Text, Join;
    match c
    case RecallCommand(r) =>
      SameTerms(u, r.terms);
      SameAnchors(u, r.entities);
      SameAnchors(u, r.topics);
      SameRecallTexts(u, r);
    case RememberCommand(m) =>
      SameAnchors(u, m.anchors);
      SameRememberTexts(u, m);
  }

  function Texts(cs: seq<Clause>): seq<string> { Map((k: Clause) => k.Text(), cs) }

  lemma TextsAppend(a: seq<Clause>, b: seq<Clause>)
    ensures Texts(a + b) == Texts(a) + Texts(b)
  {
  }

  lemma SameModifierTexts(u: Script, r: RecallNode)
    requires r.since.Some? ==> r.since.value.tok.kind == Phrase || r.since.value.tok.lit != []
    requires r.until.Some? ==> r.until.value.tok.kind == Phrase || r.until.value.tok.lit != []
    ensures Texts(Modifiers(NormalRecall(u, r))) == Texts(Modifiers(r))
  {
    hide Spell, Respell, Clause.Text, NormalTerms, NormalAnchors;
    var n := NormalRecall(u, r);
    if r.since.Some? { SameTime(u, r.since.value); }
    if r.until.Some? { SameTime(u, r.until.value); }
    assert forall k :: 0 <= k < |Modifiers(r)| ==> Modifiers(n)[k].Text() == Modifiers(r)[k].Text();
  }

  lemma SameTime(u: Script, t: TimeField)
    requires t.tok.kind == Phrase || t.tok.lit != []
    ensures TimeClause(NormalTime(u, t)).Text() == TimeClause(t).Text()
  {
    SameSpelling(u, t.tok, t.tok.lit);
  }

  lemma TimesSpelled(u: Script, r: RecallNode)
    requires GoodRecall(u, r)
    ensures r.since.Some? ==> r.since.value.tok.kind == Phrase || r.since.value.tok.lit != []
    ensures r.until.Some? ==> r.until.value.tok.kind == Phrase || r.until.value.tok.lit != []
  {
    hide GoodTerm, GoodAnchors, GoodKey;
  }

  lemma SameTexts(e: seq<Clause>, t: seq<Clause>, m: seq<Clause>, e2: seq<Clause>, t2: seq<Clause>, m2: seq<Clause>)
    requires Texts(e) == Texts(e2) && Texts(t) == Texts(t2) && Texts(m) == Texts(m2)
    ensures Texts(e + t + m) == Texts(e2 + t2 + m2)
  {
    hide Texts;
    TextsAppend(e + t, m);
    TextsAppend(e, t);
    TextsAppend(e2 + t2, m2);
    TextsAppend(e2, t2);
  }

  lemma RecallParts(r: RecallNode)
    ensures RecallClausesOf(r) == Map(a => AnchorClause(a), r.entities) + Map(a => AnchorClause(a), r.topics)
            + Modifiers(r)
  {
    hide Map, Option2Seq;
    var e := Map(a => AnchorClause(a), r.entities) + Map(a => AnchorClause(a), r.topics);
    assert RecallClausesOf(r) == e + Modifiers(r);
  }

  lemma SameRecallTexts(u: Script, r: RecallNode)
    requires GoodRecall(u, r)
    ensures Texts(RecallClausesOf(NormalRecall(u, r))) == Texts(RecallClausesOf(r))
  {
    hide GoodClause, GoodTerm, Texts, Map, Modifiers, RecallClausesOf;
    var n := NormalRecall(u, r);
    TimesSpelled(u, r);
    SameModifierTexts(u, r);
    SameAnchors(u, r.entities);
    SameAnchors(u, r.topics);
    RecallParts(r);
    RecallParts(n);
    SameTexts(Map(a => AnchorClause(a), r.entities), Map(a => AnchorClause(a), r.topics), Modifiers(r),
              Map(a => AnchorClause(a), n.entities), Map(a => AnchorClause(a), n.topics), Modifiers(n));
  }

  lemma SameRememberTexts(u: Script, m: RememberNode)
    requires GoodRemember(u, m)
    ensures Texts(RememberClausesOf(m.(anchors := NormalAnchors(u, m.anchors)))) == Texts(RememberClausesOf(m))
  {
    hide GoodClause, Clause.Text;
    SameAnchors(u, m.anchors);
    var vec := Option2Seq(m.vec, v => VecClause(v));
    TextsAppend(Map(a => AnchorClause(a), m.anchors), vec);
    TextsAppend(Map(a => AnchorClause(a), NormalAnchors(u, m.anchors)), vec);
  }

  /** A value re-spelled prints the same: what was quoted is quoted again. */
  lemma SameSpelling(u: Script, tok: Token, text: string)
    requires text != [] || tok.kind == Phrase
    ensures Spell(Respell(u, tok, text), text) == Spell(tok, text)
  {
    hide Doubled, Fold;
  }

  lemma SameTerms(u: Script, ts: seq<Term>)
    requires forall t :: t in ts ==> GoodTerm(u, t)
    ensures Map((t: Term) => t.value, NormalTerms(u, ts)) == Map((t: Term) => t.value, ts)
    ensures Map(t => PrintTerm(t), NormalTerms(u, ts)) == Map(t => PrintTerm(t), ts)
  {
    hide Spell, Respell, Fold, IsEmpty, Keyword;
    forall i | 0 <= i < |ts| ensures |NormalTerms(u, ts)| == |ts| && NormalTerms(u, ts)[i] == NormalTerm(u, ts[i])
                              && PrintTerm(NormalTerm(u, ts[i])) == PrintTerm(ts[i]) {
      NormalTermsAt(u, ts, i);
      assert GoodTerm(u, ts[i]);
      SameSpelling(u, ts[i].tok, ts[i].value);
    }
  }

  lemma SameAnchors(u: Script, s: seq<Anchor>)
    requires GoodAnchors(u, s)
    ensures Map((a: Anchor) => a.value, NormalAnchors(u, s)) == Map((a: Anchor) => a.value, s)
    ensures Map((a: Anchor) => (a.key.kind, a.value), NormalAnchors(u, s)) ==
            Map((a: Anchor) => (a.key.kind, a.value), s)
    ensures Texts(Map(a => AnchorClause(a), NormalAnchors(u, s))) == Texts(Map(a => AnchorClause(a), s))
  {
    hide Spell, Respell, Fold, IsEmpty, Keyword;
    forall i | 0 <= i < |s| ensures |NormalAnchors(u, s)| == |s| && NormalAnchors(u, s)[i] == NormalAnchor(u, s[i])
                             && AnchorClause(NormalAnchor(u, s[i])).Text() == AnchorClause(s[i]).Text() {
      NormalAnchorsAt(u, s, i);
      assert GoodClause(u, AnchorClause(s[i]));
      SameSpelling(u, s[i].tok, s[i].value);
    }
  }

  /** Parsing what a parsed command prints gives the same selector, terms, anchors, top,
      depth, bounds and vector parameter, and prints the same again, if and only if its
      numbers are not negative; otherwise the printed text does not parse. */
  lemma RoundTrip(u: Script, q: string)
    requires Lawful(u) && Parse(u, q).Some?
    ensures var c := Parse(u, q).value;
            var again := Parse(u, Print(c));
            && (again.Some? <==> IsUnsigned(c))
            && (again.Some? ==> MeaningOf(again.value) == MeaningOf(c) && Print(again.value) == Print(c))
  {
    hide Lawful, ParseTokens, Tokens, Print, MeaningOf, GoodRecall, GoodRemember, IsSeeded;
    var c := Parse(u, q).value;
    ParsedGood(u, q);
    PrintClean(u, c);
    NormalMeans(u, c);
    match c
    case RecallCommand(r) => ReparseRecall(u, r);
    case RememberCommand(m) => ReparseRemember(u, m);
  }

  /** The query `recall entity:x top:'-5'`. */
  function QuotedMinusQuery(): string {
    "recall" + PrintSelector(None) + (" " + ("entity" + ":" + ("x" + (" " + ("top" + ":" + (Quote("-5") + ""))))))
  }

  function QuotedMinusTokens(): seq<Token> {
    [Token(Recall, "recall"), SPACE, Token(Entity, "entity"), Token(Colon, ":"), Token(Literal, "x"),
     SPACE, Token(Top, "top"), Token(Colon, ":"), Token(Phrase, "-5")]
  }

  /** The condition is needed: a quoted number may carry a sign, and prints without its
      quotes. */
  lemma QuotedMinus(u: Script)
    requires Lawful(u)
    ensures Parse(u, QuotedMinusQuery()).Some? && Parse(u, Print(Parse(u, QuotedMinusQuery()).value)).None?
  {
    hide Lawful, Tokens, ParseTokens, QuotedMinusQuery, QuotedMinusTokens, Print;
    QuotedMinusScans(u);
    QuotedMinusParses(u);
    QuotedMinusClean();
    RoundTrip(u, QuotedMinusQuery());
  }

  lemma QuotedMinusClean()
    ensures RUNE_ERROR !in QuotedMinusQuery()
  {
    DoubledClean("-5");
  }

  lemma QuotedMinusWords(u: Script)
    requires Lawful(u)
    ensures GoodKey(u, Token(Entity, "entity")) && GoodKey(u, Token(Top, "top"))
    ensures IsWordText(u, "x") && Keyword("x") == Literal
  {
    hide Keyword, Lawful;
    assert Keyword("entity") == Entity && Keyword("top") == Top && Keyword("x") == Literal by { SomeKeywords(); }
    assert u.isWord('x') && (forall c :: c in "entity" ==> u.isWord(c)) && (forall c :: c in "top" ==> u.isWord(c)) by {
      LettersAreWords(u);
    }
  }

  lemma SomeKeywords()
    ensures Keyword("entity") == Entity && Keyword("top") == Top && Keyword("x") == Literal
  {
  }

  lemma LettersAreWords(u: Script)
    requires Lawful(u)
    ensures u.isWord('x') && (forall c :: c in "entity" ==> u.isWord(c)) && forall c :: c in "top" ==> u.isWord(c)
  {
  }

  lemma QuotedMinusScans(u: Script)
    requires Lawful(u)
    ensures Tokens(u, QuotedMinusQuery()) == QuotedMinusTokens()
  {
    hide Tokens, Lawful, Keyword, IsWordText, GoodKey, Quote, PrintSelector;
    IsVerb(u);
    QuotedMinusWords(u);
    var e := Quote("-5") + "";
    var d := "top" + ":" + e;
    var c := "x" + (" " + d);
    var b := "entity" + ":" + c;
    ScanQuoted(u, "-5", "");
    NoTokens(u);
    ScanKey(u, Token(Top, "top"), e);
    ScanSpace(u, d);
    NotWord(u, ' ');
    ScanWord(u, "x", " " + d);
    ScanKey(u, Token(Entity, "entity"), c);
    ScanSpace(u, b);
    ScanVerb(u, "recall", None, " " + b);
  }

  lemma NoTokens(u: Script)
    ensures Tokens(u, "") == []
  {
  }

  lemma QuotedMinusNumber()
    ensures ParseInt(QuotedMinusTokens()[6..]) == Done(IntField(Token(Top, "top"), -5), [])
  {
    assert Atoi("-5") == Some(-5) by { assert "-5"[1..] == "5" && Value("5") == 5; }
    hide Atoi;
    assert Drop(Drop(QuotedMinusTokens()[6..])) == [Token(Phrase, "-5")];
  }

  lemma QuotedMinusClauses(u: Script, r: RecallNode)
    requires Lawful(u) && r.top == None
    ensures RecallClauses(u, QuotedMinusTokens()[2..], r) ==
            Done(r.(entities := r.entities + [Anchor(Token(Entity, "entity"), Token(Literal, "x"), Fold(u, "x"))],
                    top := Some(IntField(Token(Top, "top"), -5))), [])
  {
    hide Lawful, Fold, IsEmpty, ParseInt;
    XIsNoSpace(u);
    QuotedMinusNumber();
    var t := QuotedMinusTokens();
    var a := Anchor(t[2], t[4], Fold(u, "x"));
    var r1 := r.(entities := r.entities + [a]);
    assert ParseAnchor(u, t[2..]) == Done(a, t[5..]);
    assert RecallClauses(u, t[6..], r1) == Done(r1.(top := Some(IntField(t[6], -5))), []);
    assert RecallClauses(u, t[5..], r1) == RecallClauses(u, t[6..], r1);
  }

  lemma QuotedMinusParses(u: Script)
    requires Lawful(u)
    ensures var c := ParseTokens(u, QuotedMinusTokens()); c.Some? && !IsUnsigned(c.value)
  {
    hide Lawful, Fold, RecallClauses;
    var t := QuotedMinusTokens();
    assert ParseSelector(Drop(t)) == Done(None, t[2..]);
    assert ParseTerms(u, t[2..], []) == Done([], t[2..]);
    QuotedMinusClauses(u, RecallNode(None, [], [], [], None, None, None, None, None));
  }

  lemma XIsNoSpace(u: Script)
    requires Lawful(u)
    ensures !IsEmpty(u, "x")
  {
    assert u.isWord("x"[0]);
  }
}