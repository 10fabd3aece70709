/** Every command the parser accepts prints to text that the parser reads back as the
    same command, exactly when its numbers are not negative. */
module FqlRoundTrip {
  import opened Wrappers
  import opened Fql
  import opened FqlGrammar
  import opened FqlPrint
  import opened FqlReread

  // ---------------------------------------------------------------- tokens of a query

  /** What the lexer guarantees of a token. */
  predicate Scanned(u: Script, t: Token) {
    && RUNE_ERROR !in t.lit
    && t.kind != Eol
    && (t.kind == Literal || IsKeyword(t.kind) ==>
          IsWordText(u, t.lit) && (t.kind == KindOf(u, t.lit, true) || t.kind == KindOf(u, t.lit, false)))
    && (t.kind == Phrase || t.kind == Illegal || t.kind == Whitespace || IsBare(u, t.lit))
  }

  ghost predicate AllScanned(u: Script, ts: seq<Token>) { forall i :: 0 <= i < |ts| ==> Scanned(u, ts[i]) }

  lemma {:induction false} UnquoteClean(s: string)
    requires RUNE_ERROR !in s
    ensures RUNE_ERROR !in Unquote(s).0 && (Unquote(s).1.Some? ==> RUNE_ERROR !in Unquote(s).1.value)
  {
    if s != [] {
      UnquoteClean(s[1..]);
      if |s| > 1 {
        UnquoteClean(s[2..]);
      }
    }
  }

  lemma WordScanned(u: Script, s: string, colon: bool)
    requires IsWordText(u, s) && RUNE_ERROR !in s
    ensures Scanned(u, Token(KindOf(u, s, colon), s))
  {
    hide Keyword, IsWordText;
    KeywordKinds(s);
    KeywordKinds(Fold(u, s));
  }

  lemma ScanScanned(u: Script, s: string)
    requires Lawful(u) && s != [] && RUNE_ERROR !in s
    ensures Scanned(u, Scan(u, s).0) && RUNE_ERROR !in Scan(u, s).1
  {
    hide Lawful, KindOf, Keyword, Run, Unquote;
    if s[0] == '\'' {
      UnquoteClean(s[1..]);
    } else if IsBlank(s[0]) {
    } else if Symbol(s[0]) == Special && u.isWord(s[0]) {
      var n := Run(u.isWord, s);
      assert n > 0;
      WordScanned(u, s[..n], StartsWith(s[n..], ':'));
    } else if Symbol(s[0]) != Special {
      NotWord(u, s[0]);
    }
  }

  lemma KeywordKinds(s: string)
    ensures Keyword(s) == Literal || IsKeyword(Keyword(s))
  {
  }

  lemma {:induction false} TokensScanned(u: Script, s: string)
    requires Lawful(u) && RUNE_ERROR !in s
    ensures AllScanned(u, Tokens(u, s))
    decreases |s|
  {
    hide Lawful, Scanned, Scan;
    if s != [] {
      ScanScanned(u, s);
      TokensScanned(u, Scan(u, s).1);
    }
  }

  // ---------------------------------------------------------------- what the parser builds

  ghost predicate GoodAnchors(u: Script, s: seq<Anchor>) {
    forall i :: 0 <= i < |s| ==> GoodClause(u, AnchorClause(s[i]))
  }

  predicate GoodSelector(s: Option<nat>) { s.Some? ==> s.value <= 255 }

  ghost predicate GoodRecall(u: Script, r: RecallNode) {
    && GoodSelector(r.selector)
    && (forall t :: t in r.terms ==> GoodTerm(u, t))
    && GoodAnchors(u, r.entities) && (forall i :: 0 <= i < |r.entities| ==> r.entities[i].key.kind == Entity)
    && GoodAnchors(u, r.topics) && (forall i :: 0 <= i < |r.topics| ==> r.topics[i].key.kind == Topic)
    && (r.top.Some? ==> GoodClause(u, IntClause(r.top.value)) && r.top.value.key.kind == Top)
    && (r.depth.Some? ==> GoodClause(u, IntClause(r.depth.value)) && r.depth.value.key.kind == Depth)
    && (r.since.Some? ==> GoodClause(u, TimeClause(r.since.value)) && r.since.value.key.kind == Since)
    && (r.until.Some? ==> GoodClause(u, TimeClause(r.until.value)) && r.until.value.key.kind == Until)
    && (r.vec.Some? ==> GoodClause(u, VecClause(r.vec.value)))
  }

  ghost predicate GoodRemember(u: Script, m: RememberNode) {
    && GoodSelector(m.selector)
    && !IsEmpty(u, m.fact) && RUNE_ERROR !in m.fact
    && GoodAnchors(u, m.anchors)
    && (m.vec.Some? ==> GoodClause(u, VecClause(m.vec.value)))
  }

  lemma GoodKeys(u: Script, t: Token)
    requires Scanned(u, t) && IsKeyword(t.kind)
    ensures GoodKey(u, t)
  {
    hide IsWordText, IsBare, Keyword;
  }

  lemma FoldClean(u: Script, s: string)
    requires Lawful(u)
    ensures Fold(u, Fold(u, s)) == Fold(u, s) && IsEmpty(u, Fold(u, s)) == IsEmpty(u, s)
    ensures RUNE_ERROR !in s ==> RUNE_ERROR !in Fold(u, s)
    ensures IsWordText(u, s) ==> IsWordText(u, Fold(u, s))
    ensures u.isStop(Fold(u, s)) == u.isStop(s)
  {
    if !IsEmpty(u, s) {
      var i :| 0 <= i < |s| && !u.isSpace(s[i]);
      assert !u.isSpace(Fold(u, s)[i]);
    }
  }

  lemma AnchorGood(u: Script, ts: seq<Token>)
    requires Lawful(u) && AllScanned(u, ts) && (Peek(ts, 0).kind == Entity || Peek(ts, 0).kind == Topic)
            && ParseAnchor(u, ts).Done?
    ensures GoodClause(u, AnchorClause(ParseAnchor(u, ts).value)) && ParseAnchor(u, ts).value.key == Peek(ts, 0)
    ensures AllScanned(u, ParseAnchor(u, ts).rest)
  {
    hide Lawful, GoodKey, Fold, IsEmpty, KindOf;
    var a := ParseAnchor(u, ts).value;
    GoodKeys(u, ts[0]);
    FoldClean(u, a.tok.lit);
    assert a.tok == ts[2];
    assert Scanned(u, ts[2]);
  }

  lemma IntGood(u: Script, ts: seq<Token>)
    requires AllScanned(u, ts) && (Peek(ts, 0).kind == Top || Peek(ts, 0).kind == Depth) && ParseInt(ts).Done?
    ensures GoodClause(u, IntClause(ParseInt(ts).value)) && ParseInt(ts).value.key == Peek(ts, 0)
    ensures AllScanned(u, ParseInt(ts).rest)
  {
    hide GoodKey, KindOf, IsWordText, IsBare;
    GoodKeys(u, ts[0]);
  }

  lemma TimeGood(u: Script, ts: seq<Token>)
    requires Lawful(u) && AllScanned(u, ts) && (Peek(ts, 0).kind == Since || Peek(ts, 0).kind == Until)
            && ParseTime(u, ts).Done?
    ensures GoodClause(u, TimeClause(ParseTime(u, ts).value)) && ParseTime(u, ts).value.key == Peek(ts, 0)
    ensures AllScanned(u, ParseTime(u, ts).rest)
  {
    hide GoodKey, KindOf, IsWordText, IsBare;
    GoodKeys(u, ts[0]);
    var t := ParseTime(u, ts).value;
    assert t.tok == Peek(ts, 2);
    assert u.time("") == None;
    assert |ts| > 2 && Scanned(u, ts[2]);
  }

  lemma ScannedAt(u: Script, ts: seq<Token>, i: nat)
    requires AllScanned(u, ts) && i < |ts|
    ensures Scanned(u, ts[i]) && AllScanned(u, ts[i + 1..])
  {
  }

  lemma VecGood(u: Script, ts: seq<Token>)
    requires AllScanned(u, ts) && Peek(ts, 0).kind == Vec && ParseVec(ts).Done?
    ensures GoodClause(u, VecClause(ParseVec(ts).value)) && ParseVec(ts).value.key == Peek(ts, 0)
    ensures AllScanned(u, ParseVec(ts).rest)
  {
    hide GoodKey, IsWordText, IsBare, Keyword, Fold, AllScanned;
    ScannedAt(u, ts, 0);
    ScannedAt(u, ts, 3);
    assert ParseVec(ts).rest == ts[4..];
    GoodKeys(u, ts[0]);
    assert ParseVec(ts).value.param == ts[3];
    assert Scanned(u, ts[3]);
  }

  lemma TermGood(u: Script, t: Token)
    requires Lawful(u) && Scanned(u, t) && (t.kind == Literal || t.kind == Phrase) && !IsMisCased(u, t)
            && !IsEmpty(u, t.lit)
    ensures GoodTerm(u, Term(t, Fold(u, t.lit)))
  {
    hide Lawful, Fold, IsEmpty, Keyword;
    FoldClean(u, t.lit);
  }

  lemma {:induction false} TermsGood(u: Script, ts: seq<Token>, acc: seq<Term>)
    requires Lawful(u) && AllScanned(u, ts) && ParseTerms(u, ts, acc).Done? && forall t :: t in acc ==> GoodTerm(u, t)
    ensures forall t :: t in ParseTerms(u, ts, acc).value ==> GoodTerm(u, t)
    ensures AllScanned(u, ParseTerms(u, ts, acc).rest)
    decreases |ts|
  {
    hide Lawful, Scanned, GoodTerm, IsEmpty, Fold, IsMisCased;
    if IsAtEnd(ts) {
    } else if ts[0].kind == Whitespace {
      TermsGood(u, ts[1..], acc);
    } else if IsMisCased(u, ts[0]) {
    } else if !IsValue(ts) {
    } else {
      TermGood(u, ts[0]);
      TermsGood(u, ts[1..], acc + [Term(ts[0], Fold(u, ts[0].lit))]);
    }
  }

  lemma RecallClauseGood(u: Script, ts: seq<Token>, r: RecallNode)
    requires Lawful(u) && AllScanned(u, ts) && !IsAtEnd(ts) && GoodRecall(u, r) && RecallClause(u, ts, r).Done?
    ensures GoodRecall(u, RecallClause(u, ts, r).value) && AllScanned(u, RecallClause(u, ts, r).rest)
    ensures RecallClause(u, ts, r).value.terms == r.terms
  {
    hide Lawful, Scanned, GoodTerm, GoodClause, GoodSelector, ParseAnchor, ParseInt, ParseTime, ParseVec;
    match ts[0].kind
    case Entity => AnchorGood(u, ts);
    case Topic => AnchorGood(u, ts);
    case Until => TimeGood(u, ts);
    case Since => TimeGood(u, ts);
    case Depth => IntGood(u, ts);
    case Top => IntGood(u, ts);
    case Vec => VecGood(u, ts);
    case _ =>
  }

  lemma {:induction false} RecallClausesGood(u: Script, ts: seq<Token>, r: RecallNode)
    requires Lawful(u) && AllScanned(u, ts) && GoodRecall(u, r) && RecallClauses(u, ts, r).Done?
    ensures GoodRecall(u, RecallClauses(u, ts, r).value) && RecallClauses(u, ts, r).value.terms == r.terms
    decreases |ts|
  {
    hide Lawful, AllScanned, GoodRecall, RecallClause;
    if !IsAtEnd(ts) {
      RecallClauseGood(u, ts, r);
      var p := RecallClause(u, ts, r);
      RecallClausesGood(u, p.rest, p.value);
    }
  }

  lemma {:induction false} RememberClausesGood(u: Script, ts: seq<Token>, m: RememberNode)
    requires Lawful(u) && AllScanned(u, ts) && GoodRemember(u, m) && RememberClauses(u, ts, m).Done?
    ensures GoodRemember(u, RememberClauses(u, ts, m).value)
    decreases |ts|
  {
    hide Lawful, Scanned, GoodClause, GoodSelector, ParseAnchor, ParseVec;
    if !IsAtEnd(ts) {
      if ts[0].kind == Entity || ts[0].kind == Topic {
        AnchorGood(u, ts);
      } else if ts[0].kind == Vec {
        VecGood(u, ts);
      }
      var p := RememberClause(u, ts, m);
      assert AllScanned(u, p.rest) && GoodRemember(u, p.value);
      RememberClausesGood(u, p.rest, p.value);
    }
  }

  ghost predicate GoodCommand(u: Script, c: Command) {
    match c
    case RecallCommand(r) => GoodRecall(u, r) && IsSeeded(u, r)
    case RememberCommand(m) => GoodRemember(u, m)
  }

  /** Every parsed command is one that can be spelled. */
  lemma ParsedGood(u: Script, q: string)
    requires Lawful(u) && Parse(u, q).Some?
    ensures GoodCommand(u, Parse(u, q).value)
  {
    hide Lawful, Tokens, Scanned, GoodTerm, GoodClause, IsSeeded, ParseTerms, RecallClauses, RememberClauses, Atoi,
        IsEmpty;
    var ts := Tokens(u, q);
    TokensScanned(u, q);
    var sel := ParseSelector(Drop(ts));
    assert AllScanned(u, sel.rest);
    if Peek(ts, 0).kind == Remember {
      var f := ParsePhrase(u, sel.rest);
      assert AllScanned(u, f.rest);
      assert RUNE_ERROR !in f.value by { ScannedClean(u, sel.rest[0]); }
      RememberClausesGood(u, f.rest, RememberNode(sel.value, f.value, [], None));
    } else {
      var t := ParseTerms(u, sel.rest, []);
      TermsGood(u, sel.rest, []);
      RecallClausesGood(u, t.rest, RecallNode(sel.value, t.value, [], [], None, None, None, None, None));
    }
  }

  lemma ScannedClean(u: Script, t: Token)
    requires Scanned(u, t)
    ensures RUNE_ERROR !in t.lit
  {
  }
}
