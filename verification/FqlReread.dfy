/** Reading a printed command back: the parser meets the printed parts one by one and
    rebuilds them. */
module FqlReread {
  import opened Wrappers
  import opened Fql
  import opened FqlGrammar
  import opened FqlPrint

  const SPACE := Token(Whitespace, " ")

  // ---------------------------------------------------------------- tokens of the whole text

  function Spaced(parts: seq<string>): string { if parts == [] then "" else " " + parts[0] + Spaced(parts[1..]) }

  lemma {:induction false} JoinSpaced(head: string, parts: seq<string>)
    ensures Join([head] + parts) == head + Spaced(parts)
    decreases |parts|
  {
    if parts != [] {
      JoinSpaced(parts[0], parts[1..]);
      assert [parts[0]] + parts[1..] == parts && ([head] + parts)[1..] == parts;
    }
  }

  predicate GoodTerm(u: Script, t: Term) {
    && GoodValue(u, t.tok, t.value) && !IsEmpty(u, t.value) && Fold(u, t.value) == t.value
    && (t.tok.kind != Phrase ==> IsWordText(u, t.value) && Keyword(t.value) == Literal && t.tok.kind == Literal)
    && u.isStop(t.tok.lit) == u.isStop(t.value)
  }

  function TermToken(u: Script, t: Term): Token { Respell(u, t.tok, t.value) }

  function TermsTokens(u: Script, ts: seq<Term>): seq<Token> {
    if ts == [] then [] else [SPACE, TermToken(u, ts[0])] + TermsTokens(u, ts[1..])
  }

  function ClausesTokens(u: Script, cs: seq<Clause>): seq<Token> {
    if cs == [] then [] else [SPACE] + ClauseTokens(u, cs[0]) + ClausesTokens(u, cs[1..])
  }

  lemma SpelledStart(u: Script, tok: Token, text: string)
    requires Lawful(u) && GoodValue(u, tok, text)
    ensures Spell(tok, text) != [] && !IsBlank(Spell(tok, text)[0])
  {
    if tok.kind != Phrase && IsWordText(u, text) {
      assert !IsSyntax(text[0]);
    }
  }

  lemma KeyStart(u: Script, c: Clause)
    requires Lawful(u) && GoodClause(u, c)
    ensures c.Text() != [] && !IsBlank(c.Text()[0])
  {
    assert !IsSyntax(c.Key().lit[0]);
    assert c.Text()[0] == c.Key().lit[0];
  }

  lemma {:induction false} ScanTerms(u: Script, ts: seq<Term>, rest: string)
    requires Lawful(u) && Ends(rest) && forall t :: t in ts ==> GoodTerm(u, t)
    ensures Tokens(u, Spaced(Map(t => PrintTerm(t), ts)) + rest) == TermsTokens(u, ts) + Tokens(u, rest)
    decreases |ts|
  {
    hide Tokens, Lawful, GoodTerm, GoodValue, Respell, Spell;
    var texts := Map(t => PrintTerm(t), ts);
    if ts == [] {
      assert Spaced(texts) + rest == rest;
    } else {
      var t := ts[0];
      assert texts[1..] == Map(t => PrintTerm(t), ts[1..]);
      var more := Spaced(texts[1..]) + rest;
      ScanTerms(u, ts[1..], rest);
      assert GoodValue(u, t.tok, t.value) by { GoodTermValue(u, t); }
      SpelledStart(u, t.tok, t.value);
      ScanSpelled(u, t.tok, t.value, more);
      ScanSpace(u, PrintTerm(t) + more);
      assert Spaced(texts) + rest == " " + (PrintTerm(t) + more);
    }
  }

  lemma GoodTermValue(u: Script, t: Term)
    requires GoodTerm(u, t)
    ensures GoodValue(u, t.tok, t.value)
  {
  }

  lemma {:induction false} ScanClauses(u: Script, cs: seq<Clause>)
    requires Lawful(u) && forall c :: c in cs ==> GoodClause(u, c)
    ensures Tokens(u, Spaced(Map((k: Clause) => k.Text(), cs))) == ClausesTokens(u, cs)
    decreases |cs|
  {
    hide Lawful, GoodClause, ClauseTokens, Clause.Text, Scan;
    var texts := Map((k: Clause) => k.Text(), cs);
    if cs != [] {
      var c := cs[0];
      assert texts[1..] == Map((k: Clause) => k.Text(), cs[1..]);
      var more := Spaced(texts[1..]);
      ScanClauses(u, cs[1..]);
      KeyStart(u, c);
      ScanClause(u, c, more);
      ScanSpace(u, c.Text() + more);
      assert Spaced(texts) == " " + (c.Text() + more);
    }
  }

  function SelectorTokens(s: Option<nat>): seq<Token> {
    if s.Some? then [Token(At, "@"), Token(Literal, Digits(s.value))] else []
  }

  lemma ScanVerb(u: Script, verb: string, s: Option<nat>, rest: string)
    requires Lawful(u) && Ends(rest) && IsWordText(u, verb) && Keyword(verb) != Literal
    ensures Tokens(u, verb + PrintSelector(s) + rest) ==
            [Token(Keyword(verb), verb)] + SelectorTokens(s) + Tokens(u, rest)
  {
    hide Tokens, Lawful, IsWordText, Keyword, Digits;
    NotWord(u, '@');
    NotWord(u, ' ');
    if s.Some? {
      ScanDigits(u, s.value, rest);
      ScanSymbol(u, '@', Digits(s.value) + rest);
      ScanWord(u, verb, ['@'] + (Digits(s.value) + rest));
      assert verb + PrintSelector(s) + rest == verb + (['@'] + (Digits(s.value) + rest));
    } else {
      ScanWord(u, verb, rest);
      assert verb + PrintSelector(s) + rest == verb + rest;
    }
  }

  // ---------------------------------------------------------------- terms

  function NormalTerm(u: Script, t: Term): Term { Term(TermToken(u, t), t.value) }

  function NormalTerms(u: Script, ts: seq<Term>): seq<Term> {
    if ts == [] then [] else [NormalTerm(u, ts[0])] + NormalTerms(u, ts[1..])
  }

  lemma {:induction false} RereadTerms(u: Script, ts: seq<Term>, more: seq<Token>, acc: seq<Term>)
    requires Lawful(u) && (forall t :: t in ts ==> GoodTerm(u, t)) && (more == [] || more[0] == SPACE)
    ensures ParseTerms(u, TermsTokens(u, ts) + more, acc) == ParseTerms(u, more, acc + NormalTerms(u, ts))
    decreases |ts|
  {
    hide ParseTerms, GoodTerm, Lawful, TermToken;
    if ts == [] {
      assert TermsTokens(u, ts) + more == more && acc + NormalTerms(u, ts) == acc;
    } else {
      var rest := TermsTokens(u, ts[1..]) + more;
      RereadTerm(u, ts[0], rest, acc);
      RereadTerms(u, ts[1..], more, acc + [NormalTerm(u, ts[0])]);
      assert TermsTokens(u, ts) + more == [SPACE, TermToken(u, ts[0])] + rest;
      assert acc + [NormalTerm(u, ts[0])] + NormalTerms(u, ts[1..]) == acc + NormalTerms(u, ts);
    }
  }

  lemma TermTokenRead(u: Script, t: Term)
    requires Lawful(u) && GoodTerm(u, t)
    ensures var k := TermToken(u, t);
            && (k.kind == Literal || k.kind == Phrase) && k.lit == t.value
            && !IsMisCased(u, k) && !IsEmpty(u, k.lit) && Fold(u, k.lit) == t.value
  {
    hide Lawful, Keyword;
  }

  lemma RereadTerm(u: Script, t: Term, more: seq<Token>, acc: seq<Term>)
    requires Lawful(u) && GoodTerm(u, t) && (more == [] || more[0] == SPACE)
    ensures ParseTerms(u, [SPACE, TermToken(u, t)] + more, acc) == ParseTerms(u, more, acc + [NormalTerm(u, t)])
  {
    hide Lawful, GoodTerm, TermToken, Keyword, IsEmpty, Fold;
    TermTokenRead(u, t);
    var ts := [SPACE, TermToken(u, t)] + more;
    var us := [TermToken(u, t)] + more;
    assert ts[1..] == us && us[1..] == more;
    assert ParseTerms(u, ts, acc) == ParseTerms(u, us, acc);
  }

  // ---------------------------------------------------------------- recall clauses

  function NormalAnchor(u: Script, a: Anchor): Anchor { a.(tok := Respell(u, a.tok, a.value)) }

  function NormalTime(u: Script, t: TimeField): TimeField { t.(tok := Respell(u, t.tok, t.tok.lit)) }

  /** Whether the clause loop takes a printed clause: a modifier only once, and a
      number only when it prints without a sign. */
  predicate Fits(r: RecallNode, c: Clause) {
    match c
    case AnchorClause(a) => true
    case IntClause(i) => i.value >= 0 && (if i.key.kind == Top then r.top.None? else r.depth.None?)
    case TimeClause(t) => if t.key.kind == Since then r.since.None? else r.until.None?
    case VecClause(v) => r.vec.None?
  }

  function Add(u: Script, r: RecallNode, c: Clause): RecallNode {
    match c
    case AnchorClause(a) =>
      if a.key.kind == Entity then r.(entities := r.entities + [NormalAnchor(u, a)])
          else r.(topics := r.topics + [NormalAnchor(u, a)])
    case IntClause(i) => if i.key.kind == Top then r.(top := Some(i)) else r.(depth := Some(i))
    case TimeClause(t) => if t.key.kind == Since then r.(since := Some(NormalTime(u, t)))
        else r.(until := Some(NormalTime(u, t)))
    case VecClause(v) => r.(vec := Some(v))
  }

  /** What the clause loop makes of printed clauses. */
  function Reread(u: Script, r: RecallNode, cs: seq<Clause>): Option<RecallNode>
    decreases |cs|
  {
    if cs == [] then Some(r) else if Fits(r, cs[0]) then Reread(u, Add(u, r, cs[0]), cs[1..]) else None
  }

  predicate MoreClauses(more: seq<Token>) { more == [] || more[0] == SPACE }

  lemma AnchorParse(u: Script, key: Token, v: Token, more: seq<Token>)
    requires (v.kind == Literal || v.kind == Phrase || IsKeyword(v.kind)) && !IsEmpty(u, v.lit) && MoreClauses(more)
    ensures ParseAnchor(u, [key, Token(Colon, ":"), v] + more) == Done(Anchor(key, v, Fold(u, v.lit)), more)
  {
    hide Fold, IsEmpty;
    var ts := [key, Token(Colon, ":"), v] + more;
    assert Drop(ts) == [Token(Colon, ":"), v] + more;
    assert Drop(Drop(ts)) == [v] + more;
    assert Drop([v] + more) == more;
  }

  lemma RereadAnchor(u: Script, a: Anchor, more: seq<Token>)
    requires Lawful(u) && GoodClause(u, AnchorClause(a)) && MoreClauses(more)
    ensures ParseAnchor(u, ClauseTokens(u, AnchorClause(a)) + more) == Done(NormalAnchor(u, a), more)
  {
    hide Lawful, Fold, IsEmpty, GoodClause, Respell, ParseAnchor, IsKeyword, MoreClauses;
    var v := Respell(u, a.tok, a.value);
    AnchorTokenRead(u, a);
    AnchorParse(u, a.key, v, more);
    assert ClauseTokens(u, AnchorClause(a)) == [a.key, Token(Colon, ":"), v];
  }

  lemma AnchorTokenRead(u: Script, a: Anchor)
    requires GoodClause(u, AnchorClause(a))
    ensures var v := Respell(u, a.tok, a.value);
            v.lit == a.value && (v.kind == Literal || v.kind == Phrase || IsKeyword(v.kind))
    ensures !IsEmpty(u, a.value) && Fold(u, a.value) == a.value
  {
  }

  lemma RereadInt(u: Script, i: IntField, more: seq<Token>)
    requires Lawful(u) && GoodClause(u, IntClause(i)) && MoreClauses(more)
    ensures ParseInt(ClauseTokens(u, IntClause(i)) + more) == if i.value >= 0 then Done(i, more) else Rejected
  {
    hide Lawful, GoodKey, Digits, Atoi;
    var ts := ClauseTokens(u, IntClause(i)) + more;
    var v := ValueTokens(u, IntClause(i));
    assert ts[0] == i.key;
    assert Drop(ts) == [Token(Colon, ":")] + v + more;
    assert Drop(Drop(ts)) == v + more;
    if i.value >= 0 {
      AtoiItoa(i.value);
      assert Drop(v + more) == more;
    } else {
      AtoiItoa(0);
    }
  }

  lemma RereadTime(u: Script, t: TimeField, more: seq<Token>)
    requires Lawful(u) && GoodClause(u, TimeClause(t)) && MoreClauses(more)
    ensures ParseTime(u, ClauseTokens(u, TimeClause(t)) + more) == Done(NormalTime(u, t), more)
  {
    hide Lawful, GoodKey;
    var ts := ClauseTokens(u, TimeClause(t)) + more;
    var v := Respell(u, t.tok, t.tok.lit);
    assert v.lit == t.tok.lit && v.kind != Illegal && v.kind != Whitespace
        && (v.kind == Phrase ==> t.tok.kind == Phrase) by {
      hide IsWordText;
    }
    hide Respell, IsBare;
    assert ts[0] == t.key;
    assert Drop(ts) == [Token(Colon, ":"), v] + more;
    assert Drop(Drop(ts)) == [v] + more;
    assert Drop([v] + more) == more;
  }

  lemma RereadVec(u: Script, v: VecField, more: seq<Token>)
    requires GoodClause(u, VecClause(v)) && MoreClauses(more)
    ensures ParseVec(ClauseTokens(u, VecClause(v)) + more) == Done(v, more)
  {
    hide GoodKey, IsWordText;
    var ts := ClauseTokens(u, VecClause(v)) + more;
    assert ts[0] == v.key;
    assert Drop(ts) == [Token(Colon, ":"), Token(Dollar, "$"), v.param] + more;
    assert Drop(Drop(ts)) == [Token(Dollar, "$"), v.param] + more;
    assert Drop(Drop([Token(Dollar, "$"), v.param] + more)) == more;
  }

  lemma ClauseKind(u: Script, c: Clause)
    requires GoodClause(u, c)
    ensures c.Key().kind == match c
            case AnchorClause(a) => (if a.key.kind == Entity then Entity else Topic)
            case IntClause(i) => (if i.key.kind == Top then Top else Depth)
            case TimeClause(t) => (if t.key.kind == Since then Since else Until)
            case VecClause(_) => Vec
  {
  }

  /** The clause loop on one printed clause. */
  lemma RereadClause(u: Script, c: Clause, more: seq<Token>, r: RecallNode)
    requires Lawful(u) && GoodClause(u, c) && MoreClauses(more)
    ensures RecallClause(u, ClauseTokens(u, c) + more, r) == if Fits(r, c) then Done(Add(u, r, c), more) else Rejected
  {
    hide Lawful, GoodClause, ParseAnchor, ParseInt, ParseTime, ParseVec, ValueTokens, MoreClauses;
    var ts := ClauseTokens(u, c) + more;
    assert ts[0] == c.Key() && ts[1] == Token(Colon, ":");
    assert !IsDangling(ts);
    ClauseKind(u, c);
    match c
    case AnchorClause(a) => RereadAnchor(u, a, more);
    case IntClause(i) => RereadInt(u, i, more);
    case TimeClause(t) => RereadTime(u, t, more);
    case VecClause(v) => RereadVec(u, v, more);
  }

  lemma SkipSpace(u: Script, ts: seq<Token>, r: RecallNode)
    requires ts != [] && ts[0] == SPACE
    ensures RecallClauses(u, ts, r) == RecallClauses(u, ts[1..], r)
  {
  }

  lemma {:induction false} RereadClauses(u: Script, cs: seq<Clause>, r: RecallNode)
    requires Lawful(u) && forall c :: c in cs ==> GoodClause(u, c)
    ensures RecallClauses(u, Drop(ClausesTokens(u, cs)), r) ==
            match Reread(u, r, cs) case None => Rejected case Some(q) => Done(q, [])
    decreases |cs|
  {
    hide Lawful, GoodClause, RecallClause, Fits, Add;
    if cs != [] {
      var more := ClausesTokens(u, cs[1..]);
      var ts := ClauseTokens(u, cs[0]) + more;
      assert Drop(ClausesTokens(u, cs)) == ts;
      RereadClause(u, cs[0], more, r);
      ClauseKind(u, cs[0]);
      assert !IsAtEnd(ts);
      if Fits(r, cs[0]) {
        RereadClauses(u, cs[1..], Add(u, r, cs[0]));
        if more != [] {
          SkipSpace(u, more, Add(u, r, cs[0]));
        }
      }
    }
  }

  lemma ClausesHead(u: Script, cs: seq<Clause>)
    requires cs != [] && GoodClause(u, cs[0])
    ensures var ts := ClausesTokens(u, cs);
            |ts| > 2 && ts[0] == SPACE && IsKeyword(ts[1].kind) && ts[2] == Token(Colon, ":")
  {
    ClauseKind(u, cs[0]);
    hide GoodClause;
    assert ClausesTokens(u, cs)[1] == cs[0].Key();
  }

  /** The terms end where the first clause starts. */
  lemma TermsEnd(u: Script, cs: seq<Clause>, acc: seq<Term>)
    requires forall c :: c in cs ==> GoodClause(u, c)
    ensures ParseTerms(u, ClausesTokens(u, cs), acc) == Done(acc, Drop(ClausesTokens(u, cs)))
  {
    if cs != [] {
      ClausesHead(u, cs);
      TermsStop(u, ClausesTokens(u, cs), acc);
    }
  }

  lemma TermsStop(u: Script, ts: seq<Token>, acc: seq<Term>)
    requires |ts| > 2 && ts[0] == SPACE && IsKeyword(ts[1].kind) && ts[2] == Token(Colon, ":")
    ensures ParseTerms(u, ts, acc) == Done(acc, Drop(ts))
  {
    hide Fold, Keyword;
    var r := ts[1..];
    assert r[0] == ts[1] && r[1] == ts[2];
  }

  lemma RereadSelector(s: Option<nat>, more: seq<Token>)
    requires s.Some? ==> s.value <= 255
    requires more == [] || (more[0] == SPACE && |more| > 1 && more[1].kind != At)
    ensures ParseSelector(SelectorTokens(s) + more) == if more == [] then Rejected else Done(s, more[1..])
  {
    if s.Some? {
      hide Atoi, Digits;
      AtoiItoa(s.value);
      assert Drop(Drop(SelectorTokens(s) + more)) == more;
    } else {
      assert SelectorTokens(s) + more == more;
    }
  }
}
