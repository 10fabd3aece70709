/** The parser: a two-token window over a lexer. Every production is proved to return
    what the grammar's function says and to leave the window on the tokens it leaves. */
module FqlParser {
  import opened Wrappers
  import opened Fql
  import opened FqlGrammar
  import opened FqlLexer

  lemma ScanNotEol(u: Script, s: string)
    requires s != ""
    ensures Scan(u, s).0.kind != Eol
  {
  }

  /** One scan takes one token off the text, and never reads end of input from it. */
  lemma TokensStep(u: Script, s: string)
    ensures s == "" ==> Tokens(u, s) == []
    ensures s != "" ==> Tokens(u, s) == [Scan(u, s).0] + Tokens(u, Scan(u, s).1) && Scan(u, s).0.kind != Eol
  {
    hide Scan;
    if s != "" {
      ScanNotEol(u, s);
    }
  }

  class Parser {
    const script: Script
    const l: Lexer
    var cur: Token
    var peek: Token

    ghost predicate Valid()
      reads this, l
    {
      && l.Valid() && l.script == script
      && (cur.kind == Eol ==> cur.lit == "" && peek.kind == Eol)
      && (peek.kind == Eol ==> peek.lit == "" && l.Rest() == [])
    }

    /** The tokens from the current one on. */
    ghost function Left(): seq<Token>
      reads this, l
    {
      (if cur.kind == Eol then [] else [cur]) + (if peek.kind == Eol then [] else [peek]) + Tokens(script, l.Rest())
    }

    lemma Window()
      requires Valid()
      ensures FqlGrammar.Peek(Left(), 0) == cur && FqlGrammar.Peek(Left(), 1) == peek
    {
    }

    constructor (u: Script, q: string)
      requires Lawful(u)
      ensures l.Valid() && l.script == script == u && l.Rest() == q && fresh(l)
      ensures cur == peek == Token(Illegal, "")
    {
      script := u;
      l := new Lexer(u, q);
      cur := Token(Illegal, "");
      peek := Token(Illegal, "");
    }

    method Next()
      requires l.Valid() && l.script == script && (peek.kind == Eol ==> peek.lit == "" && l.Rest() == [])
      modifies this, l
      ensures Valid()
      ensures Left() == (if old(peek).kind == Eol then [] else [old(peek)]) + Tokens(script, old(l.Rest()))
      ensures old(Valid()) ==> Left() == Drop(old(Left()))
    {
      hide Lawful, Tokens, Scan;
      TokensStep(script, l.Rest());
      ghost var a := if cur.kind == Eol then [] else [cur];
      ghost var b := (if peek.kind == Eol then [] else [peek]) + Tokens(script, l.Rest());
      assert Left() == a + b by {
        assert Left() == a + (if peek.kind == Eol then [] else [peek]) + Tokens(script, l.Rest());
      }
      assert a != [] ==> (a + b)[1..] == b;
      cur := peek;
      var tok, _ := l.Next();
      peek := tok;
      assert Left() == b;
    }

    /** Consumes the blank lines behind a command. */
    method SkipBlankLines()
      requires Valid()
      modifies this, l
      ensures Valid() && (cur.kind == Eol <==> SkipLines(old(Left())) == [])
    {
      hide Tokens;
      Window();
      while cur.kind == Newline || cur.kind == Whitespace
        invariant Valid() && SkipLines(old(Left())) == SkipLines(Left()) && FqlGrammar.Peek(Left(), 0) == cur
        decreases |Left()|
      {
        Next();
        Window();
      }
      AtInputEnd();
    }

    /** Consumes the current token, whatever it is. */
    method Take() returns (tok: Token)
      requires Valid()
      modifies this, l
      ensures Valid() && tok == FqlGrammar.Peek(old(Left()), 0) && Left() == Drop(old(Left()))
    {
      Window();
      tok := cur;
      Next();
    }

    /** Consumes the current token if it has the kind asked for. */
    method Expect(k: Kind) returns (tok: Option<Token>)
      requires Valid()
      modifies this, l
      ensures Valid()
      ensures var t := FqlGrammar.Peek(old(Left()), 0);
              if t.kind == k then tok == Some(t) && Left() == Drop(old(Left()))
                  else tok == None && Left() == old(Left())
    {
      Window();
      if cur.kind != k {
        return None;
      }
      tok := Some(cur);
      Next();
    }

    predicate AtEnd()
      reads this
    {
      cur.kind == Eol || cur.kind == Newline
    }

    predicate AtValue()
      reads this
    {
      cur.kind == Literal || cur.kind == Phrase || (IsKeyword(cur.kind) && peek.kind != Colon)
    }

    predicate AtDanglingKeyword()
      reads this
    {
      IsKeyword(cur.kind) && (peek.kind == Eol || peek.kind == Newline)
    }

    lemma Looks()
      requires Valid()
      ensures AtEnd() == IsAtEnd(Left()) && AtValue() == IsValue(Left()) && AtDanglingKeyword() == IsDangling(Left())
      ensures !AtEnd() ==> Left() != [] && Left()[0] == cur
    {
      Window();
    }

    lemma AtInputEnd()
      requires Valid()
      ensures cur.kind == Eol <==> Left() == []
    {
    }

    /** Whether a production returned what the grammar says, and moved the window there. */
    ghost predicate Follows<T>(r: Option<T>, p: Parsed<T>)
      reads this, l
    {
      match p
      case Rejected => r == None
      case Done(v, rest) => r == Some(v) && Left() == rest
    }

    // -------------------------------------------------------------- clauses

    method ParseSeparator() returns (r: Option<()>)
      requires Valid()
      modifies this, l
      ensures Valid() && Follows(r, Separator(old(Left())))
    {
      Window();
      if cur.kind == Whitespace {
        return None;
      }
      var colon := Expect(Colon);
      if colon.None? {
        return None;
      }
      Window();
      if cur.kind == Whitespace {
        return None;
      }
      return Some(());
    }

    method ParseIntField() returns (r: Option<IntField>)
      requires Valid()
      modifies this, l
      ensures Valid() && Follows(r, ParseInt(old(Left())))
    {
      Window();
      var key := cur;
      Next();
      var sep := ParseSeparator();
      if sep.None? {
        return None;
      }
      var tok := Take();
      if tok.kind == Illegal {
        return None;
      }
      var i := Atoi(tok.lit);
      if i.None? {
        return None;
      }
      return Some(IntField(key, i.value));
    }

    method ParseTimeField() returns (r: Option<TimeField>)
      requires Valid()
      modifies this, l
      ensures Valid() && Follows(r, ParseTime(script, old(Left())))
    {
      Window();
      var key := cur;
      Next();
      var sep := ParseSeparator();
      if sep.None? {
        return None;
      }
      r := ParseBound(key);
    }

    method ParseBound(key: Token) returns (r: Option<TimeField>)
      requires Valid()
      modifies this, l
      ensures Valid() && Follows(r, BoundAt(script, key, old(Left())))
    {
      var tok := Take();
      if tok.kind == Illegal {
        return None;
      }
      var t := script.time(tok.lit);
      if t.None? || (t.value.Relative? && tok.kind == Phrase) {
        return None;
      }
      return Some(TimeField(key, tok, t.value));
    }

    method ParseValue() returns (r: Option<Token>)
      requires Valid()
      modifies this, l
      ensures Valid()
      ensures Follows(r, if IsValue(old(Left())) then Done(FqlGrammar.Peek(old(Left()), 0), Drop(old(Left())))
              else Rejected)
    {
      Looks();
      if AtValue() {
        var tok := Take();
        return Some(tok);
      }
      return None;
    }

    method ParseAnchorField() returns (r: Option<Anchor>)
      requires Valid()
      modifies this, l
      ensures Valid() && Follows(r, ParseAnchor(script, old(Left())))
    {
      Window();
      var key := cur;
      Next();
      var sep := ParseSeparator();
      if sep.None? {
        return None;
      }
      var tok := ParseValue();
      if tok.None? || IsEmpty(script, tok.value.lit) {
        return None;
      }
      return Some(Anchor(key, tok.value, Fold(script, tok.value.lit)));
    }

    method ParseVecField() returns (r: Option<VecField>)
      requires Valid()
      modifies this, l
      ensures Valid() && Follows(r, ParseVec(old(Left())))
    {
      var key := Take();
      var sep := ParseSeparator();
      if sep.None? {
        return None;
      }
      var dollar := Expect(Dollar);
      if dollar.None? {
        return None;
      }
      Window();
      if cur.kind == Whitespace {
        return None;
      }
      var tok := Expect(Literal);
      if tok.None? {
        return None;
      }
      return Some(VecField(key, tok.value));
    }

    // -------------------------------------------------------------- commands

    method ParseGraphSelector() returns (r: Option<nat>)
      requires Valid()
      modifies this, l
      ensures Valid()
      ensures match Atoi(FqlGrammar.Peek(old(Left()), 1).lit)
              case None => r == None
              case Some(v) => if 0 <= v <= 255 then r == Some(v) && Left() == Drop(Drop(old(Left()))) else r == None
    {
      Window();
      Next();
      Window();
      var tok := Take();
      var i := Atoi(tok.lit);
      if i.None? || i.value < 0 || i.value > 255 {
        return None;
      }
      return Some(i.value);
    }

    method ParseSelectorOf() returns (r: Option<Option<nat>>)
      requires Valid()
      modifies this, l
      ensures Valid() && Follows(r, ParseSelector(old(Left())))
    {
      hide Atoi, Lawful, Tokens;
      var selector: Option<nat> := None;
      Window();
      if cur.kind == At {
        var v := ParseGraphSelector();
        if v.None? {
          return None;
        }
        selector := v;
        Window();
        if cur.kind == At {
          return None;
        }
      }
      Window();
      var blank := Expect(Whitespace);
      if blank.None? {
        return None;
      }
      Window();
      if cur.kind == At {
        return None;
      }
      return Some(selector);
    }

    method ParseTermList() returns (r: Option<seq<Term>>)
      requires Valid()
      modifies this, l
      ensures Valid() && Follows(r, ParseTerms(script, old(Left()), []))
    {
      hide Lawful, Tokens, Keyword, Fold, IsEmpty;
      var terms := [];
      Looks();
      while !AtEnd()
        invariant Valid() && AtEnd() == IsAtEnd(Left())
                && ParseTerms(script, old(Left()), []) == ParseTerms(script, Left(), terms)
        decreases |Left()|
      {
        Looks();
        if cur.kind == Whitespace {
          Next();
        } else if IsMisCased(script, cur) {
          return None;
        } else if !AtValue() {
          return Some(terms);
        } else if IsKeyword(cur.kind) {
          return None;
        } else {
          var tok := Take();
          if IsEmpty(script, tok.lit) {
            return None;
          }
          terms := terms + [Term(tok, Fold(script, tok.lit))];
        }
        Looks();
      }
      return Some(terms);
    }

    method ParseFact() returns (r: Option<string>)
      requires Valid()
      modifies this, l
      ensures Valid() && Follows(r, ParsePhrase(script, old(Left())))
    {
      Window();
      if cur.kind == Illegal || cur.kind == Nul {
        return None;
      }
      var tok := Expect(Phrase);
      if tok.None? || IsEmpty(script, tok.value.lit) {
        return None;
      }
      Window();
      if cur.kind != Whitespace && cur.kind != Nul && cur.kind != Eol && cur.kind != Newline {
        return None;
      }
      return Some(tok.value.lit);
    }

    /** One turn of a recall's clause loop. */
    method ParseRecallClause(r: RecallNode) returns (q: Option<RecallNode>)
      requires Valid() && !IsAtEnd(Left())
      modifies this, l
      ensures Valid() && Follows(q, RecallClause(script, old(Left()), r))
    {
      hide Lawful, Tokens, ParseAnchor, ParseTime, ParseInt, ParseVec;
      Looks();
      if AtDanglingKeyword() {
        return None;
      }
      match cur.kind
      case Entity =>
        var a := ParseAnchorField();
        return if a.None? then None else Some(r.(entities := r.entities + [a.value]));
      case Topic =>
        var a := ParseAnchorField();
        return if a.None? then None else Some(r.(topics := r.topics + [a.value]));
      case Until =>
        if r.until.Some? { return None; }
        var t := ParseTimeField();
        return if t.None? then None else Some(r.(until := t));
      case Since =>
        if r.since.Some? { return None; }
        var t := ParseTimeField();
        return if t.None? then None else Some(r.(since := t));
      case Depth =>
        if r.depth.Some? { return None; }
        var i := ParseIntField();
        return if i.None? then None else Some(r.(depth := i));
      case Top =>
        if r.top.Some? { return None; }
        var i := ParseIntField();
        return if i.None? then None else Some(r.(top := i));
      case Vec =>
        if r.vec.Some? { return None; }
        var v := ParseVecField();
        return if v.None? then None else Some(r.(vec := v));
      case Whitespace =>
        Next();
        return Some(r);
      case _ =>
        return None;
    }

    /** A recall left with only stop words to search is rejected. */
    method HasSeed(r: RecallNode) returns (ok: bool)
      ensures ok == IsSeeded(script, r)
    {
      if r.terms == [] && r.topics == [] && r.entities == [] && r.vec.None? {
        return false;
      }
      var seeded := r.vec.Some?;
      for i := 0 to |r.terms|
        invariant seeded <==> r.vec.Some? || exists j :: 0 <= j < i && CanMatch(script, r.terms[j])
      {
        if CanMatch(script, r.terms[i]) {
          seeded := true;
        }
      }
      return seeded || r.terms == [];
    }

    /** A recall's clause loop. */
    method ParseRecallClauses(start: RecallNode) returns (q: Option<RecallNode>)
      requires Valid()
      modifies this, l
      ensures Valid() && Follows(q, RecallClauses(script, old(Left()), start))
    {
      hide Lawful, Tokens, RecallClause;
      var r := start;
      Looks();
      while !AtEnd()
        invariant Valid() && AtEnd() == IsAtEnd(Left())
                && RecallClauses(script, old(Left()), start) == RecallClauses(script, Left(), r)
        decreases |Left()|
      {
        var clause := ParseRecallClause(r);
        if clause.None? {
          return None;
        }
        r := clause.value;
        Looks();
      }
      return Some(r);
    }

    method ParseRecallCommand() returns (c: Option<Command>)
      requires Valid()
      modifies this, l
      ensures Valid() && Follows(c, ParseRecall(script, old(Left())))
    {
      hide Lawful, Tokens, RecallClauses, ParseSelector, ParseTerms, IsSeeded;
      Next();
      var selector := ParseSelectorOf();
      if selector.None? {
        return None;
      }
      var terms := ParseTermList();
      if terms.None? {
        return None;
      }
      var r := ParseRecallClauses(RecallNode(selector.value, terms.value, [], [], None, None, None, None, None));
      if r.None? {
        return None;
      }
      var seeded := HasSeed(r.value);
      return if seeded then Some(RecallCommand(r.value)) else None;
    }

    method ParseRememberClause(m: RememberNode) returns (n: Option<RememberNode>)
      requires Valid() && !IsAtEnd(Left())
      modifies this, l
      ensures Valid() && Follows(n, RememberClause(script, old(Left()), m))
    {
      hide Lawful, Tokens, ParseAnchor, ParseVec;
      Looks();
      if AtDanglingKeyword() {
        return None;
      }
      match cur.kind
      case Entity =>
        var a := ParseAnchorField();
        return if a.None? then None else Some(m.(anchors := m.anchors + [a.value]));
      case Topic =>
        var a := ParseAnchorField();
        return if a.None? then None else Some(m.(anchors := m.anchors + [a.value]));
      case Vec =>
        if m.vec.Some? { return None; }
        var v := ParseVecField();
        return if v.None? then None else Some(m.(vec := v));
      case Whitespace =>
        Next();
        return Some(m);
      case _ =>
        return None;
    }

    method ParseRememberCommand() returns (c: Option<Command>)
      requires Valid()
      modifies this, l
      ensures Valid() && Follows(c, ParseRemember(script, old(Left())))
    {
      hide Lawful, Tokens, RememberClause, ParseSelector, ParsePhrase;
      Next();
      var selector := ParseSelectorOf();
      if selector.None? {
        return None;
      }
      var fact := ParseFact();
      if fact.None? {
        return None;
      }
      var m := RememberNode(selector.value, fact.value, [], None);
      ghost var start := RememberClauses(script, Left(), m);
      Looks();
      while !AtEnd()
        invariant Valid() && AtEnd() == IsAtEnd(Left()) && start == RememberClauses(script, Left(), m)
        decreases |Left()|
      {
        var n := ParseRememberClause(m);
        if n.None? {
          return None;
        }
        m := n.value;
        Looks();
      }
      return Some(RememberCommand(m));
    }
  }

  /** Parses one query: its command, and nothing behind it but blank lines. */
  method ParseQuery(u: Script, q: string) returns (c: Option<Command>)
    requires Lawful(u)
    ensures c == FqlGrammar.Parse(u, q)
  {
    hide Lawful, Tokens, ParseRecall, ParseRemember, SkipLines, Parser.Left;
    for i := 0 to |q|
      invariant RUNE_ERROR !in q[..i]
    {
      if q[i] == RUNE_ERROR {
        return None;
      }
    }
    assert q[..|q|] == q;
    var p := new Parser(u, q);
    p.Next();
    p.Next();
    assert p.Left() == Tokens(u, q);
    p.Window();
    var command: Option<Command>;
    if p.cur.kind == Remember {
      command := p.ParseRememberCommand();
    } else if p.cur.kind == Recall {
      command := p.ParseRecallCommand();
    } else {
      return None;
    }
    if command.None? {
      return None;
    }
    p.SkipBlankLines();
    return if p.cur.kind == Eol then command else None;
  }
}
