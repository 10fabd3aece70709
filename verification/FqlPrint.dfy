/** How commands print, and that the lexer reads what they print. */
module FqlPrint {
  import opened Wrappers
  import opened Fql
  import opened FqlGrammar

  // ---------------------------------------------------------------- printing

  function Digits(n: nat): string {
    if n < 10 then [('0' as int + n) as char] else Digits(n / 10) + [('0' as int + n % 10) as char]
  }

  function Itoa(i: int): string { if i < 0 then "-" + Digits(-i) else Digits(i) }

  /** A value as it was written: bare, or quoted again. */
  function Spell(tok: Token, text: string): string { if tok.kind == Phrase then Quote(text) else text }

  function PrintTerm(t: Term): string { Spell(t.tok, t.value) }

  datatype Clause = AnchorClause(anchor: Anchor) | IntClause(count: IntField) | TimeClause(bound: TimeField)
      | VecClause(vec: VecField)
  {
    function Key(): Token {
      match this
      case AnchorClause(a) => a.key
      case IntClause(i) => i.key
      case TimeClause(t) => t.key
      case VecClause(v) => v.key
    }

    function ValueText(): string {
      match this
      case AnchorClause(a) => Spell(a.tok, a.value)
      case IntClause(i) => Itoa(i.value)
      case TimeClause(t) => Spell(t.tok, t.tok.lit)
      case VecClause(v) => "$" + v.param.lit
    }

    function Text(): string { Key().lit + ":" + ValueText() }
  }

  function Option2Seq<A, B>(o: Option<A>, f: A -> B): seq<B> { if o.Some? then [f(o.value)] else [] }

  function Map<A, B>(f: A -> B, s: seq<A>): (r: seq<B>) { seq(|s|, i requires 0 <= i < |s| => f(s[i])) }

  /** A recall's clauses in the order they print. */
  function RecallClausesOf(r: RecallNode): seq<Clause> {
    Map(a => AnchorClause(a), r.entities) + Map(a => AnchorClause(a), r.topics)
    + Option2Seq(r.top, i => IntClause(i)) + Option2Seq(r.depth, i => IntClause(i))
    + Option2Seq(r.since, t => TimeClause(t)) + Option2Seq(r.until, t => TimeClause(t))
    + Option2Seq(r.vec, v => VecClause(v))
  }

  function RememberClausesOf(m: RememberNode): seq<Clause> {
    Map(a => AnchorClause(a), m.anchors) + Option2Seq(m.vec, v => VecClause(v))
  }

  function PrintSelector(s: Option<nat>): string { if s.Some? then "@" + Itoa(s.value) else "" }

  /** strings.Join with a space. */
  function Join(parts: seq<string>): string {
    if parts == [] then "" else if |parts| == 1 then parts[0] else parts[0] + " " + Join(parts[1..])
  }

  function Print(c: Command): string {
    match c
    case RecallCommand(r) =>
      Join(["recall" + PrintSelector(r.selector)] + Map(t => PrintTerm(t), r.terms)
          + Map((k: Clause) => k.Text(), RecallClausesOf(r)))
    case RememberCommand(m) =>
      Join(["remember" + PrintSelector(m.selector), Quote(m.fact)] + Map((k: Clause) => k.Text(), RememberClausesOf(m)))
  }

  // ---------------------------------------------------------------- tokens of printed text

  /** The token a printed value is read back as. */
  function Respell(u: Script, tok: Token, text: string): Token {
    if tok.kind == Phrase || text == [] then Token(Phrase, text) else Token(BareKind(u, text), text)
  }

  function ValueTokens(u: Script, c: Clause): seq<Token> {
    match c
    case AnchorClause(a) => [Respell(u, a.tok, a.value)]
    case IntClause(i) =>
      if i.value < 0 then [Token(Minus, "-"), Token(Literal, Digits(-i.value))] else [Token(Literal, Digits(i.value))]
    case TimeClause(t) => [Respell(u, t.tok, t.tok.lit)]
    case VecClause(v) => [Token(Dollar, "$"), v.param]
  }

  function ClauseTokens(u: Script, c: Clause): seq<Token> { [c.Key(), Token(Colon, ":")] + ValueTokens(u, c) }

  /** A key that a colon makes a keyword again. */
  predicate GoodKey(u: Script, key: Token) {
    IsWordText(u, key.lit) && KindOf(u, key.lit, true) == key.kind && RUNE_ERROR !in key.lit
  }

  /** A value that is a phrase or can be spelled bare. */
  predicate GoodValue(u: Script, tok: Token, text: string) {
    (tok.kind == Phrase || IsBare(u, text)) && RUNE_ERROR !in text
  }

  predicate GoodClause(u: Script, c: Clause) {
    && GoodKey(u, c.Key())
    && match c
       case AnchorClause(a) =>
         && (a.key.kind == Entity || a.key.kind == Topic)
         && GoodValue(u, a.tok, a.value) && (a.tok.kind != Phrase ==> u.isWord(a.value[0]))
         && !IsEmpty(u, a.value) && Fold(u, a.value) == a.value
       case IntClause(i) => (i.key.kind == Top || i.key.kind == Depth) && -MAX_INT - 1 <= i.value <= MAX_INT
       case TimeClause(t) =>
         && (t.key.kind == Since || t.key.kind == Until)
         && GoodValue(u, t.tok, t.tok.lit)
         && u.time(t.tok.lit) == Some(t.value) && !(t.value.Relative? && t.tok.kind == Phrase)
       case VecClause(v) =>
         && v.key.kind == Vec && IsWordText(u, v.param.lit) && v.param.kind == Literal
         && Keyword(v.param.lit) == Literal && RUNE_ERROR !in v.param.lit
  }

  lemma {:induction false} DigitsAreDigits(n: nat)
    ensures IsDigits(Digits(n)) && Value(Digits(n)) == n
  {
    if n >= 10 {
      DigitsAreDigits(n / 10);
      assert Digits(n)[..|Digits(n)| - 1] == Digits(n / 10);
    }
  }

  /** A non-negative int is read back as itself, and a lone minus as no number. */
  lemma AtoiItoa(i: int)
    requires 0 <= i <= MAX_INT
    ensures Atoi(Itoa(i)) == Some(i)
    ensures Atoi("-") == None
  {
    DigitsAreDigits(i);
  }

  lemma NumberIsWord(u: Script, n: nat)
    requires Lawful(u)
    ensures IsWordText(u, Digits(n)) && KindOf(u, Digits(n), false) == Literal
  {
    hide Digits;
    DigitsAreDigits(n);
    var d := Digits(n);
    forall i | 0 <= i < |d| ensures u.isWord(d[i]) {
      assert '0' <= d[i] <= '9';
    }
    assert '0' <= d[0] <= '9';
  }

  lemma NotWord(u: Script, c: char)
    requires Lawful(u) && IsSyntax(c)
    ensures !u.isWord(c)
  {
  }

  lemma ScanSpelled(u: Script, tok: Token, text: string, rest: string)
    requires Lawful(u) && GoodValue(u, tok, text) && Ends(rest)
    ensures Tokens(u, Spell(tok, text) + rest) == [Respell(u, tok, text)] + Tokens(u, rest)
  {
    if tok.kind == Phrase {
      ScanQuoted(u, text, rest);
    } else {
      ScanBare(u, text, rest);
    }
  }

  lemma ScanDigits(u: Script, n: nat, rest: string)
    requires Lawful(u) && Ends(rest)
    ensures Tokens(u, Digits(n) + rest) == [Token(Literal, Digits(n))] + Tokens(u, rest)
  {
    hide Digits, Tokens, Lawful, IsWordText, KindOf;
    NotWord(u, ' ');
    NumberIsWord(u, n);
    ScanWord(u, Digits(n), rest);
  }

  lemma ScanNumber(u: Script, i: int, rest: string)
    requires Lawful(u) && Ends(rest)
    ensures Tokens(u, Itoa(i) + rest) ==
            (if i < 0 then [Token(Minus, "-"), Token(Literal, Digits(-i))] else [Token(Literal, Digits(i))])
                + Tokens(u, rest)
  {
    hide Digits, Tokens, Lawful;
    ScanDigits(u, if i < 0 then -i else i, rest);
    if i < 0 {
      NotWord(u, '-');
      ScanSymbol(u, '-', Digits(-i) + rest);
      assert Itoa(i) + rest == ['-'] + (Digits(-i) + rest);
    }
  }

  lemma ScanParam(u: Script, name: string, rest: string)
    requires Lawful(u) && Ends(rest) && IsWordText(u, name) && Keyword(name) == Literal
    ensures Tokens(u, "$" + name + rest) == [Token(Dollar, "$"), Token(Literal, name)] + Tokens(u, rest)
  {
    hide Tokens, Lawful, IsWordText, Keyword;
    NotWord(u, '$');
    NotWord(u, ' ');
    ScanWord(u, name, rest);
    ScanSymbol(u, '$', name + rest);
    assert "$" + name + rest == ['$'] + (name + rest);
  }

  lemma ScanValue(u: Script, c: Clause, rest: string)
    requires Lawful(u) && GoodClause(u, c) && Ends(rest)
    ensures Tokens(u, c.ValueText() + rest) == ValueTokens(u, c) + Tokens(u, rest)
  {
    hide Digits, Tokens, Lawful, Spell, Respell, Itoa, IsWordText, Keyword, KindOf, IsEmpty, Fold;
    match c
    case AnchorClause(a) => ScanSpelled(u, a.tok, a.value, rest);
    case IntClause(i) => ScanNumber(u, i.value, rest);
    case TimeClause(t) => ScanSpelled(u, t.tok, t.tok.lit, rest);
    case VecClause(v) => ScanParam(u, v.param.lit, rest);
  }

  /** A printed clause is read as its key, a colon and its value. */
  lemma ScanClause(u: Script, c: Clause, rest: string)
    requires Lawful(u) && GoodClause(u, c) && Ends(rest)
    ensures Tokens(u, c.Text() + rest) == ClauseTokens(u, c) + Tokens(u, rest)
  {
    hide Tokens, Lawful, ValueTokens, Clause.ValueText, KindOf, IsWordText, Keyword;
    ScanValue(u, c, rest);
    ScanKey(u, c.Key(), c.ValueText() + rest);
    assert c.Text() + rest == c.Key().lit + ":" + (c.ValueText() + rest);
  }

  lemma ScanKey(u: Script, key: Token, rest: string)
    requires Lawful(u) && GoodKey(u, key)
    ensures Tokens(u, key.lit + ":" + rest) == [key, Token(Colon, ":")] + Tokens(u, rest)
  {
    hide Tokens, Lawful, KindOf, IsWordText;
    NotWord(u, ':');
    ScanSymbol(u, ':', rest);
    ScanWord(u, key.lit, [':'] + rest);
    assert StartsWith([':'] + rest, ':');
    assert key.lit + ":" + rest == key.lit + ([':'] + rest);
  }
}
