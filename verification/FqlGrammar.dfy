/** The commands FQL parses to and the grammar, as functions over the remaining
    tokens. Past the last token there is only end of input. */
module FqlGrammar {
  import opened Wrappers
  import opened Fql

  // ---------------------------------------------------------------- commands

  /** A search term: the token as written and the folded value. */
  datatype Term = Term(tok: Token, value: string)

  /** A topic: or entity: clause; its key says which. */
  datatype Anchor = Anchor(key: Token, tok: Token, value: string)

  datatype IntField = IntField(key: Token, value: int)

  datatype TimeField = TimeField(key: Token, tok: Token, value: Time)

  /** vec:$name; the vector is what the parameters hold under the name. */
  datatype VecField = VecField(key: Token, param: Token)

  datatype RecallNode = RecallNode(
    selector: Option<nat>,
    terms: seq<Term>,
    entities: seq<Anchor>,
    topics: seq<Anchor>,
    top: Option<IntField>,
    depth: Option<IntField>,
    since: Option<TimeField>,
    until: Option<TimeField>,
    vec: Option<VecField>)

  datatype RememberNode = RememberNode(selector: Option<nat>, fact: string, anchors: seq<Anchor>, vec: Option<VecField>)

  datatype Command = RecallCommand(recall: RecallNode) | RememberCommand(remember: RememberNode)

  // ---------------------------------------------------------------- numbers

  predicate IsDigits(s: string) { s != [] && forall i :: 0 <= i < |s| ==> '0' <= s[i] <= '9' }

  function Value(s: string): int {
    if s == [] then 0 else 10 * Value(s[..|s| - 1]) + (s[|s| - 1] as int - '0' as int)
  }

  const MAX_INT := 0x7FFF_FFFF_FFFF_FFFF

  /** strconv.Atoi on a 64-bit int: an optional sign, then decimal digits in range. */
  function Atoi(s: string): Option<int> {
    var digits := if s != [] && (s[0] == '+' || s[0] == '-') then s[1..] else s;
    if !IsDigits(digits) then None else
      var v := if s[0] == '-' then -Value(digits) else Value(digits);
      if -MAX_INT - 1 <= v <= MAX_INT then Some(v) else None
  }

  // ---------------------------------------------------------------- the window

  /** The token n places ahead. */
  function Peek(ts: seq<Token>, n: nat): Token { if n < |ts| then ts[n] else Token(Eol, "") }

  function Drop(ts: seq<Token>): seq<Token> { if ts == [] then [] else ts[1..] }

  datatype Parsed<T> = Done(value: T, rest: seq<Token>) | Rejected

  predicate IsAtEnd(ts: seq<Token>) { ts == [] || ts[0].kind == Eol || ts[0].kind == Newline }

  /** A word or phrase, or a reserved word that no colon makes a clause. */
  predicate IsValue(ts: seq<Token>) {
    var k := Peek(ts, 0).kind;
    k == Literal || k == Phrase || (IsKeyword(k) && Peek(ts, 1).kind != Colon)
  }

  predicate IsDangling(ts: seq<Token>) {
    IsKeyword(Peek(ts, 0).kind) && (Peek(ts, 1).kind == Eol || Peek(ts, 1).kind == Newline)
  }

  /** Nothing but white space, as only quoting can write. */
  predicate IsEmpty(u: Script, s: string) { forall i :: 0 <= i < |s| ==> u.isSpace(s[i]) }

  // ---------------------------------------------------------------- clauses

  /** The colon that joins a key to its value, with no blank on either side. */
  function Separator(ts: seq<Token>): Parsed<()> {
    if Peek(ts, 0).kind != Colon || Peek(ts, 1).kind == Whitespace then Rejected else Done((), Drop(ts))
  }

  function ParseInt(ts: seq<Token>): Parsed<IntField> {
    match Separator(Drop(ts))
    case Rejected => Rejected
    case Done(_, r) =>
      if Peek(r, 0).kind == Illegal then Rejected else
        match Atoi(Peek(r, 0).lit)
        case None => Rejected
        case Some(v) => Done(IntField(Peek(ts, 0), v), Drop(r))
  }

  /** A date is quoted because it carries dashes; a duration never is. */
  function ParseTime(u: Script, ts: seq<Token>): Parsed<TimeField> {
    match Separator(Drop(ts))
    case Rejected => Rejected
    case Done(_, r) => BoundAt(u, Peek(ts, 0), r)
  }

  /** The bound itself; a span may not be quoted. */
  function BoundAt(u: Script, key: Token, r: seq<Token>): Parsed<TimeField> {
    var tok := Peek(r, 0);
    if tok.kind == Illegal then Rejected else
      match u.time(tok.lit)
      case None => Rejected
      case Some(t) => if t.Relative? && tok.kind == Phrase
          then Rejected else Done(TimeField(key, tok, t), Drop(r))
  }

  function ParseAnchor(u: Script, ts: seq<Token>): Parsed<Anchor> {
    match Separator(Drop(ts))
    case Rejected => Rejected
    case Done(_, r) =>
      if !IsValue(r) || IsEmpty(u, Peek(r, 0).lit) then Rejected
      else Done(Anchor(Peek(ts, 0), Peek(r, 0), Fold(u, Peek(r, 0).lit)), Drop(r))
  }

  function ParseVec(ts: seq<Token>): Parsed<VecField> {
    match Separator(Drop(ts))
    case Rejected => Rejected
    case Done(_, r) =>
      if Peek(r, 0).kind != Dollar || Peek(r, 1).kind != Literal then Rejected
      else Done(VecField(Peek(ts, 0), Peek(r, 1)), Drop(Drop(r)))
  }

  // ---------------------------------------------------------------- commands

  /** The optional selector glued to the verb, then the space that ends the command. */
  function ParseSelector(ts: seq<Token>): Parsed<Option<nat>> {
    if Peek(ts, 0).kind == At then
      match Atoi(Peek(ts, 1).lit)
      case None => Rejected
      case Some(v) => if 0 <= v <= 255 then EndSelector(Drop(Drop(ts)), Some(v)) else Rejected
    else EndSelector(ts, None)
  }

  function EndSelector(ts: seq<Token>, v: Option<nat>): Parsed<Option<nat>> {
    if Peek(ts, 0).kind != Whitespace || Peek(ts, 1).kind == At then Rejected else Done(v, Drop(ts))
  }

  /** A recall's leading terms, up to its first clause. */
  function ParseTerms(u: Script, ts: seq<Token>, terms: seq<Term>): (r: Parsed<seq<Term>>)
    ensures r.Done? ==> |r.rest| <= |ts|
    decreases |ts|
  {
    if IsAtEnd(ts) then Done(terms, ts)
    else if ts[0].kind == Whitespace then ParseTerms(u, ts[1..], terms)
    else if IsMisCased(u, ts[0]) then Rejected
    else if !IsValue(ts) then Done(terms, ts)
    else if IsKeyword(ts[0].kind) || IsEmpty(u, ts[0].lit) then Rejected
    else ParseTerms(u, ts[1..], terms + [Term(ts[0], Fold(u, ts[0].lit))])
  }

  /** One step of a recall's clause loop. */
  function RecallClause(u: Script, ts: seq<Token>, r: RecallNode): (p: Parsed<RecallNode>)
    requires !IsAtEnd(ts)
    ensures p.Done? ==> |p.rest| < |ts|
  {
    if IsDangling(ts) then Rejected else
      match ts[0].kind
      case Entity =>
        (match ParseAnchor(u, ts)
         case Rejected => Rejected
         case Done(a, rest) => Done(r.(entities := r.entities + [a]), rest))
      case Topic =>
        (match ParseAnchor(u, ts)
         case Rejected => Rejected
         case Done(a, rest) => Done(r.(topics := r.topics + [a]), rest))
      case Until =>
        if r.until.Some? then Rejected else
          (match ParseTime(u, ts)
           case Rejected => Rejected
           case Done(t, rest) => Done(r.(until := Some(t)), rest))
      case Since =>
        if r.since.Some? then Rejected else
          (match ParseTime(u, ts)
           case Rejected => Rejected
           case Done(t, rest) => Done(r.(since := Some(t)), rest))
      case Depth =>
        if r.depth.Some? then Rejected else
          (match ParseInt(ts)
           case Rejected => Rejected
           case Done(i, rest) => Done(r.(depth := Some(i)), rest))
      case Top =>
        if r.top.Some? then Rejected else
          (match ParseInt(ts)
           case Rejected => Rejected
           case Done(i, rest) => Done(r.(top := Some(i)), rest))
      case Vec =>
        if r.vec.Some? then Rejected else
          (match ParseVec(ts)
           case Rejected => Rejected
           case Done(v, rest) => Done(r.(vec := Some(v)), rest))
      case Whitespace => Done(r, ts[1..])
      case _ => Rejected
  }

  function RecallClauses(u: Script, ts: seq<Token>, r: RecallNode): Parsed<RecallNode>
    decreases |ts|
  {
    if IsAtEnd(ts) then Done(r, ts) else
      match RecallClause(u, ts, r)
      case Rejected => Rejected
      case Done(q, rest) => RecallClauses(u, rest, q)
  }

  /** A term that can match: a phrase, or a word that is not a stop word. */
  predicate CanMatch(u: Script, t: Term) { t.tok.kind != Literal || !u.isStop(t.tok.lit) }

  /** The recall has a seed, and a term that can match unless it has a vector or no
      terms at all. */
  predicate IsSeeded(u: Script, r: RecallNode) {
    && (r.terms != [] || r.topics != [] || r.entities != [] || r.vec.Some?)
    && (r.terms == [] || r.vec.Some? || exists t :: t in r.terms && CanMatch(u, t))
  }

  function ParseRecall(u: Script, ts: seq<Token>): Parsed<Command> {
    match ParseSelector(Drop(ts))
    case Rejected => Rejected
    case Done(sel, afterSel) =>
      match ParseTerms(u, afterSel, [])
      case Rejected => Rejected
      case Done(terms, afterTerms) =>
        match RecallClauses(u, afterTerms, RecallNode(sel, terms, [], [], None, None, None, None, None))
        case Rejected => Rejected
        case Done(r, rest) => if IsSeeded(u, r) then Done(RecallCommand(r), rest) else Rejected
  }

  function FiledClause(u: Script, ts: seq<Token>, m: RememberNode): (p: Parsed<RememberNode>)
    requires !IsAtEnd(ts)
    ensures p.Done? ==> |p.rest| < |ts|
  {
    match ParseAnchor(u, ts)
    case Rejected => Rejected
    case Done(a, rest) => Done(m.(anchors := m.anchors + [a]), rest)
  }

  function VectorClause(ts: seq<Token>, m: RememberNode): (p: Parsed<RememberNode>)
    requires !IsAtEnd(ts)
    ensures p.Done? ==> |p.rest| < |ts|
  {
    if m.vec.Some? then Rejected else
      match ParseVec(ts)
      case Rejected => Rejected
      case Done(v, rest) => Done(m.(vec := Some(v)), rest)
  }

  /** One step of a remember's clause loop. */
  function RememberClause(u: Script, ts: seq<Token>, m: RememberNode): (p: Parsed<RememberNode>)
    requires !IsAtEnd(ts)
    ensures p.Done? ==> |p.rest| < |ts|
  {
    if IsDangling(ts) then Rejected
    else if ts[0].kind == Entity || ts[0].kind == Topic then FiledClause(u, ts, m)
    else if ts[0].kind == Vec then VectorClause(ts, m)
    else if ts[0].kind == Whitespace then Done(m, ts[1..])
    else Rejected
  }

  function RememberClauses(u: Script, ts: seq<Token>, m: RememberNode): Parsed<RememberNode>
    decreases |ts|
  {
    if IsAtEnd(ts) then Done(m, ts) else
      match RememberClause(u, ts, m)
      case Rejected => Rejected
      case Done(n, rest) => RememberClauses(u, rest, n)
  }

  /** The quoted fact, with a blank or the end behind it. */
  function ParsePhrase(u: Script, ts: seq<Token>): Parsed<string> {
    var k := Peek(ts, 1).kind;
    if Peek(ts, 0).kind != Phrase || IsEmpty(u, Peek(ts, 0).lit) then Rejected
    else if k != Whitespace && k != Nul && k != Eol && k != Newline then Rejected
    else Done(Peek(ts, 0).lit, Drop(ts))
  }

  function ParseRemember(u: Script, ts: seq<Token>): Parsed<Command> {
    match ParseSelector(Drop(ts))
    case Rejected => Rejected
    case Done(sel, afterSel) =>
      match ParsePhrase(u, afterSel)
      case Rejected => Rejected
      case Done(fact, afterFact) =>
        match RememberClauses(u, afterFact, RememberNode(sel, fact, [], None))
        case Rejected => Rejected
        case Done(m, rest) => Done(RememberCommand(m), rest)
  }

  /** What may follow the one command: blank lines. */
  function SkipLines(ts: seq<Token>): seq<Token> {
    if ts != [] && (ts[0].kind == Newline || ts[0].kind == Whitespace) then SkipLines(ts[1..]) else ts
  }

  function ParseTokens(u: Script, ts: seq<Token>): Option<Command> {
    var p := if Peek(ts, 0).kind == Remember then ParseRemember(u, ts)
             else if Peek(ts, 0).kind == Recall then ParseRecall(u, ts)
             else Rejected;
    if p.Done? && SkipLines(p.rest) == [] then Some(p.value) else None
  }

  function Parse(u: Script, q: string): Option<Command> {
    if RUNE_ERROR in q then None else ParseTokens(u, Tokens(u, q))
  }
}
