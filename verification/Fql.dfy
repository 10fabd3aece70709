/** FQL tokens, and what the lexer makes of a query: the function its methods are
    proved against, and how it reads text that was printed. */
module Fql {
  import opened Wrappers

  datatype Kind =
    | Illegal | Literal | Phrase
    | Describe | Explain
    | Recall | Remember | Forget | Update
    | Plus | Tilde | Minus
    | LParen | RParen
    | At | Colon | Dollar
    | Whitespace | Nul | Special
    | Eol | Newline
    | Topic | Entity | Since | Until | Top | Depth | Vec

  datatype Token = Token(kind: Kind, lit: string)

  /** A time bound: a duration back from now, or an instant. */
  datatype Time = Relative(seconds: int) | Absolute(instant: int)

  /** What the language takes from Unicode, the stop-word list and the date layouts. */
  datatype Script = Script(
    isWord: char -> bool,
    fold: char -> char,
    isSpace: char -> bool,
    isStop: string -> bool,
    time: string -> Option<Time>)

  /** The character Go puts in place of invalid UTF-8. */
  const RUNE_ERROR: char := '\U{FFFD}'

  predicate IsSyntax(c: char) {
    c in {':', '\'', '(', ')', '$', '+', '-', '~', '@', '\n', ' ', '\t', '\r', '\0'}
  }

  /** Lower-casing settles in one step and keeps words words and blanks blank; a letter or
      digit is no blank; the stop-word test ignores case; an empty string is no time. */
  ghost predicate Lawful(u: Script) {
    && (forall c :: u.fold(u.fold(c)) == u.fold(c))
    && (forall c :: u.isWord(u.fold(c)) == u.isWord(c))
    && (forall c :: u.isSpace(u.fold(c)) == u.isSpace(c))
    && (forall c :: u.fold(c) == RUNE_ERROR ==> c == RUNE_ERROR)
    && (forall c :: 'a' <= c <= 'z' || '0' <= c <= '9' ==> u.isWord(c))
    && (forall c :: IsSyntax(c) ==> !u.isWord(c))
    && (forall c :: u.isWord(c) ==> !u.isSpace(c))
    && (forall s :: u.isStop(Fold(u, s)) == u.isStop(s))
    && u.time("") == None
  }

  function Fold(u: Script, s: string): (r: string) {
    seq(|s|, i requires 0 <= i < |s| => u.fold(s[i]))
  }

  function Ascii(): Script {
    Script(
      c => 'a' <= c <= 'z' || 'A' <= c <= 'Z' || '0' <= c <= '9',
      c => if 'A' <= c <= 'Z' then (c as int + 32) as char else c,
      c => c == ' ' || '\t' <= c <= '\r',
      s => false,
      s => if s == "7d" then Some(Relative(604800)) else None)
  }

  /** The laws can be met: the ASCII letters and digits meet them. */
  lemma AsciiIsLawful()
    ensures Lawful(Ascii())
  {
  }

  // ---------------------------------------------------------------- scanning

  /** The reserved words; Literal for any other word. */
  function Keyword(s: string): Kind {
    if s == "recall" then Recall
    else if s == "remember" then Remember
    else if s == "forget" then Forget
    else if s == "update" then Update
    else if s == "explain" then Explain
    else if s == "describe" then Describe
    else if s == "topic" then Topic
    else if s == "entity" then Entity
    else if s == "since" then Since
    else if s == "until" then Until
    else if s == "top" then Top
    else if s == "depth" then Depth
    else if s == "vec" then Vec
    else Literal
  }

  predicate IsKeyword(k: Kind) {
    k in {Recall, Remember, Forget, Update, Topic, Entity, Since, Until, Top, Depth, Vec, Explain, Describe}
  }

  /** A bare word's kind. Casing is forgiven only just before a colon. */
  function KindOf(u: Script, word: string, colon: bool): Kind {
    if Keyword(word) != Literal then Keyword(word)
    else if colon then Keyword(Fold(u, word))
    else Literal
  }

  predicate IsMisCased(u: Script, t: Token) { t.kind == Literal && Keyword(Fold(u, t.lit)) != Literal }

  predicate IsBlank(c: char) { c == ' ' || c == '\t' || c == '\r' }

  /** How many characters from the front satisfy p. */
  function Run(p: char -> bool, s: string): (n: nat)
    ensures n <= |s|
    ensures forall i :: 0 <= i < n ==> p(s[i])
    ensures n < |s| ==> !p(s[n])
  {
    if s == [] || !p(s[0]) then 0 else 1 + Run(p, s[1..])
  }

  function Symbol(c: char): Kind {
    match c
    case ':' => Colon
    case '(' => LParen
    case ')' => RParen
    case '$' => Dollar
    case '+' => Plus
    case '-' => Minus
    case '~' => Tilde
    case '@' => At
    case '\n' => Newline
    case '\0' => Nul
    case _ => Special
  }

  /** The text of a phrase from behind its opening quote, and what follows its closing
      quote; None when it has none. A doubled quote stands for one. */
  function Unquote(s: string): (r: (string, Option<string>))
    ensures r.1.Some? ==> |r.1.value| < |s|
  {
    if s == [] then ("", None)
    else if s[0] != '\'' then
      var (text, rest) := Unquote(s[1..]);
      ([s[0]] + text, rest)
    else if |s| > 1 && s[1] == '\'' then
      var (text, rest) := Unquote(s[2..]);
      ("'" + text, rest)
    else ("", Some(s[1..]))
  }

  function StartsWith(s: string, c: char): bool { s != [] && s[0] == c }

  /** The first token of s, and the text behind it. */
  function Scan(u: Script, s: string): (r: (Token, string))
    requires s != []
    ensures |r.1| < |s|
  {
    if s[0] == '\'' then
      var (text, rest) := Unquote(s[1..]);
      if rest.Some? then (Token(Phrase, text), rest.value) else (Token(Illegal, text), "")
    else if IsBlank(s[0]) then
      var n := Run(IsBlank, s);
      (Token(Whitespace, s[..n]), s[n..])
    else if Symbol(s[0]) == Special && u.isWord(s[0]) then
      var n := Run(u.isWord, s);
      (Token(KindOf(u, s[..n], StartsWith(s[n..], ':')), s[..n]), s[n..])
    else (Token(Symbol(s[0]), [s[0]]), s[1..])
  }

  /** All the tokens of s, without the end of input. */
  function Tokens(u: Script, s: string): seq<Token>
    decreases |s|
  {
    if s == [] then [] else
      var (t, rest) := Scan(u, s);
      [t] + Tokens(u, rest)
  }

  // ---------------------------------------------------------------- printed text

  predicate IsWordText(u: Script, s: string) { s != [] && forall i :: 0 <= i < |s| ==> u.isWord(s[i]) }

  /** Text a non-phrase token can have: a word, or one character of syntax. */
  predicate IsBare(u: Script, s: string) {
    IsWordText(u, s) || (|s| == 1 && !u.isWord(s[0]) && !IsBlank(s[0]) && s[0] != '\'')
  }

  function BareKind(u: Script, s: string): Kind
    requires s != []
  {
    if u.isWord(s[0]) then KindOf(u, s, false) else Symbol(s[0])
  }

  /** What follows a printed part: nothing or a space. */
  predicate Ends(s: string) { s == [] || s[0] == ' ' }

  lemma {:induction false} RunIs(p: char -> bool, s: string, n: nat)
    requires n <= |s| && (forall i :: 0 <= i < n ==> p(s[i])) && (n < |s| ==> !p(s[n]))
    ensures Run(p, s) == n
  {
    if n > 0 {
      RunIs(p, s[1..], n - 1);
    }
  }

  lemma RunStops(p: char -> bool, s: string, rest: string)
    requires (forall i :: 0 <= i < |s| ==> p(s[i])) && (rest == [] || !p(rest[0]))
    ensures Run(p, s + rest) == |s|
  {
    RunIs(p, s + rest, |s|);
  }

  lemma ScanWord(u: Script, s: string, rest: string)
    requires Lawful(u) && IsWordText(u, s) && (rest == [] || !u.isWord(rest[0]))
    ensures Tokens(u, s + rest) == [Token(KindOf(u, s, StartsWith(rest, ':')), s)] + Tokens(u, rest)
  {
    RunStops(u.isWord, s, rest);
    assert u.isWord(s[0]) && (s + rest)[0] == s[0];
    assert !IsSyntax(s[0]);
    assert (s + rest)[..|s|] == s && (s + rest)[|s|..] == rest;
  }

  lemma ScanSymbol(u: Script, c: char, rest: string)
    requires !u.isWord(c) && !IsBlank(c) && c != '\''
    ensures Tokens(u, [c] + rest) == [Token(Symbol(c), [c])] + Tokens(u, rest)
  {
    assert ([c] + rest)[1..] == rest;
  }

  lemma ScanBare(u: Script, s: string, rest: string)
    requires Lawful(u) && IsBare(u, s) && Ends(rest)
    ensures Tokens(u, s + rest) == [Token(BareKind(u, s), s)] + Tokens(u, rest)
  {
    assert IsSyntax(' ');
    if IsWordText(u, s) {
      ScanWord(u, s, rest);
    } else {
      ScanSymbol(u, s[0], rest);
      assert s == [s[0]];
    }
  }

  lemma ScanSpace(u: Script, rest: string)
    requires rest != [] && !IsBlank(rest[0])
    ensures Tokens(u, " " + rest) == [Token(Whitespace, " ")] + Tokens(u, rest)
  {
    RunStops(IsBlank, " ", rest);
    assert (" " + rest)[..1] == " " && (" " + rest)[1..] == rest;
  }

  /** The phrase text with every quote doubled. */
  function Doubled(s: string): string {
    if s == [] then [] else (if s[0] == '\'' then "''" else [s[0]]) + Doubled(s[1..])
  }

  function Quote(s: string): string { "'" + Doubled(s) + "'" }

  lemma {:induction false} UnquoteDoubled(s: string, rest: string)
    requires rest == [] || rest[0] != '\''
    ensures Unquote(Doubled(s) + "'" + rest) == (s, Some(rest))
  {
    var d := Doubled(s) + "'" + rest;
    if s == [] {
      assert d == "'" + rest && d[1..] == rest;
    } else {
      UnquoteDoubled(s[1..], rest);
      var e := Doubled(s[1..]) + "'" + rest;
      if s[0] == '\'' {
        assert d == "''" + e && d[2..] == e;
      } else {
        assert d == [s[0]] + e && d[1..] == e;
      }
      assert [s[0]] + s[1..] == s;
    }
  }

  /** A printed phrase is read back as that phrase, whatever is in it. */
  lemma ScanQuoted(u: Script, s: string, rest: string)
    requires Ends(rest)
    ensures Tokens(u, Quote(s) + rest) == [Token(Phrase, s)] + Tokens(u, rest)
  {
    UnquoteDoubled(s, rest);
    assert (Quote(s) + rest)[1..] == Doubled(s) + "'" + rest;
  }
}
