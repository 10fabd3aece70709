/** The lexer: a cursor over the characters of one query, moved by scan loops. */
module FqlLexer {
  import opened Wrappers
  import opened Fql

  /** The phrase scan has read res and stands before rest. */
  ghost predicate Reading(s: string, res: string, rest: string) {
    Unquote(s).0 == res + Unquote(rest).0 && Unquote(s).1 == Unquote(rest).1
  }

  lemma StartReading(s: string)
    ensures Reading(s, [], s)
  {
    assert [] + Unquote(s).0 == Unquote(s).0;
  }

  lemma ReadOn(s: string, res: string, rest: string)
    requires Reading(s, res, rest)
    ensures rest == [] ==> Unquote(s) == (res, None)
    ensures rest != [] && rest[0] != '\'' ==> Reading(s, res + [rest[0]], rest[1..])
    ensures |rest| > 1 && rest[..2] == "\'\'" ==> Reading(s, res + ['\''], rest[2..])
    ensures rest != [] && rest[0] == '\'' && (|rest| == 1 || rest[1] != '\'') ==> Unquote(s) == (res, Some(rest[1..]))
  {
    if rest != [] && rest[0] != '\'' {
      assert res + [rest[0]] + Unquote(rest[1..]).0 == res + Unquote(rest).0;
    } else if |rest| > 1 && rest[1] == '\'' {
      assert res + ['\''] + Unquote(rest[2..]).0 == res + Unquote(rest).0;
    } else {
      assert res + [] == res;
    }
  }

  class Lexer {
    const script: Script
    const input: string
    var character: char
    var currentPos: nat
    var nextPos: nat

    ghost predicate Valid()
      reads this
    {
      Lawful(script) && nextPos == currentPos + 1 && currentPos <= |input|
    }

    /** The text not yet scanned. */
    ghost function Rest(): string
      reads this
    {
      if currentPos <= |input| then input[currentPos..] else ""
    }

    constructor (u: Script, text: string)
      requires Lawful(u)
      ensures Valid() && script == u && input == text && Rest() == text
    {
      script := u;
      input := text;
      character := '\0';
      currentPos := 0;
      nextPos := 0;
      new;
      ReadCharacter();
      currentPos := 0;
      nextPos := 1;
    }

    method ReadCharacter()
      modifies this
      ensures character == if old(currentPos) >= |input| then '\0' else input[old(currentPos)]
      ensures currentPos == old(nextPos) && nextPos == old(nextPos) + 1
    {
      if currentPos >= |input| {
        character := '\0';
      } else {
        character := input[currentPos];
      }
      currentPos := nextPos;
      nextPos := nextPos + 1;
    }

    /** The character at the current position, or NUL past the end. */
    function Peek(): char
      reads this
    {
      if currentPos >= |input| then '\0' else input[currentPos]
    }

    method ScanWhitespace() returns (res: string)
      requires Valid() && Rest() != [] && IsBlank(Rest()[0])
      modifies this
      ensures Valid() && (Token(Whitespace, res), Rest()) == Scan(script, old(Rest()))
    {
      hide Lawful, Scan, Run;
      ghost var s := Rest();
      res := [];
      BlankScan(script, s);
      while IsBlank(Peek())
        invariant Valid() && |res| <= |s| && res == s[..|res|] && Rest() == s[|res|..]
        invariant Run(IsBlank, s) == |res| + Run(IsBlank, Rest())
        decreases |Rest()|
      {
        RunOn(IsBlank, Rest());
        res := res + [Peek()];
        ReadCharacter();
      }
      RunOn(IsBlank, Rest());
    }

    static lemma RunOn(p: char -> bool, s: string)
      ensures Run(p, s) == if s == [] || !p(s[0]) then 0 else 1 + Run(p, s[1..])
    {
    }

    static lemma BlankScan(u: Script, s: string)
      requires s != [] && IsBlank(s[0])
      ensures Scan(u, s) == (Token(Whitespace, s[..Run(IsBlank, s)]), s[Run(IsBlank, s)..])
    {
      hide Run;
    }

    method ScanString() returns (res: string)
      requires Valid()
      modifies this
      ensures Valid()
      ensures var n := Run(script.isWord, old(Rest())); res == old(Rest())[..n] && Rest() == old(Rest())[n..]
    {
      hide Lawful, Run;
      ghost var s := Rest();
      res := [];
      NotWordAtEnd(script);
      while script.isWord(Peek())
        invariant Valid() && |res| <= |s| && res == s[..|res|] && Rest() == s[|res|..]
        invariant Run(script.isWord, s) == |res| + Run(script.isWord, Rest())
        decreases |Rest()|
      {
        RunOn(script.isWord, Rest());
        res := res + [Peek()];
        ReadCharacter();
      }
      RunOn(script.isWord, Rest());
    }

    static lemma NotWordAtEnd(u: Script)
      requires Lawful(u)
      ensures !u.isWord('\0')
    {
      assert IsSyntax('\0');
    }

    method ScanPhrase() returns (tok: Token)
      requires Valid() && Rest() != [] && Rest()[0] == '\''
      modifies this
      ensures Valid() && (tok, Rest()) == Scan(script, old(Rest()))
    {
      hide Unquote, Lawful;
      ReadCharacter();
      ghost var s := Rest();
      var res := [];
      assert Reading(s, res, Rest()) by { StartReading(s); }
      while true
        invariant Valid() && Reading(s, res, Rest())
        decreases |Rest()|
      {
        ReadOn(s, res, Rest());
        if currentPos >= |input| {
          return Token(Illegal, res);
        }
        if Peek() == '\'' {
          ReadCharacter();
          if Peek() == '\'' {
            res := res + ['\''];
            ReadCharacter();
          } else {
            return Token(Phrase, res);
          }
        } else {
          res := res + [Peek()];
          ReadCharacter();
        }
      }
    }

    /** The next token, and its column: that of its last character. */
    method Next() returns (tok: Token, pos: nat)
      requires Valid()
      modifies this
      ensures Valid() && pos == currentPos
      ensures old(Rest()) != [] ==> (tok, Rest()) == Scan(script, old(Rest()))
      ensures old(Rest()) == [] ==> tok == Token(Eol, "") && Rest() == []
    {
      var c := Peek();
      if c == '\'' {
        tok := ScanPhrase();
      } else if IsBlank(c) {
        var literal := ScanWhitespace();
        tok := Token(Whitespace, literal);
      } else if c == '\0' {
        if currentPos < |input| {
          ReadCharacter();
          tok := Token(Nul, [character]);
        } else {
          tok := Token(Eol, "");
        }
      } else if Symbol(c) != Special {
        ReadCharacter();
        tok := Token(Symbol(c), [character]);
      } else if !script.isWord(c) {
        ReadCharacter();
        tok := Token(Special, [character]);
      } else {
        var literal := ScanString();
        var kind := Keyword(literal);
        if kind == Literal && Peek() == ':' {
          kind := Keyword(Fold(script, literal));
        }
        tok := Token(kind, literal);
      }
      pos := currentPos;
    }
  }
}
