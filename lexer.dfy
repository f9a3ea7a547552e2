/** The lexer of work2.py:17-153 as the source writes it: a cursor whose position and
    current character are updated in place by next(), and scanning loops over it. */
module Lexer {
  import opened Wrappers
  import opened Tokens
  import opened LexerSpec

  class Lexer {
    const src: string
    var pos: nat
    var cur: Cur

    ghost predicate Valid()
      reads this
    {
      cur == CurAt(src, pos)
    }

    /** The source starts at position -1 and calls next() once (work2.py:21-22, 143). */
    constructor (prog: string)
      ensures src == prog && pos == 0 && Valid()
    {
      src := prog;
      pos := 0;
      cur := if 0 < |prog| then Ch(prog[0]) else End;
    }

    /** next(): hand back the current character and move one position on. */
    method Next() returns (t: Cur)
      requires Valid()
      modifies this
      ensures Valid() && pos == old(pos) + 1 && t == old(cur)
    {
      t := cur;
      pos := pos + 1;
      if pos >= |src| {
        cur := End;
      } else {
        cur := Ch(src[pos]);
      }
    }

    /** match(m): fail unless the current character is m, otherwise advance. */
    method Match(m: char) returns (r: Result<Cur, LexError>)
      requires Valid()
      modifies this
      ensures Valid()
      ensures old(cur) == Ch(m) ==> r == Ok(Ch(m)) && pos == old(pos) + 1
      ensures old(cur) != Ch(m) ==> r == Err(Mismatch(m, old(cur))) && pos == old(pos)
    {
      if cur != Ch(m) {
        return Err(Mismatch(m, cur));
      }
      var t := Next();
      return Ok(t);
    }

    /** ws_skip() */
    method SkipWhitespace()
      requires Valid() && pos <= |src|
      modifies this
      ensures Valid() && pos == SkipWs(src, old(pos))
    {
      while CurIsWhitespace(cur)
        invariant Valid() && pos <= |src|
        invariant SkipWs(src, pos) == SkipWs(src, old(pos))
        decreases |src| - pos
      {
        var _ := Next();
      }
    }

    /** string() */
    method ScanString() returns (r: Result<Token, LexError>)
      requires Valid() && pos < |src| && src[pos] == '"'
      modifies this
      ensures Valid() && pos <= |src|
      ensures Agrees(StringAt(src, old(pos)), r, pos)
    {
      var open := Match('"');
      var s := "";
      while cur != Ch('"')
        invariant Valid() && old(pos) < pos <= |src|
        invariant StringBody(src, old(pos) + 1, "") == StringBody(src, pos, s)
        decreases |src| - pos
      {
        if cur.End? {
          // The source appends 'eof' to the string here forever.
          return Err(UnclosedString);
        }
        var c := Next();
        s := s + [c.c];
      }
      var close := Match('"');
      return Ok(Token("str", Some(Text(s))));
    }

    /** The digit loop that num() runs twice (work2.py:70-71 and 75-76): append the
        maximal digit run at the cursor to r. */
    method AppendDigits(r: string) returns (r': string)
      requires Valid() && pos <= |src|
      modifies this
      ensures Valid() && pos == DigitsEnd(src, old(pos))
      ensures r' == r + src[old(pos)..pos]
    {
      r' := r;
      while CurIsDigit(cur)
        invariant Valid() && old(pos) <= pos <= |src|
        invariant r' == r + src[old(pos)..pos]
        invariant DigitsEnd(src, pos) == DigitsEnd(src, old(pos))
        decreases |src| - pos
      {
        var c := Next();
        r' := r' + [c.c];
      }
    }

    /** num() */
    method ScanNumber() returns (t: Token)
      requires Valid() && pos < |src| && IsDigit(src[pos])
      modifies this
      ensures Valid() && NumberAt(src, old(pos)) == Parsed(t, pos)
    {
      ghost var start := pos;
      var c := Next();
      var r := AppendDigits([c.c]);
      var whole := r;
      ghost var j := pos;
      assert whole == src[start..j];
      if cur == Ch('.') {
        c := Next();
        r := AppendDigits(r + [c.c]);
        assert r[|whole|] == '.';
        assert r[|whole| + 1..] == src[j + 1..pos];
      }
      assert '.' !in whole by {
        assert AllDigits(src[start + 1..j]);
      }
      if '.' in r {
        t := Token("num", Some(Num(Decimal(whole, r[|whole| + 1..]))));
      } else {
        t := Token("num", Some(Num(Int(DigitsValue(r)))));
      }
    }

    /** id() */
    method ScanWord() returns (r: Result<Token, LexError>)
      requires Valid() && pos < |src| && IsLetter(src[pos])
      modifies this
      ensures Valid() && pos <= |src|
      ensures Agrees(WordAt(src, old(pos)), r, pos)
    {
      var c := Next();
      var w := [c.c];
      while CurIsLetterOrDigit(cur)
        invariant Valid() && old(pos) < pos <= |src|
        invariant w == src[old(pos)..pos]
        invariant WordEnd(src, pos) == WordEnd(src, old(pos) + 1)
        decreases |src| - pos
      {
        if cur.End? {
          // The source appends 'eof' to the word here forever.
          return Err(WordAtEnd);
        }
        c := Next();
        w := w + [c.c];
      }
      if IsKeyword(w) {
        return Ok(Token(w, None));
      }
      return Ok(Token("id", Some(Text(w))));
    }

    /** token() */
    method NextToken() returns (r: Result<Token, LexError>)
      requires Valid() && pos <= |src|
      modifies this
      ensures Valid() && pos <= |src|
      ensures Agrees(TokenFrom(src, old(pos)), r, pos)
    {
      SkipWhitespace();
      var t := cur;
      if t.End? {
        return Ok(Token("eof", None));
      }
      if IsPunctuator(t.c) {
        var _ := Next();
        return Ok(Token([t.c], None));
      }
      // '=', '>' and '<' are three identical branches in the source.
      if IsRelational(t.c) {
        var _ := Next();
        if cur == Ch('=') {
          var _ := Next();
          return Ok(Token([t.c, '='], None));
        }
        return Ok(Token([t.c], None));
      }
      if t.c == '"' {
        r := ScanString();
        return;
      }
      if IsDigit(t.c) {
        var n := ScanNumber();
        return Ok(n);
      }
      if IsLetter(t.c) {
        r := ScanWord();
        return;
      }
      return Err(Illegal(t.c));
    }

    /** The driver loop of work2.py:145-151. */
    method Run() returns (r: Result<seq<Token>, LexError>)
      requires Valid() && pos <= |src|
      modifies this
      ensures r == LexFrom(src, old(pos), [])
    {
      var tokens := [];
      while true
        invariant Valid() && pos <= |src|
        invariant LexFrom(src, old(pos), []) == LexFrom(src, pos, tokens)
        decreases |src| - pos
      {
        var t := NextToken();
        if t.Err? {
          return Err(t.error);
        }
        tokens := tokens + [t.value];
        if t.value.tag == "eof" {
          return Ok(tokens);
        }
      }
    }
  }

  /** lexer(prog) */
  method Tokenize(prog: string) returns (r: Result<seq<Token>, LexError>)
    ensures r == Lex(prog)
  {
    var lx := new Lexer(prog);
    r := lx.Run();
  }
}
