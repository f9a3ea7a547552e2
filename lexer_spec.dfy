/** The lexer of work2.py:17-153 as functions of the source text and a cursor position.
    The class in lexer.dfy is proved to compute exactly these. */
module LexerSpec {
  import opened Wrappers
  import opened Tokens

  /** The lexer's current character. End stands for the string 'eof' that the cursor
      holds once it has run past the last character (work2.py:32-33). */
  datatype Cur = Ch(c: char) | End

  datatype LexError =
    | Illegal(c: char)                        // no rule accepts this character
    | Mismatch(expected: char, actual: Cur)   // the character match of work2.py:42-44
    | UnclosedString                          // the string loop would never stop here
    | WordAtEnd                               // the identifier loop would never stop here

  /** The keyword list of work2.py:24. */
  predicate IsKeyword(w: string)
  {
    w == "return" || w == "fun" || w == "print" || w == "if" || w == "else"
    || w == "var" || w == "true" || w == "false" || w == "while"
  }

  /** The single-character tokens of work2.py:104. */
  predicate IsPunctuator(c: char)
  {
    c == ':' || c == ',' || c == '+' || c == '-' || c == '*' || c == '/' || c == ';'
    || c == '(' || c == ')' || c == '{' || c == '}' || c == '[' || c == ']' || c == '!'
  }

  /** The characters ws_skip passes over (work2.py:49). */
  predicate IsWhitespace(c: char)
  {
    c == ' ' || c == '\t' || c == '\r' || c == '\n'
  }

  /** The characters that may be followed by '=' to form a two-character operator. */
  predicate IsRelational(c: char)
  {
    c == '=' || c == '>' || c == '<'
  }

  predicate IsDigit(c: char) { '0' <= c <= '9' }
  predicate IsLetter(c: char) { c == '_' || ('a' <= c <= 'z') || ('A' <= c <= 'Z') }
  predicate IsLetterOrDigit(c: char) { IsDigit(c) || IsLetter(c) }

  /** The cursor value at position i. */
  function CurAt(src: string, i: nat): Cur
  {
    if i < |src| then Ch(src[i]) else End
  }

  predicate CurIsWhitespace(c: Cur) { c.Ch? && IsWhitespace(c.c) }

  /** The string 'eof' is greater than '9', so the digit test rejects it. */
  predicate CurIsDigit(c: Cur) { c.Ch? && IsDigit(c.c) }

  /** The string 'eof' lies between 'a' and 'z', so the identifier loop's test accepts it. */
  predicate CurIsLetterOrDigit(c: Cur) { c.End? || IsLetterOrDigit(c.c) }

  predicate AllDigits(s: string) { forall k :: 0 <= k < |s| ==> IsDigit(s[k]) }

  /** ws_skip: the first position at or after i that does not hold whitespace. */
  function SkipWs(src: string, i: nat): (j: nat)
    requires i <= |src|
    ensures i <= j <= |src|
    ensures !CurIsWhitespace(CurAt(src, j))
    decreases |src| - i
  {
    if CurIsWhitespace(CurAt(src, i)) then SkipWs(src, i + 1) else i
  }

  /** The end of the maximal digit run that starts at i. */
  function DigitsEnd(src: string, i: nat): (j: nat)
    requires i <= |src|
    ensures i <= j <= |src|
    ensures AllDigits(src[i..j])
    ensures !CurIsDigit(CurAt(src, j))
    decreases |src| - i
  {
    if CurIsDigit(CurAt(src, i)) then DigitsEnd(src, i + 1) else i
  }

  /** The end of the maximal run of letters, digits and '_' that starts at i. */
  function WordEnd(src: string, i: nat): (j: nat)
    requires i <= |src|
    ensures i <= j <= |src|
    ensures j < |src| ==> !IsLetterOrDigit(src[j])
    decreases |src| - i
  {
    if i < |src| && IsLetterOrDigit(src[i]) then WordEnd(src, i + 1) else i
  }

  /** 10 to the power n. */
  function Pow10(n: nat): (p: nat)
    ensures p >= 1
  {
    if n == 0 then 1 else 10 * Pow10(n - 1)
  }

  /** int(r) on a run of decimal digits: a number below 10 to the power of the run's length,
      whose last decimal digit is the run's last character. */
  function DigitsValue(s: string): (n: nat)
    requires AllDigits(s)
    ensures n < Pow10(|s|)
    ensures s != [] ==> n % 10 == s[|s| - 1] as int - '0' as int
  {
    if s == [] then 0 else DigitsValue(s[..|s| - 1]) * 10 + (s[|s| - 1] as int - '0' as int)
  }

  /** The loop of work2.py:57-58: the characters from i up to the next '"' are appended to r.
      When no '"' follows, the source's cursor keeps yielding 'eof' and the loop never ends;
      the model reports UnclosedString there instead. */
  function StringBody(src: string, i: nat, r: string): (res: Result<Parsed<string>, LexError>)
    requires i <= |src|
    ensures res.Ok? ==> i <= res.value.next < |src| && src[res.value.next] == '"'
                        && res.value.node == r + src[i..res.value.next]
                        && '"' !in src[i..res.value.next]
    ensures res.Err? ==> res.error == UnclosedString && '"' !in src[i..]
    decreases |src| - i
  {
    if CurAt(src, i) == Ch('"') then Ok(Parsed(r, i))
    else if i == |src| then Err(UnclosedString)
    else StringBody(src, i + 1, r + [src[i]])
  }

  /** string(): a string literal starting with the '"' at i. Its payload is exactly the
      characters up to the next '"', which the literal consumes; without one the model fails. */
  function StringAt(src: string, i: nat): (r: Result<Parsed<Token>, LexError>)
    requires i < |src| && src[i] == '"'
    ensures r.Ok? ==> i + 2 <= r.value.next <= |src| && src[r.value.next - 1] == '"'
                      && r.value.node == Token("str", Some(Text(src[i + 1..r.value.next - 1])))
                      && '"' !in src[i + 1..r.value.next - 1]
    ensures r.Err? ==> r.error == UnclosedString && '"' !in src[i + 1..]
  {
    match StringBody(src, i + 1, "")
    case Err(e) => Err(e)
    case Ok(body) =>
      assert body.node == src[i + 1..body.next];
      Ok(Parsed(Token("str", Some(Text(body.node))), body.next + 1))
  }

  /** num(): a number literal starting with the digit at i: a maximal digit run, optionally
      followed by '.' and a second maximal digit run. */
  function NumberAt(src: string, i: nat): (r: Parsed<Token>)
    requires i < |src| && IsDigit(src[i])
    ensures i < r.next <= |src| && !CurIsDigit(CurAt(src, r.next))
    ensures r.node.tag == "num" && r.node.val.Some? && r.node.val.value.Num?
    ensures r.node.val.value.n.Decimal? <==> CurAt(src, DigitsEnd(src, i + 1)) == Ch('.')
    ensures r.node.val.value.n.Int? ==> AllDigits(src[i..r.next])
                                        && r.node.val.value.n.n == DigitsValue(src[i..r.next])
  {
    var j := DigitsEnd(src, i + 1);
    if CurAt(src, j) == Ch('.') then
      var k := DigitsEnd(src, j + 1);
      Parsed(Token("num", Some(Num(Decimal(src[i..j], src[j + 1..k])))), k)
    else
      Parsed(Token("num", Some(Num(Int(DigitsValue(src[i..j]))))), j)
  }

  /** id(): a keyword or identifier starting with the letter or '_' at i. A run that reaches
      the end of the text never stops in the source (its cursor value 'eof' passes the letter
      test); the model reports WordAtEnd there instead. */
  function WordAt(src: string, i: nat): (r: Result<Parsed<Token>, LexError>)
    requires i < |src| && IsLetter(src[i])
    ensures r.Ok? ==> i < r.value.next < |src| && !IsLetterOrDigit(src[r.value.next])
    ensures r.Ok? && IsKeyword(src[i..r.value.next]) ==> r.value.node == Token(src[i..r.value.next], None)
    ensures r.Ok? && !IsKeyword(src[i..r.value.next]) ==> r.value.node == Token("id", Some(Text(src[i..r.value.next])))
    ensures r.Err? <==> WordEnd(src, i + 1) == |src|
    ensures r.Err? ==> r.error == WordAtEnd
  {
    var j := WordEnd(src, i + 1);
    if j == |src| then Err(WordAtEnd)
    else if IsKeyword(src[i..j]) then Ok(Parsed(Token(src[i..j], None), j))
    else Ok(Parsed(Token("id", Some(Text(src[i..j]))), j))
  }

  /** token() after ws_skip: read one token at position j. */
  function TokenAt(src: string, j: nat): (r: Result<Parsed<Token>, LexError>)
    requires j <= |src|
    ensures r.Ok? ==> (r.value.node.tag == "eof" <==> j == |src|)
    ensures r.Ok? && r.value.node.tag != "eof" ==> j < r.value.next <= |src|
  {
    match CurAt(src, j)
    case End => Ok(Parsed(Eof, j))
    case Ch(c) =>
      if IsPunctuator(c) then Ok(Parsed(Token([c], None), j + 1))
      else if IsRelational(c) then
        if CurAt(src, j + 1) == Ch('=') then Ok(Parsed(Token([c, '='], None), j + 2))
        else Ok(Parsed(Token([c], None), j + 1))
      else if c == '"' then StringAt(src, j)
      else if IsDigit(c) then Ok(NumberAt(src, j))
      else if IsLetter(c) then WordAt(src, j)
      else Err(Illegal(c))
  }

  /** token(): skip whitespace, then read one token. */
  function TokenFrom(src: string, i: nat): (r: Result<Parsed<Token>, LexError>)
    requires i <= |src|
    ensures r.Ok? ==> (r.value.node.tag == "eof" <==> r.value.node == Eof)
    ensures r.Ok? && r.value.node.tag != "eof" ==> i < r.value.next <= |src|
  {
    TokenAt(src, SkipWs(src, i))
  }

  /** The driver loop of work2.py:145-151: read tokens from position i, appending them to
      acc, until the end-of-input token has been appended. */
  function LexFrom(src: string, i: nat, acc: seq<Token>): (r: Result<seq<Token>, LexError>)
    requires i <= |src|
    ensures r.Ok? ==> |acc| < |r.value| && r.value[|r.value| - 1] == Eof
    decreases |src| - i, 1
  {
    LexStep(src, i, acc, TokenFrom(src, i))
  }

  /** What a read token r does to the driver loop at position i. */
  function LexStep(src: string, i: nat, acc: seq<Token>, r: Result<Parsed<Token>, LexError>): (res: Result<seq<Token>, LexError>)
    requires i <= |src|
    requires r.Ok? && r.value.node.tag != "eof" ==> i < r.value.next <= |src|
    requires r.Ok? && r.value.node.tag == "eof" ==> r.value.node == Eof
    ensures res.Ok? ==> |acc| < |res.value| && res.value[|res.value| - 1] == Eof
    ensures r.Err? ==> res == Err(r.error)
    decreases |src| - i, 0
  {
    match r
    case Err(e) => Err(e)
    case Ok(p) => if p.node.tag == "eof" then Ok(acc + [p.node]) else LexFrom(src, p.next, acc + [p.node])
  }

  /** lexer(prog): the token list of a whole source text. */
  function Lex(src: string): (r: Result<seq<Token>, LexError>)
    ensures r.Ok? ==> |r.value| > 0 && r.value[|r.value| - 1] == Eof
  {
    LexFrom(src, 0, [])
  }
}
