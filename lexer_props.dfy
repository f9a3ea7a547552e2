/** What the lexer promises: the token list always ends with exactly one end-of-input
    token, and the lexer reads back any token list spelled out with whitespace between
    the tokens wherever two spellings would otherwise run together. */
module LexerProps {
  import opened Wrappers
  import opened Tokens
  import opened LexerSpec

  /** The token list a driver loop builds from acc ends with the end-of-input token, keeps
      acc as its prefix and holds no earlier "eof" token. */
  predicate EndsWithEof(ts: seq<Token>, acc: seq<Token>)
  {
    |ts| > |acc| && ts[..|acc|] == acc && ts[|ts| - 1] == Eof
    && forall k :: 0 <= k < |ts| - 1 ==> ts[k].tag != "eof"
  }

  lemma {:induction false} LexFromEndsWithEof(src: string, i: nat, acc: seq<Token>)
    requires i <= |src|
    requires forall k :: 0 <= k < |acc| ==> acc[k].tag != "eof"
    ensures LexFrom(src, i, acc).Ok? ==> EndsWithEof(LexFrom(src, i, acc).value, acc)
    decreases |src| - i, 1
  {
    LexStepEndsWithEof(src, i, acc, TokenFrom(src, i));
  }

  lemma {:induction false} LexStepEndsWithEof(src: string, i: nat, acc: seq<Token>, r: Result<Parsed<Token>, LexError>)
    requires i <= |src|
    requires r.Ok? && r.value.node.tag != "eof" ==> i < r.value.next <= |src|
    requires r.Ok? && r.value.node.tag == "eof" ==> r.value.node == Eof
    requires forall k :: 0 <= k < |acc| ==> acc[k].tag != "eof"
    ensures LexStep(src, i, acc, r).Ok? ==> EndsWithEof(LexStep(src, i, acc, r).value, acc)
    decreases |src| - i, 0
  {
    if r.Ok? {
      var p := r.value;
      if p.node.tag == "eof" {
        assert (acc + [p.node])[..|acc|] == acc;
      } else {
        LexFromEndsWithEof(src, p.next, acc + [p.node]);
        var ts := LexFrom(src, p.next, acc + [p.node]);
        if ts.Ok? {
          var v := ts.value;
          assert v[..|acc|] == v[..|acc| + 1][..|acc|];
        }
      }
    }
  }

  /** The token list of any text that lexes ends with the end-of-input token, and no
      earlier token is tagged "eof". */
  lemma {:induction false} LexEndsWithEof(src: string)
    ensures Lex(src).Ok? ==>
              var ts := Lex(src).value;
              |ts| > 0 && ts[|ts| - 1] == Eof && forall k :: 0 <= k < |ts| - 1 ==> ts[k].tag != "eof"
  {
    LexFromEndsWithEof(src, 0, []);
  }

  // ---------------------------------------------------------------------------
  // Spelling tokens out and reading them back

  /** The decimal digits of n, most significant first. */
  function DecimalDigits(n: nat): (s: string)
    ensures |s| > 0 && AllDigits(s)
  {
    if n < 10 then [('0' as int + n) as char]
    else DecimalDigits(n / 10) + [('0' as int + n % 10) as char]
  }

  lemma {:induction false} DigitsValueOfDecimal(n: nat)
    ensures DigitsValue(DecimalDigits(n)) == n
  {
    if n >= 10 {
      DigitsValueOfDecimal(n / 10);
      var s := DecimalDigits(n);
      assert s[..|s| - 1] == DecimalDigits(n / 10);
    }
  }

  predicate IsWord(w: string)
  {
    |w| > 0 && IsLetter(w[0]) && forall k :: 0 < k < |w| ==> IsLetterOrDigit(w[k])
  }

  predicate AllWhitespace(s: string)
  {
    forall k :: 0 <= k < |s| ==> IsWhitespace(s[k])
  }

  /** The tokens the lexer can produce from some text (the end-of-input token aside). */
  predicate Lexable(t: Token)
  {
    match t.val
    case None =>
      IsKeyword(t.tag)
      || (|t.tag| == 1 && (IsPunctuator(t.tag[0]) || IsRelational(t.tag[0])))
      || (|t.tag| == 2 && IsRelational(t.tag[0]) && t.tag[1] == '=')
    case Some(Text(s)) =>
      (t.tag == "id" && IsWord(s) && !IsKeyword(s)) || (t.tag == "str" && '"' !in s)
    case Some(Num(Int(n))) => t.tag == "num" && n >= 0
    case Some(Num(Decimal(w, f))) => t.tag == "num" && w != [] && AllDigits(w) && AllDigits(f)
  }

  /** The text a token is read from. */
  function Spelling(t: Token): string
  {
    match t.val
    case None => t.tag
    case Some(Text(s)) => if t.tag == "str" then ['"'] + s + ['"'] else s
    case Some(Num(Int(n))) => if n >= 0 then DecimalDigits(n) else []
    case Some(Num(Decimal(w, f))) => w + ['.'] + f
  }

  /** The cursor value c just after a token's spelling lets that token end there: a word
      is not followed by a letter, digit or the end of the text, a number not by a digit
      (nor, for an integer, by '.'), and '=', '>' or '<' not by '='. */
  predicate EndsBefore(t: Token, c: Cur)
  {
    match t.val
    case None =>
      if IsKeyword(t.tag) then !CurIsLetterOrDigit(c)
      else if |t.tag| == 1 && IsRelational(t.tag[0]) then c != Ch('=')
      else true
    case Some(Text(_)) => t.tag == "str" || !CurIsLetterOrDigit(c)
    case Some(Num(Int(_))) => !CurIsDigit(c) && c != Ch('.')
    case Some(Num(Decimal(_, _))) => !CurIsDigit(c)
  }

  /** Each token's spelling followed by its gap of whitespace. */
  function Render(ts: seq<Token>, gaps: seq<string>): string
    requires |gaps| == |ts|
  {
    if ts == [] then [] else Spelling(ts[0]) + gaps[0] + Render(ts[1..], gaps[1..])
  }

  /** Every token is lexable, every gap is whitespace (possibly empty), and what follows
      each spelling lets the token end there. */
  predicate WellLaid(ts: seq<Token>, gaps: seq<string>)
    requires |gaps| == |ts|
  {
    ts == [] ||
    (Lexable(ts[0]) && AllWhitespace(gaps[0])
     && EndsBefore(ts[0], CurAt(gaps[0] + Render(ts[1..], gaps[1..]), 0))
     && WellLaid(ts[1..], gaps[1..]))
  }

  lemma {:induction false} SkipWsLands(src: string, i: nat, j: nat)
    requires i <= j <= |src|
    requires forall k :: i <= k < j ==> IsWhitespace(src[k])
    requires !CurIsWhitespace(CurAt(src, j))
    ensures SkipWs(src, i) == j
    decreases j - i
  {
    if i < j {
      SkipWsLands(src, i + 1, j);
    }
  }

  lemma DigitsEndLands(src: string, i: nat, j: nat)
    requires i <= j <= |src|
    requires AllDigits(src[i..j])
    requires !CurIsDigit(CurAt(src, j))
    ensures DigitsEnd(src, i) == j
  {
  }

  /** The run of letters, digits and '_' that ends before the first other character is
      exactly what the identifier loop scans. */
  lemma {:induction false} WordEndLands(src: string, i: nat, j: nat)
    requires i <= j < |src|
    requires forall k :: i <= k < j ==> IsLetterOrDigit(src[k])
    requires !IsLetterOrDigit(src[j])
    ensures WordEnd(src, i) == j
    decreases j - i
  {
    if i < j {
      WordEndLands(src, i + 1, j);
    }
  }

  /** The identifier loop stops at the end of the maximal run of letters, digits and '_'. */
  lemma {:induction false} WordEndRun(src: string, i: nat)
    requires i <= |src|
    ensures forall k :: i <= k < WordEnd(src, i) ==> IsLetterOrDigit(src[k])
    ensures WordEnd(src, i) < |src| ==> !IsLetterOrDigit(src[WordEnd(src, i)])
    decreases |src| - i
  {
    if i < |src| && IsLetterOrDigit(src[i]) {
      WordEndRun(src, i + 1);
    }
  }

  lemma {:induction false} StringBodyLands(src: string, i: nat, r: string, e: nat)
    requires i <= e < |src| && src[e] == '"'
    requires forall k :: i <= k < e ==> src[k] != '"'
    ensures StringBody(src, i, r) == Ok(Parsed(r + src[i..e], e))
    decreases e - i
  {
    if i < e {
      StringBodyLands(src, i + 1, r + [src[i]], e);
      assert r + [src[i]] + src[i + 1..e] == r + src[i..e];
    }
  }

  lemma KeywordsAreWords()
    ensures forall w :: IsKeyword(w) ==> IsWord(w)
  {
  }

  /** Reading a whole slice back character by character. */
  lemma {:induction false} SliceAt(src: string, j: nat, e: nat, sp: string, k: nat)
    requires j <= e <= |src| && src[j..e] == sp && j <= k < e
    ensures src[k] == sp[k - j]
  {
    assert src[j..e][k - j] == src[k];
  }

  /** A sub-slice of a slice whose contents are known. */
  lemma {:induction false} SubSlice(src: string, j: nat, e: nat, sp: string, a: nat, b: nat)
    requires j <= e <= |src| && src[j..e] == sp && a <= b <= |sp|
    ensures src[j + a..j + b] == sp[a..b]
  {
    forall k | 0 <= k < b - a ensures src[j + a..j + b][k] == sp[a..b][k] {
      assert src[j..e][a + k] == src[j + a + k];
    }
  }

  lemma {:induction false} TokenAtWord(src: string, j: nat, w: string)
    requires IsWord(w) && j + |w| < |src| && src[j..j + |w|] == w
    requires !IsLetterOrDigit(src[j + |w|])
    ensures TokenAt(src, j) == Ok(Parsed(if IsKeyword(w) then Token(w, None) else Token("id", Some(Text(w))), j + |w|))
  {
    var e := j + |w|;
    SliceAt(src, j, e, w, j);
    forall k | j + 1 <= k < e ensures IsLetterOrDigit(src[k]) {
      SliceAt(src, j, e, w, k);
    }
    WordEndLands(src, j + 1, e);
  }

  lemma {:induction false} TokenAtMark(src: string, j: nat, tag: string)
    requires (|tag| == 1 && (IsPunctuator(tag[0]) || IsRelational(tag[0])))
             || (|tag| == 2 && IsRelational(tag[0]) && tag[1] == '=')
    requires j + |tag| <= |src| && src[j..j + |tag|] == tag
    requires |tag| == 1 && IsRelational(tag[0]) ==> CurAt(src, j + 1) != Ch('=')
    ensures TokenAt(src, j) == Ok(Parsed(Token(tag, None), j + |tag|))
  {
    SliceAt(src, j, j + |tag|, tag, j);
    if |tag| == 2 {
      SliceAt(src, j, j + 2, tag, j + 1);
      assert tag == [tag[0], '='];
    } else {
      assert tag == [tag[0]];
    }
  }

  lemma {:induction false} TokenAtString(src: string, j: nat, s: string)
    requires '"' !in s
    requires j + |s| + 2 <= |src| && src[j..j + |s| + 2] == ['"'] + s + ['"']
    ensures TokenAt(src, j) == Ok(Parsed(Token("str", Some(Text(s))), j + |s| + 2))
  {
    var e := j + |s| + 2;
    var sp := ['"'] + s + ['"'];
    SliceAt(src, j, e, sp, j);
    SliceAt(src, j, e, sp, e - 1);
    forall k | j + 1 <= k < e - 1 ensures src[k] != '"' {
      SliceAt(src, j, e, sp, k);
      assert sp[k - j] == s[k - j - 1];
    }
    StringBodyLands(src, j + 1, "", e - 1);
    SubSlice(src, j, e, sp, 1, |s| + 1);
    assert sp[1..|s| + 1] == s;
    assert "" + src[j + 1..e - 1] == s;
  }

  lemma {:induction false} TokenAtInt(src: string, j: nat, n: nat)
    requires j + |DecimalDigits(n)| <= |src| && src[j..j + |DecimalDigits(n)|] == DecimalDigits(n)
    requires !CurIsDigit(CurAt(src, j + |DecimalDigits(n)|)) && CurAt(src, j + |DecimalDigits(n)|) != Ch('.')
    ensures TokenAt(src, j) == Ok(Parsed(Token("num", Some(Num(Int(n)))), j + |DecimalDigits(n)|))
  {
    var d := DecimalDigits(n);
    var e := j + |d|;
    SliceAt(src, j, e, d, j);
    SubSlice(src, j, e, d, 1, |d|);
    DigitsEndLands(src, j + 1, e);
    DigitsValueOfDecimal(n);
  }

  lemma {:induction false} NumberAtDecimal(src: string, j: nat, w: string, f: string)
    requires w != [] && AllDigits(w) && AllDigits(f)
    requires j + |w| + 1 + |f| <= |src| && src[j..j + |w| + 1 + |f|] == w + ['.'] + f
    requires !CurIsDigit(CurAt(src, j + |w| + 1 + |f|))
    ensures IsDigit(src[j])
    ensures NumberAt(src, j) == Parsed(Token("num", Some(Num(Decimal(w, f)))), j + |w| + 1 + |f|)
  {
    var sp := w + ['.'] + f;
    var d := j + |w|;
    var e := d + 1 + |f|;
    SliceAt(src, j, e, sp, j);
    SliceAt(src, j, e, sp, d);
    SubSlice(src, j, e, sp, 0, |w|);
    assert sp[0..|w|] == w;
    SubSlice(src, j, e, sp, |w| + 1, |sp|);
    assert sp[|w| + 1..|sp|] == f;
    assert AllDigits(src[j + 1..d]) by {
      assert src[j + 1..d] == w[1..];
    }
    DigitsEndLands(src, j + 1, d);
    DigitsEndLands(src, d + 1, e);
    assert src[j..d] == w && src[d + 1..e] == f && CurAt(src, d) == Ch('.');
    NumberAtFraction(src, j, d, e);
  }

  /** num() on a digit run ending at d, a '.' at d and a digit run ending at e. */
  lemma {:induction false} NumberAtFraction(src: string, j: nat, d: nat, e: nat)
    requires j < d < e <= |src| && IsDigit(src[j])
    requires DigitsEnd(src, j + 1) == d && CurAt(src, d) == Ch('.') && DigitsEnd(src, d + 1) == e
    ensures NumberAt(src, j) == Parsed(Token("num", Some(Num(Decimal(src[j..d], src[d + 1..e])))), e)
  {
  }

  lemma {:induction false} TokenAtDecimal(src: string, j: nat, w: string, f: string)
    requires w != [] && AllDigits(w) && AllDigits(f)
    requires j + |w| + 1 + |f| <= |src| && src[j..j + |w| + 1 + |f|] == w + ['.'] + f
    requires !CurIsDigit(CurAt(src, j + |w| + 1 + |f|))
    ensures TokenAt(src, j) == Ok(Parsed(Token("num", Some(Num(Decimal(w, f)))), j + |w| + 1 + |f|))
  {
    NumberAtDecimal(src, j, w, f);
  }

  /** A keyword or operator token spelled at position j is read back whole. */
  lemma {:induction false} TokenAtBare(src: string, j: nat, t: Token)
    requires t.val.None? && Lexable(t)
    requires j + |Spelling(t)| <= |src| && src[j..j + |Spelling(t)|] == Spelling(t)
    requires EndsBefore(t, CurAt(src, j + |Spelling(t)|))
    ensures TokenAt(src, j) == Ok(Parsed(t, j + |Spelling(t)|))
  {
    if IsKeyword(t.tag) {
      KeywordsAreWords();
      TokenAtWord(src, j, t.tag);
    } else {
      TokenAtMark(src, j, t.tag);
    }
  }

  /** An identifier or string token spelled at position j is read back whole. */
  lemma {:induction false} TokenAtText(src: string, j: nat, t: Token)
    requires t.val.Some? && t.val.value.Text? && Lexable(t)
    requires j + |Spelling(t)| <= |src| && src[j..j + |Spelling(t)|] == Spelling(t)
    requires EndsBefore(t, CurAt(src, j + |Spelling(t)|))
    ensures TokenAt(src, j) == Ok(Parsed(t, j + |Spelling(t)|))
  {
    if t.tag == "str" {
      TokenAtString(src, j, t.val.value.s);
    } else {
      TokenAtWord(src, j, t.val.value.s);
    }
  }

  /** A number token spelled at position j is read back whole. */
  lemma {:induction false} TokenAtNumber(src: string, j: nat, t: Token)
    requires t.val.Some? && t.val.value.Num? && Lexable(t)
    requires j + |Spelling(t)| <= |src| && src[j..j + |Spelling(t)|] == Spelling(t)
    requires EndsBefore(t, CurAt(src, j + |Spelling(t)|))
    ensures TokenAt(src, j) == Ok(Parsed(t, j + |Spelling(t)|))
  {
    match t.val.value.n
    case Int(n) => TokenAtInt(src, j, n);
    case Decimal(w, f) => TokenAtDecimal(src, j, w, f);
  }

  /** A lexable token spelled at position j, and ended by what follows, is read back
      whole by TokenAt. */
  lemma {:induction false} TokenAtSpelling(src: string, j: nat, t: Token)
    requires Lexable(t)
    requires j + |Spelling(t)| <= |src| && src[j..j + |Spelling(t)|] == Spelling(t)
    requires EndsBefore(t, CurAt(src, j + |Spelling(t)|))
    ensures TokenAt(src, j) == Ok(Parsed(t, j + |Spelling(t)|))
  {
    if t.val.None? {
      TokenAtBare(src, j, t);
    } else if t.val.value.Text? {
      TokenAtText(src, j, t);
    } else {
      TokenAtNumber(src, j, t);
    }
  }

  /** The first character of a lexable token's spelling is not whitespace. */
  lemma {:induction false} SpellingStart(t: Token)
    requires Lexable(t)
    ensures |Spelling(t)| > 0 && !IsWhitespace(Spelling(t)[0])
  {
    if t.val.None? && IsKeyword(t.tag) {
      KeywordsAreWords();
    }
  }

  /** Whitespace from i to j, then a lexable token's spelling ended by what follows it:
      TokenFrom at i reads that token. */
  lemma {:induction false} TokenFromSpelling(src: string, i: nat, j: nat, t: Token)
    requires i <= j && Lexable(t)
    requires j + |Spelling(t)| <= |src| && src[j..j + |Spelling(t)|] == Spelling(t)
    requires forall k :: i <= k < j ==> IsWhitespace(src[k])
    requires EndsBefore(t, CurAt(src, j + |Spelling(t)|))
    ensures TokenFrom(src, i) == Ok(Parsed(t, j + |Spelling(t)|))
  {
    TokenAtSpelling(src, j, t);
    SpellingStart(t);
    SliceAt(src, j, j + |Spelling(t)|, Spelling(t), j);
    SkipWsLands(src, i, j);
  }

  /** The text s appears in src at position j. */
  predicate Spelled(src: string, j: nat, s: string)
  {
    j + |s| <= |src| && forall k :: 0 <= k < |s| ==> src[j + k] == s[k]
  }

  lemma SpelledWhole(s: string)
    ensures Spelled(s, 0, s)
  {
    forall k | 0 <= k < |s| ensures s[0 + k] == s[k] {}
  }

  lemma {:induction false} SpelledSplit(src: string, j: nat, a: string, b: string)
    requires Spelled(src, j, a + b)
    ensures Spelled(src, j, a) && Spelled(src, j + |a|, b)
  {
    forall k | 0 <= k < |a| ensures src[j + k] == a[k] {
      assert (a + b)[k] == a[k];
    }
    forall k | 0 <= k < |b| ensures src[j + |a| + k] == b[k] {
      assert (a + b)[|a| + k] == b[k];
    }
  }

  lemma {:induction false} SpelledSlice(src: string, j: nat, s: string)
    requires Spelled(src, j, s)
    ensures src[j..j + |s|] == s
  {
    forall k | 0 <= k < |s| ensures src[j..j + |s|][k] == s[k] {
      assert src[j..j + |s|][k] == src[j + k];
    }
  }

  /** What follows a + b at the end of the text, as seen just after a. */
  lemma {:induction false} SpelledCur(src: string, j: nat, a: string, b: string)
    requires Spelled(src, j, a + b) && j + |a| + |b| == |src|
    ensures CurAt(src, j + |a|) == CurAt(b, 0)
  {
    if b != [] {
      assert src[j + |a| + 0] == (a + b)[|a| + 0];
    }
  }

  /** The text of src from i on, read position by position: the whitespace gap g, then
      each token's spelling, ended by what follows it, and its own gap, up to the end. */
  predicate LaidOut(src: string, i: nat, g: string, ts: seq<Token>, gaps: seq<string>)
    requires |gaps| == |ts|
    decreases ts
  {
    Spelled(src, i, g) && AllWhitespace(g) &&
    if ts == [] then i + |g| == |src|
    else
      Spelled(src, i + |g|, Spelling(ts[0])) && Lexable(ts[0])
      && EndsBefore(ts[0], CurAt(src, i + |g| + |Spelling(ts[0])|))
      && LaidOut(src, i + |g| + |Spelling(ts[0])|, gaps[0], ts[1..], gaps[1..])
  }

  /** The first token of a rendering that makes up the rest of the text from i on: its
      gap, its spelling and what follows them. */
  lemma {:induction false} RenderParts(src: string, i: nat, g: string, ts: seq<Token>, gaps: seq<string>)
    requires |gaps| == |ts| && ts != []
    requires Spelled(src, i, g + Render(ts, gaps)) && i + |g| + |Render(ts, gaps)| == |src|
    ensures Spelled(src, i, g) && Spelled(src, i + |g|, Spelling(ts[0]))
    ensures Spelled(src, i + |g| + |Spelling(ts[0])|, gaps[0] + Render(ts[1..], gaps[1..]))
    ensures i + |g| + |Spelling(ts[0])| + |gaps[0] + Render(ts[1..], gaps[1..])| == |src|
    ensures CurAt(src, i + |g| + |Spelling(ts[0])|) == CurAt(gaps[0] + Render(ts[1..], gaps[1..]), 0)
  {
    var sp := Spelling(ts[0]);
    var rest := gaps[0] + Render(ts[1..], gaps[1..]);
    assert Render(ts, gaps) == sp + rest;
    SpelledSplit(src, i, g, sp + rest);
    SpelledSplit(src, i + |g|, sp, rest);
    SpelledCur(src, i + |g|, sp, rest);
  }

  /** A rendering that makes up the rest of the text from i on is laid out there position
      by position. */
  lemma {:induction false} RenderLaidOut(src: string, i: nat, g: string, ts: seq<Token>, gaps: seq<string>)
    requires |gaps| == |ts| && AllWhitespace(g) && WellLaid(ts, gaps)
    requires Spelled(src, i, g + Render(ts, gaps)) && i + |g| + |Render(ts, gaps)| == |src|
    ensures LaidOut(src, i, g, ts, gaps)
    decreases ts
  {
    if ts == [] {
      SpelledSplit(src, i, g, Render(ts, gaps));
    } else {
      RenderParts(src, i, g, ts, gaps);
      RenderLaidOut(src, i + |g| + |Spelling(ts[0])|, gaps[0], ts[1..], gaps[1..]);
    }
  }

  /** A lexable token spelled after a whitespace gap is the next token the driver loop
      appends. */
  lemma {:induction false} LexFromSpelled(src: string, i: nat, g: string, t: Token, acc: seq<Token>)
    requires Lexable(t) && AllWhitespace(g)
    requires Spelled(src, i, g) && Spelled(src, i + |g|, Spelling(t))
    requires EndsBefore(t, CurAt(src, i + |g| + |Spelling(t)|))
    ensures LexFrom(src, i, acc) == LexFrom(src, i + |g| + |Spelling(t)|, acc + [t])
  {
    forall k | i <= k < i + |g| ensures IsWhitespace(src[k]) {
      assert src[i + (k - i)] == g[k - i];
    }
    SpelledSlice(src, i + |g|, Spelling(t));
    TokenFromSpelling(src, i, i + |g|, t);
    LexFromStep(src, i, acc, t, i + |g| + |Spelling(t)|);
  }

  /** One pass of the driver loop that reads a token other than the end-of-input token. */
  lemma {:induction false} LexFromStep(src: string, i: nat, acc: seq<Token>, t: Token, e: nat)
    requires i <= |src| && TokenFrom(src, i) == Ok(Parsed(t, e)) && t.tag != "eof"
    ensures e <= |src| && LexFrom(src, i, acc) == LexFrom(src, e, acc + [t])
  {
  }

  /** A blank rest of the text ends the driver loop with the end-of-input token. */
  lemma {:induction false} LexFromBlank(src: string, i: nat, g: string, acc: seq<Token>)
    requires Spelled(src, i, g) && i + |g| == |src| && AllWhitespace(g)
    ensures LexFrom(src, i, acc) == Ok(acc + [Eof])
  {
    forall k | i <= k < |src| ensures IsWhitespace(src[k]) {
      assert src[i + (k - i)] == g[k - i];
    }
    SkipWsLands(src, i, |src|);
  }

  /** After the first token laid out from i on, the rest is laid out. */
  lemma {:induction false} LaidOutTail(src: string, i: nat, g: string, ts: seq<Token>, gaps: seq<string>)
    requires |gaps| == |ts| && ts != [] && LaidOut(src, i, g, ts, gaps)
    ensures i + |g| + |Spelling(ts[0])| <= |src|
    ensures LaidOut(src, i + |g| + |Spelling(ts[0])|, gaps[0], ts[1..], gaps[1..])
  {
  }

  /** The first token laid out from i on is the next token the driver loop appends, so
      what the loop does with the rest decides the whole. */
  lemma {:induction false} LexFromLaidHead(src: string, i: nat, acc: seq<Token>,
                                           g: string, ts: seq<Token>, gaps: seq<string>)
    requires |gaps| == |ts| && ts != [] && LaidOut(src, i, g, ts, gaps)
    requires i + |g| + |Spelling(ts[0])| <= |src|
    requires LexFrom(src, i + |g| + |Spelling(ts[0])|, acc + [ts[0]]) == Ok(acc + [ts[0]] + ts[1..] + [Eof])
    ensures LexFrom(src, i, acc) == Ok(acc + ts + [Eof])
  {
    LexFromSpelled(src, i, g, ts[0], acc);
    AppendFirst(acc, ts, [Eof]);
  }

  lemma AppendFirst(acc: seq<Token>, ts: seq<Token>, tail: seq<Token>)
    requires ts != []
    ensures acc + [ts[0]] + ts[1..] + tail == acc + ts + tail
  {
    assert [ts[0]] + ts[1..] == ts;
  }

  lemma EmptyAcc(ts: seq<Token>)
    ensures [] + ts + [Eof] == ts + [Eof]
  {
  }

  /** The driver loop over a laid-out rest of the text appends exactly its tokens and then
      the end-of-input token. */
  lemma {:induction false} LexFromLaidOut(src: string, i: nat, acc: seq<Token>,
                                          g: string, ts: seq<Token>, gaps: seq<string>)
    requires |gaps| == |ts| && LaidOut(src, i, g, ts, gaps)
    ensures LexFrom(src, i, acc) == Ok(acc + ts + [Eof])
    decreases ts, 1
  {
    if ts == [] {
      LexFromBlank(src, i, g, acc);
      assert acc + ts + [Eof] == acc + [Eof];
    } else {
      LexFromLaidCons(src, i, acc, g, ts, gaps);
    }
  }

  lemma {:induction false} LexFromLaidCons(src: string, i: nat, acc: seq<Token>,
                                           g: string, ts: seq<Token>, gaps: seq<string>)
    requires |gaps| == |ts| && ts != [] && LaidOut(src, i, g, ts, gaps)
    ensures LexFrom(src, i, acc) == Ok(acc + ts + [Eof])
    decreases ts, 0
  {
    LaidOutTail(src, i, g, ts, gaps);
    LexFromLaidOut(src, i + |g| + |Spelling(ts[0])|, acc + [ts[0]], gaps[0], ts[1..], gaps[1..]);
    LexFromLaidHead(src, i, acc, g, ts, gaps);
  }

  /** Whitespace never produces a token, and a lexable token list spelled out with
      whitespace gaps where needed lexes back to itself followed by the end-of-input
      token. With no tokens this says that blank text, the empty text included, lexes
      to the end-of-input token alone. */
  lemma {:induction false} LexRendered(lead: string, ts: seq<Token>, gaps: seq<string>)
    requires |gaps| == |ts| && AllWhitespace(lead) && WellLaid(ts, gaps)
    ensures Lex(lead + Render(ts, gaps)) == Ok(ts + [Eof])
  {
    var src := lead + Render(ts, gaps);
    SpelledWhole(src);
    RenderLaidOut(src, 0, lead, ts, gaps);
    LexFromLaidOut(src, 0, [], lead, ts, gaps);
    EmptyAcc(ts);
  }

  /** Text made of spaces, tabs, carriage returns and newlines only, the empty text
      included, lexes to the end-of-input token alone. */
  lemma {:induction false} LexBlank(s: string)
    requires AllWhitespace(s)
    ensures Lex(s) == Ok([Eof])
  {
    assert s + Render([], []) == s;
    LexRendered(s, [], []);
    assert [] + [Eof] == [Eof];
  }
}
