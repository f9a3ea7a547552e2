/** Tokens as the lexer produces them and the parser consumes them (work2.py:1-10). */
module Tokens {
  import opened Wrappers

  /** The payload of a number literal. A digit run without '.' is converted to an integer;
      one with a '.' is kept as its two digit strings instead of a floating-point value. */
  datatype Number = Int(n: int) | Decimal(whole: string, frac: string)

  /** A token payload: identifier spelling or string contents, or a number. */
  datatype Value = Text(s: string) | Num(n: Number)

  /** make_tk(tag, val) builds [tag] when val is None and [tag, val] otherwise;
      tk_tag and tk_val are this datatype's two fields. */
  datatype Token = Token(tag: string, val: Option<Value>)

  /** The end-of-input token that closes every token list. */
  const Eof: Token := Token("eof", None)
}
