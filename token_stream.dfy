/** The token cursor of work2.py:156-191 (make_tokenizer): a position into a token list,
    lookahead by tag or by whole token, and a match that checks the current tag against a
    set of expected tags. */
module TokenStream {
  import opened Wrappers
  import opened Tokens

  /** Why the parser stops. The source raises an exception in each case; the message text
      is not modelled. */
  datatype ParseError =
    | Expected(tags: set<string>, actual: string)   // match saw a tag outside the expected set
    | Unexpected(actual: string)                   // no statement or atom starts with this tag
    | NoPayload(tag: string)                       // t[1] on a token that has no payload

  /** peek(k): the tag k tokens ahead of pos, or "eof" past the end of the list. */
  function TagAhead(ts: seq<Token>, pos: nat, k: nat): (t: string)
    ensures pos + k >= |ts| ==> t == "eof"
    ensures t != "eof" ==> pos + k < |ts| && t == ts[pos + k].tag
  {
    if pos + k < |ts| then ts[pos + k].tag else "eof"
  }

  /** peek(k, 'full'): the token k tokens ahead of pos. Past the end the source hands back
      the bare string 'eof'; the model hands back the end-of-input token. */
  function TokenAhead(ts: seq<Token>, pos: nat, k: nat): (t: Token)
    ensures t.tag == TagAhead(ts, pos, k)
  {
    if pos + k < |ts| then ts[pos + k] else Eof
  }

  /** match(*m): the token at pos and the position after it when its tag is one of m. */
  function MatchAt(ts: seq<Token>, pos: nat, m: set<string>): (r: Result<Parsed<Token>, ParseError>)
    ensures r.Ok? <==> TagAhead(ts, pos, 0) in m
    ensures r.Ok? ==> r.value.next == pos + 1 && r.value.node.tag in m
    ensures r.Ok? && "eof" !in m ==> pos < |ts| && r.value.node == ts[pos]
    ensures r.Err? ==> r.error == Expected(m, TagAhead(ts, pos, 0))
  {
    if TagAhead(ts, pos, 0) in m then Ok(Parsed(TokenAhead(ts, pos, 0), pos + 1))
    else Err(Expected(m, TagAhead(ts, pos, 0)))
  }

  /** t[1]: the payload of a token. */
  function Payload(t: Token): (r: Result<Value, ParseError>)
    ensures r.Ok? <==> t.val.Some?
    ensures r.Ok? ==> r.value == t.val.value
  {
    match t.val
    case Some(v) => Ok(v)
    case None => Err(NoPayload(t.tag))
  }

  /** No token from a up to b is tagged "eof". */
  ghost predicate Clean(ts: seq<Token>, a: nat, b: nat)
  {
    forall k {:trigger IsEof(ts[k])} :: a <= k < b && k < |ts| ==> !IsEof(ts[k])
  }

  /** The end-of-input tag. */
  predicate IsEof(t: Token)
  {
    t.tag == "eof"
  }

  class TokenCursor {
    const tokens: seq<Token>
    var pos: nat
    var cur: Token

    ghost predicate Valid()
      reads this
    {
      cur == TokenAhead(tokens, pos, 0)
    }

    /** The source starts at position -1 and calls next() once (work2.py:157-158, 190). */
    constructor (ts: seq<Token>)
      ensures tokens == ts && pos == 0 && Valid()
    {
      tokens := ts;
      pos := 0;
      cur := if 0 < |ts| then ts[0] else Eof;
    }

    /** next(): hand back the current token and move one position on. */
    method Next() returns (t: Token)
      requires Valid()
      modifies this
      ensures Valid() && pos == old(pos) + 1 && t == old(cur)
    {
      t := cur;
      pos := pos + 1;
      if pos >= |tokens| {
        cur := Eof;
      } else {
        cur := tokens[pos];
      }
    }

    /** peek(k): peek() is the current token's tag, and past the end of the list the
        answer is "eof". */
    function PeekTag(k: nat): (t: string)
      reads this
      ensures Valid() && k == 0 ==> t == cur.tag
      ensures pos + k >= |tokens| ==> t == "eof"
    {
      TagAhead(tokens, pos, k)
    }

    /** peek(k, 'full'): the whole token whose tag peek(k) gives; the current token for
        k = 0. */
    function PeekFull(k: nat): (t: Token)
      reads this
      ensures t.tag == PeekTag(k)
      ensures Valid() && k == 0 ==> t == cur
    {
      TokenAhead(tokens, pos, k)
    }

    /** match(*m) */
    method Match(m: set<string>) returns (r: Result<Token, ParseError>)
      requires Valid()
      modifies this
      ensures Valid()
      ensures Agrees(MatchAt(tokens, old(pos), m), r, pos)
      ensures r.Err? ==> pos == old(pos)
    {
      if PeekTag(0) !in m {
        return Err(Expected(m, PeekTag(0)));
      }
      var t := Next();
      return Ok(t);
    }
  }
}
