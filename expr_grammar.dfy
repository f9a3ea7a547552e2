/** The expression productions of work2.py:337-441 as functions of a token list and a
    position: each returns the tree it builds and the position after its last token. */
module ExprGrammar {
  import opened Wrappers
  import opened Tokens
  import opened TokenStream
  import opened Ast

  /** The operator tags of the six left-folding binary levels, lowest first: logic_or,
      logic_and, equality, comparison, term and factor. */
  function LevelOps(lvl: nat): (ops: set<string>)
    ensures "eof" !in ops && "^" !in ops && "(" !in ops && ")" !in ops && "," !in ops
    ensures lvl < 6 <==> ops != {}
  {
    if lvl == 0 then {"or"}
    else if lvl == 1 then {"and"}
    else if lvl == 2 then {"==", "!="}
    else if lvl == 3 then {">", ">=", "<", "<="}
    else if lvl == 4 then {"+", "-"}
    else if lvl == 5 then {"*", "/"}
    else {}
  }

  /** The head of a binary node: or and and use the bare operator name, the other levels
      the matched token. */
  function Head(lvl: nat, op: Token): (h: Token)
    ensures h.tag == op.tag
    ensures lvl <= 1 ==> h.val.None?
    ensures lvl > 1 ==> h == op
  {
    if lvl <= 1 then Token(op.tag, None) else op
  }

  const UnaryOps: set<string> := {"-", "!"}

  /** expr() */
  function ExprAt(ts: seq<Token>, pos: nat): (r: Result<Parsed<Expr>, ParseError>)
    requires pos <= |ts|
    ensures r.Ok? ==> pos < r.value.next <= |ts| && Clean(ts, pos, r.value.next)
    decreases |ts| - pos, 10
  {
    LevelAt(ts, pos, 0)
  }

  /** The binary level lvl (0 to 5), and the unary level as level 6. */
  function LevelAt(ts: seq<Token>, pos: nat, lvl: nat): (r: Result<Parsed<Expr>, ParseError>)
    requires pos <= |ts| && lvl <= 6
    ensures r.Ok? ==> pos < r.value.next <= |ts| && Clean(ts, pos, r.value.next)
    decreases |ts| - pos, 9 - lvl
  {
    if lvl == 6 then UnaryAt(ts, pos)
    else
      match LevelAt(ts, pos, lvl + 1)
      case Err(e) => Err(e)
      case Ok(first) => LevelLoop(ts, lvl, first.node, first.next)
  }

  /** The while loop of a binary level: while the current tag is one of the level's
      operators, match it, parse the next operand one level up and fold it in on the right. */
  function LevelLoop(ts: seq<Token>, lvl: nat, left: Expr, pos: nat): (r: Result<Parsed<Expr>, ParseError>)
    requires pos <= |ts| && lvl < 6
    ensures r.Ok? ==> pos <= r.value.next <= |ts| && Clean(ts, pos, r.value.next)
    decreases |ts| - pos, 0
  {
    if TagAhead(ts, pos, 0) !in LevelOps(lvl) then Ok(Parsed(left, pos))
    else
      match LevelAt(ts, pos + 1, lvl + 1)
      case Err(e) => Err(e)
      case Ok(right) => LevelLoop(ts, lvl, Binary(Head(lvl, ts[pos]), left, right.node), right.next)
  }

  /** unary(): a prefix '-' or '!' applies to a unary operand. The source's test for the
      factorial form compares the matched token with the string '!', which never holds, so
      both operators build the generic unary node. */
  function UnaryAt(ts: seq<Token>, pos: nat): (r: Result<Parsed<Expr>, ParseError>)
    requires pos <= |ts|
    ensures r.Ok? ==> pos < r.value.next <= |ts| && Clean(ts, pos, r.value.next)
    decreases |ts| - pos, 2
  {
    if TagAhead(ts, pos, 0) in UnaryOps then
      match UnaryAt(ts, pos + 1)
      case Err(e) => Err(e)
      case Ok(operand) => Ok(Parsed(Unary(ts[pos], operand.node), operand.next))
    else PowAt(ts, pos)
  }

  /** pow(): an atom, and when '^' follows, a right operand that is again a pow(). */
  function PowAt(ts: seq<Token>, pos: nat): (r: Result<Parsed<Expr>, ParseError>)
    requires pos <= |ts|
    ensures r.Ok? ==> pos < r.value.next <= |ts| && Clean(ts, pos, r.value.next)
    decreases |ts| - pos, 1
  {
    match AtomAt(ts, pos)
    case Err(e) => Err(e)
    case Ok(left) =>
      if TagAhead(ts, left.next, 0) != "^" then Ok(left)
      else
        match PowAt(ts, left.next + 1)
        case Err(e) => Err(e)
        case Ok(right) => Ok(Parsed(Binary(Token("^", None), left.node, right.node), right.next))
  }

  /** atom() */
  function AtomAt(ts: seq<Token>, pos: nat): (r: Result<Parsed<Expr>, ParseError>)
    requires pos <= |ts|
    ensures r.Ok? ==> pos < r.value.next <= |ts| && Clean(ts, pos, r.value.next)
    decreases |ts| - pos, 0
  {
    var t := TagAhead(ts, pos, 0);
    if t == "(" then
      match ExprAt(ts, pos + 1)
      case Err(e) => Err(e)
      case Ok(inner) =>
        match MatchAt(ts, inner.next, {")"})
        case Err(e) => Err(e)
        case Ok(close) => Ok(Parsed(inner.node, close.next))
    else if t == "id" then
      match Payload(ts[pos])
      case Err(e) => Err(e)
      case Ok(name) =>
        if TagAhead(ts, pos, 1) != "(" then Ok(Parsed(Atom(name), pos + 1))
        else
          match CallArgs(ts, pos + 2)
          case Err(e) => Err(e)
          case Ok(args) =>
            match MatchAt(ts, args.next, {")"})
            case Err(e) => Err(e)
            case Ok(close) => Ok(Parsed(Call(name, args.node), close.next))
    else if t == "num" then
      match Payload(ts[pos])
      case Err(e) => Err(e)
      case Ok(v) =>
        if TagAhead(ts, pos, 1) == "!" then Ok(Parsed(BangLiteral(v), pos + 2))
        else Ok(Parsed(Atom(v), pos + 1))
    else if t == "str" then
      match Payload(ts[pos])
      case Err(e) => Err(e)
      case Ok(v) => Ok(Parsed(Atom(v), pos + 1))
    else if t == "true" || t == "false" then Ok(Parsed(Keyword(ts[pos]), pos + 1))
    else Err(Unexpected(t))
  }

  /** The argument list of a call, up to but not including its ')': empty when ')' comes
      first, otherwise expressions separated by ','. */
  function CallArgs(ts: seq<Token>, pos: nat): (r: Result<Parsed<seq<Expr>>, ParseError>)
    requires pos <= |ts|
    ensures r.Ok? ==> pos <= r.value.next <= |ts| && Clean(ts, pos, r.value.next)
    decreases |ts| - pos, 11
  {
    if TagAhead(ts, pos, 0) == ")" then Ok(Parsed([], pos))
    else
      match ExprAt(ts, pos)
      case Err(e) => Err(e)
      case Ok(first) => ArgsLoop(ts, first.next, [first.node])
  }

  /** The loop over ", expr" that follows the first argument. */
  function ArgsLoop(ts: seq<Token>, pos: nat, acc: seq<Expr>): (r: Result<Parsed<seq<Expr>>, ParseError>)
    requires pos <= |ts|
    ensures r.Ok? ==> pos <= r.value.next <= |ts| && Clean(ts, pos, r.value.next)
    decreases |ts| - pos, 0
  {
    if TagAhead(ts, pos, 0) != "," then Ok(Parsed(acc, pos))
    else
      match ExprAt(ts, pos + 1)
      case Err(e) => Err(e)
      case Ok(arg) => ArgsLoop(ts, arg.next, acc + [arg.node])
  }
}
