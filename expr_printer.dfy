/** A printer from expression trees back to token lists, parenthesizing only where the
    precedence chain of work2.py:337-441 needs it. It is the partner against which the
    expression productions are checked: parsing what it prints gives back the tree. */
module ExprPrinter {
  import opened Wrappers
  import opened Tokens
  import opened Ast
  import opened ExprGrammar

  /** The binary level whose loop matches tag (0 to 5), 7 for '^' and 8 for any other tag. */
  function BinLevel(tag: string): (k: nat)
    ensures k <= 8 && k != 6
  {
    if tag == "or" then 0
    else if tag == "and" then 1
    else if tag == "==" || tag == "!=" then 2
    else if tag == ">" || tag == ">=" || tag == "<" || tag == "<=" then 3
    else if tag == "+" || tag == "-" then 4
    else if tag == "*" || tag == "/" then 5
    else if tag == "^" then 7
    else 8
  }

  /** The level that builds e: 0 to 5 for the binary levels, 6 for unary, 7 for '^' and
      8 for atoms. */
  function Prec(e: Expr): nat
  {
    match e
    case Binary(op, _, _) => if BinLevel(op.tag) < 6 then BinLevel(op.tag) else 7
    case Unary(_, _) => 6
    case _ => 8
  }

  /** The trees the parser can build: binary heads carry a binary operator tag, or and and
      heads carry no payload, '^' heads are the bare '^', unary heads are '-' or '!', and
      keywords are true or false. */
  predicate WellFormed(e: Expr)
  {
    match e
    case Binary(op, l, r) =>
      (if BinLevel(op.tag) < 6 then BinLevel(op.tag) <= 1 ==> op.val.None?
       else op == Token("^", None))
      && BinLevel(op.tag) != 8 && WellFormed(l) && WellFormed(r)
    case Unary(op, x) => op.tag in UnaryOps && WellFormed(x)
    case Keyword(t) => t.tag == "true" || t.tag == "false"
    case Call(_, args) => forall i :: 0 <= i < |args| ==> WellFormed(args[i])
    case _ => true
  }

  const LParen := Token("(", None)
  const RParen := Token(")", None)
  const Comma := Token(",", None)

  /** e printed to be read at level k: in parentheses when e is built by a lower level. */
  function Unparse(e: Expr, k: nat): (ts: seq<Token>)
    ensures |ts| > 0
    decreases e, if Prec(e) < k then 2 else 1
  {
    if Prec(e) < k then [LParen] + Unparse(e, 0) + [RParen] else UnparseRaw(e)
  }

  /** e printed by its own level. A left operand is read at the operator's level and a
      right operand one level up, except for '^', whose left operand is an atom and whose
      right operand is read at the '^' level again. An atom that is a bare payload prints
      as a string token. */
  function UnparseRaw(e: Expr): (ts: seq<Token>)
    ensures |ts| > 0
    decreases e, 0
  {
    match e
    case Atom(v) => [Token("str", Some(v))]
    case Keyword(t) => [t]
    case BangLiteral(v) => [Token("num", Some(v)), Token("!", None)]
    case Call(c, args) => [Token("id", Some(c)), LParen] + UnparseArgs(args, 0) + [RParen]
    case Unary(op, x) => [op] + Unparse(x, 6)
    case Binary(op, l, r) =>
      if BinLevel(op.tag) < 6 then Unparse(l, BinLevel(op.tag)) + [op] + Unparse(r, BinLevel(op.tag) + 1)
      else Unparse(l, 8) + [op] + Unparse(r, 7)
  }

  /** The arguments from index i on, separated by commas. */
  function UnparseArgs(args: seq<Expr>, i: nat): seq<Token>
    decreases args, |args| - i
  {
    if i >= |args| then []
    else (if i == 0 then [] else [Comma]) + Unparse(args[i], 0) + UnparseArgs(args, i + 1)
  }
}
