/** A printer from statement trees back to token lists. It is the partner against which
    the statement productions of work2.py:201-335 are checked: parsing what it prints,
    under the function-name list the statements before it leave, gives back the tree. */
module StmtPrinter {
  import opened Wrappers
  import opened Tokens
  import opened Ast
  import opened ExprPrinter
  import opened GrammarProps

  /** A token without payload: a keyword or a punctuator. */
  function Mark(tag: string): Token
  {
    Token(tag, None)
  }

  /** The identifier token that spells the name v. */
  function Name(v: Value): Token
  {
    Token("id", Some(v))
  }

  /** A ',' after every print argument but the last. */
  function Commas(n: nat): (seps: seq<bool>)
    ensures |seps| == n
  {
    seq(n, i => i + 1 < n)
  }

  /** The print arguments from index i on; a ',' follows args[j] exactly when seps[j]. */
  function UnparsePrintArgs(args: seq<Expr>, seps: seq<bool>, i: nat): seq<Token>
    requires |seps| == |args|
    decreases |args| - i
  {
    if i >= |args| then []
    else Unparse(args[i], 0) + (if seps[i] then [Comma] else []) + UnparsePrintArgs(args, seps, i + 1)
  }

  /** The entries of a var statement from index i on: each name, and '=' and its
      initializer when it has one. */
  function UnparseEntries(es: seq<VarEntry>, i: nat): seq<Token>
    decreases |es| - i
  {
    if i >= |es| then []
    else
      [Name(es[i].name)]
      + (if es[i].init.Some? then [Mark("=")] + Unparse(es[i].init.value, 0) else [])
      + UnparseEntries(es, i + 1)
  }

  /** The parameter names from index i on, separated by ','. */
  function UnparseParams(ps: seq<Value>, i: nat): seq<Token>
    decreases |ps| - i
  {
    if i >= |ps| then []
    else (if i == 0 then [] else [Comma]) + [Name(ps[i])] + UnparseParams(ps, i + 1)
  }

  /** s printed as the source's grammar spells it. */
  function UnparseStmt(s: Stmt): (ts: seq<Token>)
    ensures |ts| > 0
    decreases s, 1
  {
    match s
    case Return(r) =>
      if r.None? then [Mark("return"), Mark(";")]
      else [Mark("return")] + Unparse(r.value, 0) + [Mark(";")]
    case FunDef(name, ps, body) =>
      [Mark("fun"), Name(name), LParen] + UnparseParams(ps, 0) + [RParen] + UnparseStmt(body)
    case If(c, th, _, el) =>
      [Mark("if")] + Unparse(c, 0) + UnparseStmt(th)
      + (if el.Some? then [Mark("else")] + UnparseStmt(el.value) else [])
    case While(c, body) => [Mark("while")] + Unparse(c, 0) + UnparseStmt(body)
    case Print(args) =>
      [Mark("print"), LParen] + UnparsePrintArgs(args, Commas(|args|), 0) + [RParen, Mark(";")]
    case Var(es) => [Mark("var")] + UnparseEntries(es, 0) + [Mark(";")]
    case Assign(t, v) => [Name(t), Mark("=")] + Unparse(v, 0) + [Mark(";")]
    case FuncUse(e) => Unparse(e, 0) + [Mark(";")]
    case Block(ss) => [Mark("{")] + UnparseItems(ss, 0) + [Mark("}")]
  }

  /** The statements of a block or a program from index i on. */
  function UnparseItems(ss: seq<Stmt>, i: nat): seq<Token>
    decreases ss, |ss| - i
  {
    if i >= |ss| then [] else UnparseStmt(ss[i]) + UnparseItems(ss, i + 1)
  }

  /** An if without else, possibly at the end of a chain of else branches and while
      bodies: an 'else' printed right after it would be taken as its own. */
  predicate EndsOpen(s: Stmt)
  {
    match s
    case If(_, _, _, el) => el.None? || EndsOpen(el.value)
    case While(_, body) => EndsOpen(body)
    case _ => false
  }

  /** A ',' may be left out only before an argument whose first token is no operator. */
  predicate SepsOk(args: seq<Expr>, seps: seq<bool>)
    requires |seps| == |args|
  {
    forall i :: 0 <= i < |args| - 1 && !seps[i] ==> BinLevel(Unparse(args[i + 1], 0)[0].tag) == 8
  }

  /** A function use is an expression that starts with the name of a known function. */
  predicate StartsWithFunction(e: Expr, fl: seq<Value>)
  {
    var t := Unparse(e, 0)[0];
    t.tag == "id" && t.val.Some? && t.val.value in fl
  }

  /** The statements that read back under the function-name list fl: their expressions are
      well formed, an assignment's target is no known function and a function use starts
      with one, an if keeps its 'else' marker and an else branch never follows an open if,
      a definition's body is a block, and the statements of a block are no blocks and are
      each read under the names the statements before them register. */
  predicate Shaped(s: Stmt, fl: seq<Value>)
    decreases s, 1
  {
    match s
    case Return(r) => r.Some? ==> WellFormed(r.value)
    case FunDef(name, _, body) => body.Block? && Shaped(body, fl + [name])
    case If(c, th, m, el) =>
      m == "else" && WellFormed(c) && Shaped(th, fl)
      && (el.Some? ==> !EndsOpen(th) && Shaped(el.value, fl + Registered(th)))
    case While(c, body) => WellFormed(c) && Shaped(body, fl)
    case Print(args) => forall i :: 0 <= i < |args| ==> WellFormed(args[i])
    case Var(es) => forall i :: 0 <= i < |es| && es[i].init.Some? ==> WellFormed(es[i].init.value)
    case Assign(t, v) => t !in fl && WellFormed(v)
    case FuncUse(e) => WellFormed(e) && StartsWithFunction(e, fl)
    case Block(ss) => ItemsShaped(ss, fl)
  }

  predicate ItemsShaped(ss: seq<Stmt>, fl: seq<Value>)
    decreases ss, 0
  {
    forall i :: 0 <= i < |ss| ==> !ss[i].Block? && Shaped(ss[i], fl + RegisteredAll(ss[..i]))
  }
}
