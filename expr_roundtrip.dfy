/** Parsing a printed expression gives the expression back: the precedence levels, the
    left folding of the binary levels, the right nesting of '^', prefix operators, calls
    and parentheses of work2.py:337-441 read exactly what ExprPrinter writes. */
module ExprRoundTrip {
  import opened Wrappers
  import opened Tokens
  import opened TokenStream
  import opened Ast
  import opened ExprGrammar
  import opened ExprPrinter
  import opened PrintLayout

  // One-step unfoldings of the expression productions.

  lemma {:induction false} LevelFirst(ts: seq<Token>, pos: nat, k: nat, x: Expr, q: nat)
    requires pos <= |ts| && k < 6 && LevelAt(ts, pos, k + 1) == Ok(Parsed(x, q))
    ensures q <= |ts| && LevelAt(ts, pos, k) == LevelLoop(ts, k, x, q)
  {
  }

  lemma {:induction false} LoopStops(ts: seq<Token>, k: nat, x: Expr, pos: nat)
    requires pos <= |ts| && k < 6 && TagAhead(ts, pos, 0) !in LevelOps(k)
    ensures LevelLoop(ts, k, x, pos) == Ok(Parsed(x, pos))
  {
  }

  lemma {:induction false} LoopFolds(ts: seq<Token>, k: nat, left: Expr, pos: nat, right: Expr, q: nat)
    requires pos < |ts| && k < 6 && ts[pos].tag in LevelOps(k)
    requires LevelAt(ts, pos + 1, k + 1) == Ok(Parsed(right, q))
    ensures q <= |ts|
    ensures LevelLoop(ts, k, left, pos) == LevelLoop(ts, k, Binary(Head(k, ts[pos]), left, right), q)
  {
  }

  lemma {:induction false} UnaryPrefix(ts: seq<Token>, pos: nat, x: Expr, q: nat)
    requires pos < |ts| && ts[pos].tag in UnaryOps && UnaryAt(ts, pos + 1) == Ok(Parsed(x, q))
    ensures UnaryAt(ts, pos) == Ok(Parsed(Unary(ts[pos], x), q))
  {
  }

  lemma {:induction false} UnaryToPow(ts: seq<Token>, pos: nat)
    requires pos <= |ts| && TagAhead(ts, pos, 0) !in UnaryOps
    ensures UnaryAt(ts, pos) == PowAt(ts, pos)
  {
  }

  lemma {:induction false} PowPlain(ts: seq<Token>, pos: nat, x: Expr, q: nat)
    requires pos <= |ts| && AtomAt(ts, pos) == Ok(Parsed(x, q)) && TagAhead(ts, q, 0) != "^"
    ensures PowAt(ts, pos) == Ok(Parsed(x, q))
  {
  }

  lemma {:induction false} PowCaret(ts: seq<Token>, pos: nat, l: Expr, q: nat, r: Expr, z: nat)
    requires pos <= |ts| && AtomAt(ts, pos) == Ok(Parsed(l, q)) && TagAhead(ts, q, 0) == "^"
    requires q + 1 <= |ts| && PowAt(ts, q + 1) == Ok(Parsed(r, z))
    ensures PowAt(ts, pos) == Ok(Parsed(Binary(Token("^", None), l, r), z))
  {
  }

  lemma {:induction false} ArgsLoopStops(ts: seq<Token>, pos: nat, acc: seq<Expr>)
    requires pos <= |ts| && TagAhead(ts, pos, 0) != ","
    ensures ArgsLoop(ts, pos, acc) == Ok(Parsed(acc, pos))
  {
  }

  lemma {:induction false} ArgsLoopStep(ts: seq<Token>, pos: nat, acc: seq<Expr>, a: Expr, q: nat)
    requires pos < |ts| && ts[pos].tag == "," && ExprAt(ts, pos + 1) == Ok(Parsed(a, q))
    ensures q <= |ts| && ArgsLoop(ts, pos, acc) == ArgsLoop(ts, q, acc + [a])
  {
  }

  lemma {:induction false} ArgsNone(ts: seq<Token>, pos: nat)
    requires pos <= |ts| && TagAhead(ts, pos, 0) == ")"
    ensures CallArgs(ts, pos) == Ok(Parsed([], pos))
  {
  }

  lemma {:induction false} ArgsFirst(ts: seq<Token>, pos: nat, a: Expr, q: nat)
    requires pos < |ts| && ts[pos].tag != ")" && ExprAt(ts, pos) == Ok(Parsed(a, q))
    ensures q <= |ts| && CallArgs(ts, pos) == ArgsLoop(ts, q, [a])
  {
  }

  lemma {:induction false} AtomParen(ts: seq<Token>, pos: nat, e: Expr, q: nat)
    requires pos < |ts| && ts[pos].tag == "(" && ExprAt(ts, pos + 1) == Ok(Parsed(e, q))
    requires q < |ts| && ts[q].tag == ")"
    ensures AtomAt(ts, pos) == Ok(Parsed(e, q + 1))
  {
  }

  lemma {:induction false} AtomCall(ts: seq<Token>, pos: nat, c: Value, args: seq<Expr>, q: nat)
    requires pos + 1 < |ts| && ts[pos] == Token("id", Some(c)) && ts[pos + 1].tag == "("
    requires CallArgs(ts, pos + 2) == Ok(Parsed(args, q)) && q < |ts| && ts[q].tag == ")"
    ensures AtomAt(ts, pos) == Ok(Parsed(Call(c, args), q + 1))
  {
  }

  // Reading a printed expression back, level by level.

  /** What an expression printed at the top level reads as when followed by a tag that is
      not an operator. */
  lemma {:induction false} ExprReads(e: Expr, ts: seq<Token>, pos: nat)
    requires WellFormed(e)
    requires At(ts, pos, Unparse(e, 0))
    requires BinLevel(TagAhead(ts, pos + |Unparse(e, 0)|, 0)) == 8
    ensures ExprAt(ts, pos) == Ok(Parsed(e, pos + |Unparse(e, 0)|))
    decreases e, 0, 9, 0
  {
    LevelReads(e, 0, ts, pos);
    LevelOpsLevel(TagAhead(ts, pos + |Unparse(e, 0)|, 0), 0);
    LoopStops(ts, 0, e, pos + |Unparse(e, 0)|);
  }

  /** Level k (0 to 5) reads the printed expression and hands it to its operator loop. */
  lemma {:induction false} LevelReads(e: Expr, k: nat, ts: seq<Token>, pos: nat)
    requires WellFormed(e) && k < 6
    requires At(ts, pos, Unparse(e, k))
    requires FollowOk(TagAhead(ts, pos + |Unparse(e, k)|, 0), k)
    ensures LevelAt(ts, pos, k) == LevelLoop(ts, k, e, pos + |Unparse(e, k)|)
    decreases e, if Prec(e) < k then 1 else 0, 8 - k, 1
  {
    if Prec(e) == k {
      LevelReadsBinary(e, k, ts, pos);
    } else {
      LevelReadsHigher(e, k, ts, pos);
    }
  }

  /** The level's own operator: the left operand is read at the same level, the right one
      a level up, and the loop folds them. */
  lemma {:induction false} LevelReadsBinary(e: Expr, k: nat, ts: seq<Token>, pos: nat)
    requires WellFormed(e) && k < 6 && Prec(e) == k
    requires At(ts, pos, Unparse(e, k))
    requires FollowOk(TagAhead(ts, pos + |Unparse(e, k)|, 0), k)
    ensures LevelAt(ts, pos, k) == LevelLoop(ts, k, e, pos + |Unparse(e, k)|)
    decreases e, 0, 8 - k, 0
  {
    BinaryLayout(e, k, ts, pos);
    var mid := pos + |Unparse(e.left, k)|;
    var end := pos + |Unparse(e, k)|;
    LevelReads(e.left, k, ts, pos);
    RightOperandReads(e.right, k, ts, mid + 1, end);
    LoopFolds(ts, k, e.left, mid, e.right, end);
  }

  /** A right operand printed one level above k is read whole by level k + 1. */
  lemma {:induction false} RightOperandReads(r: Expr, k: nat, ts: seq<Token>, pos: nat, end: nat)
    requires WellFormed(r) && k < 6
    requires At(ts, pos, Unparse(r, k + 1)) && end == pos + |Unparse(r, k + 1)|
    requires FollowOk(TagAhead(ts, end, 0), k)
    ensures LevelAt(ts, pos, k + 1) == Ok(Parsed(r, end))
    decreases r, if Prec(r) < k + 1 then 1 else 0, 7 - k, 2
  {
    if k + 1 < 6 {
      LevelReads(r, k + 1, ts, pos);
      LevelOpsLevel(TagAhead(ts, end, 0), k + 1);
      LoopStops(ts, k + 1, r, end);
    } else {
      UnaryReads(r, ts, pos);
    }
  }

  /** An expression of a higher level, or in parentheses, is read by the next level up and
      handed to this level's loop. */
  lemma {:induction false} LevelReadsHigher(e: Expr, k: nat, ts: seq<Token>, pos: nat)
    requires WellFormed(e) && k < 6 && Prec(e) != k
    requires At(ts, pos, Unparse(e, k))
    requires FollowOk(TagAhead(ts, pos + |Unparse(e, k)|, 0), k)
    ensures LevelAt(ts, pos, k) == LevelLoop(ts, k, e, pos + |Unparse(e, k)|)
    decreases e, if Prec(e) < k then 1 else 0, 8 - k, 0
  {
    var end := pos + |Unparse(e, k)|;
    UnparseUp(e, k);
    RightOperandReads(e, k, ts, pos, end);
    LevelFirst(ts, pos, k, e, end);
  }

  /** unary() reads the printed expression. */
  lemma {:induction false} UnaryReads(e: Expr, ts: seq<Token>, pos: nat)
    requires WellFormed(e)
    requires At(ts, pos, Unparse(e, 6))
    requires FollowOk(TagAhead(ts, pos + |Unparse(e, 6)|, 0), 6)
    ensures UnaryAt(ts, pos) == Ok(Parsed(e, pos + |Unparse(e, 6)|))
    ensures LevelAt(ts, pos, 6) == Ok(Parsed(e, pos + |Unparse(e, 6)|))
    decreases e, if Prec(e) < 6 then 1 else 0, 2, 1
  {
    if Prec(e) == 6 {
      UnaryReadsPrefix(e, ts, pos);
    } else {
      UnparseUp(e, 6);
      StartLayout(e, 7, ts, pos);
      UnaryToPow(ts, pos);
      PowReads(e, ts, pos);
    }
  }

  /** A prefix operator and its operand, read by unary() again. */
  lemma {:induction false} UnaryReadsPrefix(e: Expr, ts: seq<Token>, pos: nat)
    requires WellFormed(e) && Prec(e) == 6
    requires At(ts, pos, Unparse(e, 6))
    requires FollowOk(TagAhead(ts, pos + |Unparse(e, 6)|, 0), 6)
    ensures UnaryAt(ts, pos) == Ok(Parsed(e, pos + |Unparse(e, 6)|))
    decreases e, 0, 2, 0
  {
    UnaryLayout(e, ts, pos);
    UnaryReads(e.operand, ts, pos + 1);
    UnaryPrefix(ts, pos, e.operand, pos + |Unparse(e, 6)|);
  }

  /** pow() reads the printed expression. */
  lemma {:induction false} PowReads(e: Expr, ts: seq<Token>, pos: nat)
    requires WellFormed(e)
    requires At(ts, pos, Unparse(e, 7))
    requires FollowOk(TagAhead(ts, pos + |Unparse(e, 7)|, 0), 7)
    ensures PowAt(ts, pos) == Ok(Parsed(e, pos + |Unparse(e, 7)|))
    decreases e, if Prec(e) < 7 then 1 else 0, 1, 1
  {
    if Prec(e) == 7 {
      PowReadsCaret(e, ts, pos);
    } else {
      UnparseUp(e, 7);
      AtomReads(e, ts, pos);
      PowPlain(ts, pos, e, pos + |Unparse(e, 7)|);
    }
  }

  /** A printed '^': an atom, the '^' and the right operand read by pow() again. */
  lemma {:induction false} PowReadsCaret(e: Expr, ts: seq<Token>, pos: nat)
    requires WellFormed(e) && Prec(e) == 7
    requires At(ts, pos, Unparse(e, 7))
    requires FollowOk(TagAhead(ts, pos + |Unparse(e, 7)|, 0), 7)
    ensures PowAt(ts, pos) == Ok(Parsed(e, pos + |Unparse(e, 7)|))
    decreases e, 0, 1, 0
  {
    CaretLayout(e, ts, pos);
    var mid := pos + |Unparse(e.left, 8)|;
    var end := pos + |Unparse(e, 7)|;
    assert mid + 1 + |Unparse(e.right, 7)| == end;
    assert FollowOk(TagAhead(ts, mid + 1 + |Unparse(e.right, 7)|, 0), 7);
    AtomReads(e.left, ts, pos);
    PowReads(e.right, ts, mid + 1);
    PowCaret(ts, pos, e.left, mid, e.right, end);
  }

  /** atom() reads the printed expression, whatever follows it. */
  lemma {:induction false} AtomReads(e: Expr, ts: seq<Token>, pos: nat)
    requires WellFormed(e)
    requires At(ts, pos, Unparse(e, 8))
    ensures AtomAt(ts, pos) == Ok(Parsed(e, pos + |Unparse(e, 8)|))
    decreases e, if Prec(e) < 8 then 1 else 0, 0, 1
  {
    if Prec(e) < 8 {
      ParenReads(e, ts, pos);
    } else {
      assert Unparse(e, 8) == UnparseRaw(e);
      if e.Call? {
        CallReads(e, ts, pos);
      } else {
        LeafReads(e, ts, pos);
      }
    }
  }

  /** An expression of a lower level is printed in parentheses and read by expr(). */
  lemma {:induction false} ParenReads(e: Expr, ts: seq<Token>, pos: nat)
    requires WellFormed(e) && Prec(e) < 8
    requires At(ts, pos, Unparse(e, 8))
    ensures AtomAt(ts, pos) == Ok(Parsed(e, pos + |Unparse(e, 8)|))
    decreases e, 1, 0, 0
  {
    ParenLayout(e, ts, pos);
    var q := pos + 1 + |Unparse(e, 0)|;
    ExprReads(e, ts, pos + 1);
    AtomParen(ts, pos, e, q);
  }

  /** A literal, a name or a keyword is one token, and a factorial literal two. */
  lemma {:induction false} LeafReads(e: Expr, ts: seq<Token>, pos: nat)
    requires WellFormed(e) && (e.Atom? || e.Keyword? || e.BangLiteral?)
    requires At(ts, pos, UnparseRaw(e))
    ensures AtomAt(ts, pos) == Ok(Parsed(e, pos + |UnparseRaw(e)|))
  {
    if e.Atom? {
      AtHead(ts, pos, Token("str", Some(e.v)), []);
    } else if e.Keyword? {
      AtHead(ts, pos, e.tok, []);
    } else {
      assert UnparseRaw(e) == [Token("num", Some(e.v))] + [Token("!", None)];
      AtHead(ts, pos, Token("num", Some(e.v)), [Token("!", None)]);
      AtHead(ts, pos + 1, Token("!", None), []);
    }
  }

  /** atom() reads a printed call: the callee, '(', the arguments and ')'. */
  lemma {:induction false} CallReads(e: Expr, ts: seq<Token>, pos: nat)
    requires WellFormed(e) && e.Call?
    requires At(ts, pos, UnparseRaw(e))
    ensures AtomAt(ts, pos) == Ok(Parsed(e, pos + |UnparseRaw(e)|))
    decreases e, 0, 0, 0
  {
    CallLayout(e, ts, pos);
    var q := pos + 2 + |UnparseArgs(e.args, 0)|;
    ArgsReads(e.args, ts, pos + 2);
    AtomCall(ts, pos, e.callee, e.args, q);
  }

  /** The argument list of a printed call is read back, up to its ')'. */
  lemma {:induction false} ArgsReads(args: seq<Expr>, ts: seq<Token>, pos: nat)
    requires forall i :: 0 <= i < |args| ==> WellFormed(args[i])
    requires At(ts, pos, UnparseArgs(args, 0))
    requires TagAhead(ts, pos + |UnparseArgs(args, 0)|, 0) == ")"
    ensures CallArgs(ts, pos) == Ok(Parsed(args, pos + |UnparseArgs(args, 0)|))
    decreases args, |args| + 1
  {
    if args != [] {
      ArgsFirstLayout(args, ts, pos);
      var q := pos + |Unparse(args[0], 0)|;
      ExprReads(args[0], ts, pos);
      ArgsFirst(ts, pos, args[0], q);
      assert args[..1] == [args[0]];
      ArgsLoopReads(args, 1, ts, q);
    } else {
      ArgsNone(ts, pos);
    }
  }

  lemma {:induction false} ArgsLoopReads(args: seq<Expr>, i: nat, ts: seq<Token>, pos: nat)
    requires 1 <= i <= |args|
    requires forall j :: 0 <= j < |args| ==> WellFormed(args[j])
    requires At(ts, pos, UnparseArgs(args, i))
    requires TagAhead(ts, pos + |UnparseArgs(args, i)|, 0) == ")"
    ensures ArgsLoop(ts, pos, args[..i]) == Ok(Parsed(args, pos + |UnparseArgs(args, i)|))
    decreases args, |args| - i, 1
  {
    if i == |args| {
      assert args[..i] == args;
      assert UnparseArgs(args, i) == [];
      ArgsLoopStops(ts, pos, args[..i]);
    } else {
      ArgsLoopReadsNext(args, i, ts, pos);
    }
  }

  /** One more argument: ',' and an expression, then the rest of the loop. */
  lemma {:induction false} ArgsLoopReadsNext(args: seq<Expr>, i: nat, ts: seq<Token>, pos: nat)
    requires 1 <= i < |args|
    requires forall j :: 0 <= j < |args| ==> WellFormed(args[j])
    requires At(ts, pos, UnparseArgs(args, i))
    requires TagAhead(ts, pos + |UnparseArgs(args, i)|, 0) == ")"
    ensures ArgsLoop(ts, pos, args[..i]) == Ok(Parsed(args, pos + |UnparseArgs(args, i)|))
    decreases args, |args| - i, 0
  {
    ArgsNextLayout(args, i, ts, pos);
    var q := pos + 1 + |Unparse(args[i], 0)|;
    ExprReads(args[i], ts, pos + 1);
    ArgsLoopStep(ts, pos, args[..i], args[i], q);
    assert args[..i] + [args[i]] == args[..i + 1];
    ArgsLoopReads(args, i + 1, ts, q);
  }

  /** The round trip: a well-formed expression printed and followed by anything that is
      not an operator (the end of the list included) parses back to itself, and the
      parse stops right after the printed tokens. */
  lemma {:induction false} ExprRoundTrip(e: Expr, rest: seq<Token>)
    requires WellFormed(e)
    requires rest != [] ==> BinLevel(rest[0].tag) == 8
    ensures ExprAt(Unparse(e, 0) + rest, 0) == Ok(Parsed(e, |Unparse(e, 0)|))
  {
    var ts := Unparse(e, 0) + rest;
    forall k | 0 <= k < |Unparse(e, 0)|
      ensures ts[0 + k] == Unparse(e, 0)[k]
    {
    }
    assert TagAhead(ts, |Unparse(e, 0)|, 0) == (if rest == [] then "eof" else rest[0].tag);
    ExprReads(e, ts, 0);
  }
}
