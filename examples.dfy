/** Concrete parses that show the shapes the expression productions of work2.py:339-441
    build: left folding, the right nesting of '^', precedence, and the two '!' forms. */
module Examples {
  import opened Wrappers
  import opened Tokens
  import opened TokenStream
  import opened Ast
  import opened ExprGrammar

  function Id(s: string): Token { Token("id", Some(Text(s))) }
  function Op(tag: string): Token { Token(tag, None) }
  function NumTok(n: int): Token { Token("num", Some(Num(Int(n)))) }
  function N(n: int): Expr { Atom(Num(Int(n))) }

  /** What level k + 1 reads is also what the levels from j to k read when none of them
      takes the tag that follows. */
  lemma {:induction false} LiftTo(ts: seq<Token>, pos: nat, x: Expr, q: nat, j: nat, k: nat)
    requires pos <= |ts| && j <= k < 6 && LevelAt(ts, pos, k + 1) == Ok(Parsed(x, q))
    requires forall i :: j <= i <= k ==> TagAhead(ts, q, 0) !in LevelOps(i)
    ensures LevelAt(ts, pos, j) == Ok(Parsed(x, q))
    decreases k - j
  {
    assert TagAhead(ts, q, 0) !in LevelOps(k);
    if j < k {
      LiftTo(ts, pos, x, q, j, k - 1);
    }
  }

  /** A lone operand at pos that no '^' follows is read whole by the unary level. */
  lemma {:induction false} OperandAt(ts: seq<Token>, pos: nat, x: Expr)
    requires pos < |ts| && ts[pos].tag !in UnaryOps
    requires AtomAt(ts, pos) == Ok(Parsed(x, pos + 1)) && TagAhead(ts, pos + 1, 0) != "^"
    ensures LevelAt(ts, pos, 6) == Ok(Parsed(x, pos + 1))
  {
    assert UnaryAt(ts, pos) == PowAt(ts, pos);
  }

  /** a - b - c folds to the left. */
  lemma MinusFoldsLeft()
    ensures ExprAt([Id("a"), Op("-"), Id("b"), Op("-"), Id("c"), Eof], 0)
            == Ok(Parsed(Binary(Op("-"), Binary(Op("-"), Atom(Text("a")), Atom(Text("b"))), Atom(Text("c"))), 5))
  {
    var ts := [Id("a"), Op("-"), Id("b"), Op("-"), Id("c"), Eof];
    var a, b, c := Atom(Text("a")), Atom(Text("b")), Atom(Text("c"));
    var ab := Binary(Op("-"), a, b);
    OperandAt(ts, 0, a);
    LiftTo(ts, 0, a, 1, 5, 5);
    OperandAt(ts, 2, b);
    LiftTo(ts, 2, b, 3, 5, 5);
    OperandAt(ts, 4, c);
    LiftTo(ts, 4, c, 5, 5, 5);
    assert LevelAt(ts, 0, 4) == LevelLoop(ts, 4, a, 1);
    assert LevelLoop(ts, 4, a, 1) == LevelLoop(ts, 4, ab, 3);
    assert LevelLoop(ts, 4, ab, 3) == LevelLoop(ts, 4, Binary(Op("-"), ab, c), 5);
    LiftTo(ts, 0, Binary(Op("-"), ab, c), 5, 0, 3);
  }

  /** 1 ^ 2 ^ 3 nests to the right. */
  lemma CaretNestsRight()
    ensures ExprAt([NumTok(1), Op("^"), NumTok(2), Op("^"), NumTok(3), Eof], 0)
            == Ok(Parsed(Binary(Op("^"), N(1), Binary(Op("^"), N(2), N(3))), 5))
  {
    var ts := [NumTok(1), Op("^"), NumTok(2), Op("^"), NumTok(3), Eof];
    var e := Binary(Op("^"), N(1), Binary(Op("^"), N(2), N(3)));
    assert PowAt(ts, 4) == Ok(Parsed(N(3), 5));
    assert PowAt(ts, 2) == Ok(Parsed(Binary(Op("^"), N(2), N(3)), 5));
    assert PowAt(ts, 0) == Ok(Parsed(e, 5));
    assert LevelAt(ts, 0, 6) == UnaryAt(ts, 0) == PowAt(ts, 0);
    LiftTo(ts, 0, e, 5, 0, 5);
  }

  /** In a + b * c the product is the right operand of the sum. */
  lemma TimesBindsTighter()
    ensures ExprAt([Id("a"), Op("+"), Id("b"), Op("*"), Id("c"), Eof], 0)
            == Ok(Parsed(Binary(Op("+"), Atom(Text("a")), Binary(Op("*"), Atom(Text("b")), Atom(Text("c")))), 5))
  {
    var ts := [Id("a"), Op("+"), Id("b"), Op("*"), Id("c"), Eof];
    var a, b, c := Atom(Text("a")), Atom(Text("b")), Atom(Text("c"));
    var bc := Binary(Op("*"), b, c);
    OperandAt(ts, 0, a);
    LiftTo(ts, 0, a, 1, 5, 5);
    OperandAt(ts, 2, b);
    OperandAt(ts, 4, c);
    assert LevelAt(ts, 2, 5) == LevelLoop(ts, 5, b, 3);
    assert LevelLoop(ts, 5, b, 3) == LevelLoop(ts, 5, bc, 5);
    assert LevelAt(ts, 0, 4) == LevelLoop(ts, 4, a, 1);
    assert LevelLoop(ts, 4, a, 1) == LevelLoop(ts, 4, Binary(Op("+"), a, bc), 5);
    LiftTo(ts, 0, Binary(Op("+"), a, bc), 5, 0, 3);
  }

  /** A '!' right after a number literal is the factorial literal: 2 * 10! multiplies 2 by
      it. */
  lemma BangAfterNumber()
    ensures ExprAt([NumTok(2), Op("*"), NumTok(10), Op("!"), Eof], 0)
            == Ok(Parsed(Binary(Op("*"), N(2), BangLiteral(Num(Int(10)))), 4))
  {
    var ts := [NumTok(2), Op("*"), NumTok(10), Op("!"), Eof];
    var e := Binary(Op("*"), N(2), BangLiteral(Num(Int(10))));
    OperandAt(ts, 0, N(2));
    assert AtomAt(ts, 2) == Ok(Parsed(BangLiteral(Num(Int(10))), 4));
    assert LevelAt(ts, 2, 6) == UnaryAt(ts, 2) == PowAt(ts, 2);
    assert LevelAt(ts, 0, 5) == LevelLoop(ts, 5, N(2), 1);
    assert LevelLoop(ts, 5, N(2), 1) == LevelLoop(ts, 5, e, 4);
    LiftTo(ts, 0, e, 4, 0, 4);
  }

  /** A prefix '!' builds the same unary node as a prefix '-', headed by the matched token,
      never a factorial node. */
  lemma PrefixBangIsUnary()
    ensures ExprAt([Op("!"), Id("x"), Eof], 0) == Ok(Parsed(Unary(Op("!"), Atom(Text("x"))), 2))
  {
    var ts := [Op("!"), Id("x"), Eof];
    OperandAt(ts, 1, Atom(Text("x")));
    assert UnaryAt(ts, 1) == Ok(Parsed(Atom(Text("x")), 2));
    assert LevelAt(ts, 0, 6) == UnaryAt(ts, 0) == Ok(Parsed(Unary(Op("!"), Atom(Text("x"))), 2));
    LiftTo(ts, 0, Unary(Op("!"), Atom(Text("x"))), 2, 0, 5);
  }
}
