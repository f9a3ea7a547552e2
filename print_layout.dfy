/** Where the pieces of a printed expression sit in a token list: the facts about the
    printer's layout that reading it back needs, apart from the grammar. */
module PrintLayout {
  import opened Wrappers
  import opened Tokens
  import opened TokenStream
  import opened Ast
  import opened ExprGrammar
  import opened ExprPrinter

  /** The tokens from pos on start with p. */
  predicate At(ts: seq<Token>, pos: nat, p: seq<Token>)
  {
    pos + |p| <= |ts| && forall k :: 0 <= k < |p| ==> ts[pos + k] == p[k]
  }

  /** What may follow an expression read at level k without being taken into it: at an
      atom anything, otherwise no '^' and no operator of a binary level above k. */
  predicate FollowOk(tag: string, k: nat)
  {
    k == 8 || BinLevel(tag) == 8 || (BinLevel(tag) <= k && BinLevel(tag) < 6)
  }

  lemma {:induction false} AtParts(ts: seq<Token>, pos: nat, a: seq<Token>, b: seq<Token>)
    requires At(ts, pos, a + b)
    ensures At(ts, pos, a) && At(ts, pos + |a|, b)
  {
    forall k | 0 <= k < |a|
      ensures ts[pos + k] == a[k]
    {
      assert ts[pos + k] == (a + b)[k];
    }
    forall k | 0 <= k < |b|
      ensures ts[pos + |a| + k] == b[k]
    {
      assert ts[pos + (|a| + k)] == (a + b)[|a| + k];
    }
  }

  lemma {:induction false} AtHead(ts: seq<Token>, pos: nat, t: Token, b: seq<Token>)
    requires At(ts, pos, [t] + b)
    ensures pos < |ts| && ts[pos] == t && TagAhead(ts, pos, 0) == t.tag && At(ts, pos + 1, b)
  {
    assert ts[pos + 0] == ([t] + b)[0];
    AtParts(ts, pos, [t], b);
  }

  lemma {:induction false} LevelOpsLevel(tag: string, j: nat)
    requires j < 6
    ensures tag in LevelOps(j) <==> BinLevel(tag) == j
  {
  }

  /** A printed expression starts with '(', a literal, an identifier, true or false, or,
      below the '^' level, a prefix operator. */
  lemma {:induction false} UnparseStart(e: Expr, k: nat)
    requires WellFormed(e)
    ensures Unparse(e, k)[0].tag in {"(", "str", "num", "id", "true", "false", "-", "!"}
    ensures k >= 7 ==> Unparse(e, k)[0].tag !in UnaryOps
    decreases e
  {
    if Prec(e) >= k {
      match e
      case Binary(op, l, r) =>
        var j := if BinLevel(op.tag) < 6 then BinLevel(op.tag) else 8;
        var rk := if BinLevel(op.tag) < 6 then BinLevel(op.tag) + 1 else 7;
        assert UnparseRaw(e) == Unparse(l, j) + [op] + Unparse(r, rk);
        UnparseStart(l, j);
      case _ =>
    }
  }

  /** Neither separator of an argument list is an operator. */
  lemma SeparatorLevels()
    ensures BinLevel(",") == 8 && BinLevel(")") == 8
  {
  }

  /** Whatever comes after an argument of a printed call: a ',' or the closing ')'. */
  lemma {:induction false} ArgFollow(ts: seq<Token>, pos: nat, args: seq<Expr>, i: nat)
    requires 1 <= i <= |args|
    requires At(ts, pos, UnparseArgs(args, i))
    requires TagAhead(ts, pos + |UnparseArgs(args, i)|, 0) == ")"
    ensures TagAhead(ts, pos, 0) == (if i < |args| then "," else ")")
    ensures BinLevel(TagAhead(ts, pos, 0)) == 8
  {
    SeparatorLevels();
    if i < |args| {
      ArgsShape(args, i);
      AtHead(ts, pos, Comma, Unparse(args[i], 0) + UnparseArgs(args, i + 1));
    }
  }

  lemma {:induction false} BinaryShape(e: Expr, k: nat)
    requires WellFormed(e) && k < 6 && Prec(e) == k
    ensures e.Binary? && BinLevel(e.op.tag) == k && WellFormed(e.left) && WellFormed(e.right)
    ensures k <= 1 ==> e.op.val.None?
    ensures Unparse(e, k) == Unparse(e.left, k) + [e.op] + Unparse(e.right, k + 1)
  {
    assert Unparse(e, k) == UnparseRaw(e);
  }

  lemma {:induction false} CaretShape(e: Expr)
    requires WellFormed(e) && Prec(e) == 7
    ensures e.Binary? && e.op == Token("^", None) && WellFormed(e.left) && WellFormed(e.right)
    ensures Unparse(e, 7) == Unparse(e.left, 8) + [e.op] + Unparse(e.right, 7)
  {
    assert Unparse(e, 7) == UnparseRaw(e);
  }

  lemma {:induction false} ArgsShape(args: seq<Expr>, i: nat)
    requires i < |args|
    ensures UnparseArgs(args, i)
            == (if i == 0 then [] else [Comma]) + (Unparse(args[i], 0) + UnparseArgs(args, i + 1))
  {
  }

  /** Below its own level a printed expression is the same at the next level up. */
  lemma {:induction false} UnparseUp(e: Expr, k: nat)
    requires Prec(e) != k
    ensures Unparse(e, k) == Unparse(e, k + 1)
  {
  }

  /** The first token of a printed expression is never ')', and from the '^' level up it is
      not a prefix operator. */
  lemma {:induction false} StartLayout(e: Expr, k: nat, ts: seq<Token>, pos: nat)
    requires WellFormed(e) && At(ts, pos, Unparse(e, k))
    ensures pos < |ts| && TagAhead(ts, pos, 0) != ")"
    ensures k >= 7 ==> TagAhead(ts, pos, 0) !in UnaryOps
  {
    var p := Unparse(e, k);
    UnparseStart(e, k);
    assert p == [p[0]] + p[1..];
    AtHead(ts, pos, p[0], p[1..]);
  }

  /** A printed binary operator of level k: its left operand, the operator, and its right
      operand printed one level up. */
  lemma {:induction false} BinaryLayout(e: Expr, k: nat, ts: seq<Token>, pos: nat)
    requires WellFormed(e) && k < 6 && Prec(e) == k && At(ts, pos, Unparse(e, k))
    ensures e.Binary? && WellFormed(e.left) && WellFormed(e.right)
    ensures At(ts, pos, Unparse(e.left, k))
    ensures pos + |Unparse(e.left, k)| < |ts|
    ensures ts[pos + |Unparse(e.left, k)|].tag in LevelOps(k)
    ensures Head(k, ts[pos + |Unparse(e.left, k)|]) == e.op
    ensures FollowOk(TagAhead(ts, pos + |Unparse(e.left, k)|, 0), k)
    ensures At(ts, pos + |Unparse(e.left, k)| + 1, Unparse(e.right, k + 1))
    ensures pos + |Unparse(e.left, k)| + 1 + |Unparse(e.right, k + 1)| == pos + |Unparse(e, k)|
  {
    BinaryShape(e, k);
    var op, a, b := e.op, Unparse(e.left, k), Unparse(e.right, k + 1);
    assert Unparse(e, k) == a + ([op] + b);
    AtParts(ts, pos, a, [op] + b);
    AtHead(ts, pos + |a|, op, b);
    LevelOpsLevel(op.tag, k);
  }

  /** A printed prefix operator followed by its operand. */
  lemma {:induction false} UnaryLayout(e: Expr, ts: seq<Token>, pos: nat)
    requires WellFormed(e) && Prec(e) == 6 && At(ts, pos, Unparse(e, 6))
    ensures e.Unary? && WellFormed(e.operand)
    ensures pos < |ts| && ts[pos] == e.op && ts[pos].tag in UnaryOps
    ensures At(ts, pos + 1, Unparse(e.operand, 6))
    ensures pos + 1 + |Unparse(e.operand, 6)| == pos + |Unparse(e, 6)|
  {
    assert Unparse(e, 6) == [e.op] + Unparse(e.operand, 6);
    AtHead(ts, pos, e.op, Unparse(e.operand, 6));
  }

  /** A printed '^': an atom, the '^' and the right operand printed at the '^' level. */
  lemma {:induction false} CaretLayout(e: Expr, ts: seq<Token>, pos: nat)
    requires WellFormed(e) && Prec(e) == 7 && At(ts, pos, Unparse(e, 7))
    ensures e.Binary? && e.op == Token("^", None) && WellFormed(e.left) && WellFormed(e.right)
    ensures At(ts, pos, Unparse(e.left, 8))
    ensures pos + |Unparse(e.left, 8)| < |ts|
    ensures TagAhead(ts, pos + |Unparse(e.left, 8)|, 0) == "^"
    ensures At(ts, pos + |Unparse(e.left, 8)| + 1, Unparse(e.right, 7))
    ensures pos + |Unparse(e.left, 8)| + 1 + |Unparse(e.right, 7)| == pos + |Unparse(e, 7)|
  {
    CaretShape(e);
    var op, a, b := e.op, Unparse(e.left, 8), Unparse(e.right, 7);
    assert Unparse(e, 7) == a + ([op] + b);
    AtParts(ts, pos, a, [op] + b);
    AtHead(ts, pos + |a|, op, b);
  }

  /** An expression of a lower level printed at the atom level: '(', the expression and ')'. */
  lemma {:induction false} ParenLayout(e: Expr, ts: seq<Token>, pos: nat)
    requires Prec(e) < 8 && At(ts, pos, Unparse(e, 8))
    ensures pos < |ts| && ts[pos].tag == "("
    ensures At(ts, pos + 1, Unparse(e, 0))
    ensures pos + 1 + |Unparse(e, 0)| < |ts|
    ensures ts[pos + 1 + |Unparse(e, 0)|].tag == ")"
    ensures BinLevel(TagAhead(ts, pos + 1 + |Unparse(e, 0)|, 0)) == 8
    ensures pos + 1 + |Unparse(e, 0)| + 1 == pos + |Unparse(e, 8)|
  {
    var inner := Unparse(e, 0);
    assert Unparse(e, 8) == [LParen] + (inner + [RParen]);
    AtHead(ts, pos, LParen, inner + [RParen]);
    AtParts(ts, pos + 1, inner, [RParen]);
    AtHead(ts, pos + 1 + |inner|, RParen, []);
    SeparatorLevels();
  }

  /** A printed call: the callee, '(', the arguments and ')'. */
  lemma {:induction false} CallLayout(e: Expr, ts: seq<Token>, pos: nat)
    requires e.Call? && At(ts, pos, UnparseRaw(e))
    ensures pos + 1 < |ts| && ts[pos] == Token("id", Some(e.callee)) && ts[pos + 1].tag == "("
    ensures At(ts, pos + 2, UnparseArgs(e.args, 0))
    ensures pos + 2 + |UnparseArgs(e.args, 0)| < |ts|
    ensures ts[pos + 2 + |UnparseArgs(e.args, 0)|].tag == ")"
    ensures pos + 2 + |UnparseArgs(e.args, 0)| + 1 == pos + |UnparseRaw(e)|
  {
    var body := UnparseArgs(e.args, 0);
    assert UnparseRaw(e) == [Token("id", Some(e.callee))] + ([LParen] + (body + [RParen]));
    AtHead(ts, pos, Token("id", Some(e.callee)), [LParen] + (body + [RParen]));
    AtHead(ts, pos + 1, LParen, body + [RParen]);
    AtParts(ts, pos + 2, body, [RParen]);
    AtHead(ts, pos + 2 + |body|, RParen, []);
  }

  /** The first argument of a printed call and what follows it. */
  lemma {:induction false} ArgsFirstLayout(args: seq<Expr>, ts: seq<Token>, pos: nat)
    requires |args| > 0 && WellFormed(args[0])
    requires At(ts, pos, UnparseArgs(args, 0))
    requires TagAhead(ts, pos + |UnparseArgs(args, 0)|, 0) == ")"
    ensures pos < |ts| && ts[pos].tag != ")" && At(ts, pos, Unparse(args[0], 0))
    ensures At(ts, pos + |Unparse(args[0], 0)|, UnparseArgs(args, 1))
    ensures BinLevel(TagAhead(ts, pos + |Unparse(args[0], 0)|, 0)) == 8
    ensures pos + |Unparse(args[0], 0)| + |UnparseArgs(args, 1)| == pos + |UnparseArgs(args, 0)|
  {
    var a, rest := Unparse(args[0], 0), UnparseArgs(args, 1);
    ArgsShape(args, 0);
    assert UnparseArgs(args, 0) == a + rest;
    AtParts(ts, pos, a, rest);
    StartLayout(args[0], 0, ts, pos);
    ArgFollow(ts, pos + |a|, args, 1);
  }

  /** A later argument: ',' and the argument, and what follows it. */
  lemma {:induction false} ArgsNextLayout(args: seq<Expr>, i: nat, ts: seq<Token>, pos: nat)
    requires 1 <= i < |args|
    requires At(ts, pos, UnparseArgs(args, i))
    requires TagAhead(ts, pos + |UnparseArgs(args, i)|, 0) == ")"
    ensures pos < |ts| && ts[pos].tag == "," && At(ts, pos + 1, Unparse(args[i], 0))
    ensures At(ts, pos + 1 + |Unparse(args[i], 0)|, UnparseArgs(args, i + 1))
    ensures BinLevel(TagAhead(ts, pos + 1 + |Unparse(args[i], 0)|, 0)) == 8
    ensures TagAhead(ts, pos + 1 + |Unparse(args[i], 0)| + |UnparseArgs(args, i + 1)|, 0) == ")"
    ensures pos + 1 + |Unparse(args[i], 0)| + |UnparseArgs(args, i + 1)| == pos + |UnparseArgs(args, i)|
  {
    var a, rest := Unparse(args[i], 0), UnparseArgs(args, i + 1);
    ArgsShape(args, i);
    AtHead(ts, pos, Comma, a + rest);
    AtParts(ts, pos + 1, a, rest);
    ArgFollow(ts, pos + 1 + |a|, args, i + 1);
  }
}
