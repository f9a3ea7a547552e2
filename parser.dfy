/** cilly_parser (work2.py:194-443) as the source writes it: productions that advance a
    shared token cursor, loops that build lists, and a function-name list that grows in
    place. Each method is proved to compute what its production in ExprGrammar or
    StmtGrammar specifies. */
module Parser {
  import opened Wrappers
  import opened Tokens
  import opened TokenStream
  import opened Ast
  import opened ExprGrammar
  import opened StmtGrammar

  class CillyParser {
    const stream: TokenCursor
    var funcs: seq<Value>

    ghost predicate Valid()
      reads this, stream
    {
      stream.Valid() && stream.pos <= |stream.tokens|
    }

    constructor (ts: seq<Token>)
      ensures Valid() && fresh(stream) && stream.tokens == ts && stream.pos == 0 && funcs == []
    {
      stream := new TokenCursor(ts);
      funcs := [];
    }

    // -------------------------------------------------------------------------
    // Expressions

    /** expr() */
    method ParseExpr() returns (r: Result<Expr, ParseError>)
      requires Valid()
      modifies stream
      ensures Valid()
      ensures Agrees(ExprAt(stream.tokens, old(stream.pos)), r, stream.pos)
      decreases |stream.tokens| - stream.pos, 10
    {
      r := ParseLevel(0);
    }

    /** logic_or, logic_and, equality, comparison, term and factor as levels 0 to 5, and
        unary as level 6. */
    method ParseLevel(lvl: nat) returns (r: Result<Expr, ParseError>)
      requires Valid() && lvl <= 6
      modifies stream
      ensures Valid()
      ensures Agrees(LevelAt(stream.tokens, old(stream.pos), lvl), r, stream.pos)
      decreases |stream.tokens| - stream.pos, 9 - lvl
    {
      if lvl == 6 {
        r := ParseUnary();
        return;
      }
      var first := ParseLevel(lvl + 1);
      if first.Err? {
        return first;
      }
      var left := first.value;
      while stream.PeekTag(0) in LevelOps(lvl)
        invariant Valid() && old(stream.pos) < stream.pos
        invariant LevelAt(stream.tokens, old(stream.pos), lvl) == LevelLoop(stream.tokens, lvl, left, stream.pos)
        decreases |stream.tokens| - stream.pos
      {
        var op := stream.Match(LevelOps(lvl));
        var right := ParseLevel(lvl + 1);
        if right.Err? {
          return right;
        }
        left := Binary(Head(lvl, op.value), left, right.value);
      }
      return Ok(left);
    }

    /** unary() */
    method ParseUnary() returns (r: Result<Expr, ParseError>)
      requires Valid()
      modifies stream
      ensures Valid()
      ensures Agrees(UnaryAt(stream.tokens, old(stream.pos)), r, stream.pos)
      decreases |stream.tokens| - stream.pos, 2
    {
      if stream.PeekTag(0) in UnaryOps {
        var op := stream.Match(UnaryOps);
        var operand := ParseUnary();
        if operand.Err? {
          return operand;
        }
        return Ok(Unary(op.value, operand.value));
      }
      r := ParsePow();
    }

    /** pow() */
    method ParsePow() returns (r: Result<Expr, ParseError>)
      requires Valid()
      modifies stream
      ensures Valid()
      ensures Agrees(PowAt(stream.tokens, old(stream.pos)), r, stream.pos)
      decreases |stream.tokens| - stream.pos, 1
    {
      var left := ParseAtom();
      if left.Err? || stream.PeekTag(0) != "^" {
        return left;
      }
      var _ := stream.Match({"^"});
      var right := ParsePow();
      if right.Err? {
        return right;
      }
      return Ok(Binary(Token("^", None), left.value, right.value));
    }

    /** atom() */
    method ParseAtom() returns (r: Result<Expr, ParseError>)
      requires Valid()
      modifies stream
      ensures Valid()
      ensures Agrees(AtomAt(stream.tokens, old(stream.pos)), r, stream.pos)
      decreases |stream.tokens| - stream.pos, 0
    {
      var t := stream.PeekTag(0);
      if t == "(" {
        var _ := stream.Match({"("});
        var inner := ParseExpr();
        if inner.Err? {
          return inner;
        }
        var close := stream.Match({")"});
        if close.Err? {
          return Err(close.error);
        }
        return inner;
      } else if t == "id" {
        if stream.PeekTag(1) != "(" {
          var id := stream.Match({"id"});
          var name := Payload(id.value);
          if name.Err? {
            return Err(name.error);
          }
          return Ok(Atom(name.value));
        }
        var id := stream.Match({"id"});
        var name := Payload(id.value);
        if name.Err? {
          return Err(name.error);
        }
        var _ := stream.Match({"("});
        var args := ParseCallArgs();
        if args.Err? {
          return Err(args.error);
        }
        var close := stream.Match({")"});
        if close.Err? {
          return Err(close.error);
        }
        return Ok(Call(name.value, args.value));
      } else if t == "num" {
        var num := stream.Match({"num"});
        var v := Payload(num.value);
        if v.Err? {
          return Err(v.error);
        }
        if stream.PeekTag(0) == "!" {
          var _ := stream.Match({"!"});
          return Ok(BangLiteral(v.value));
        }
        return Ok(Atom(v.value));
      } else if t == "str" {
        var str := stream.Match({"str"});
        var v := Payload(str.value);
        if v.Err? {
          return Err(v.error);
        }
        return Ok(Atom(v.value));
      } else if t == "true" || t == "false" {
        var kw := stream.Match({"true", "false"});
        return Ok(Keyword(kw.value));
      }
      return Err(Unexpected(t));
    }

    /** The argument list of a call, up to but not including its ')'. */
    method ParseCallArgs() returns (r: Result<seq<Expr>, ParseError>)
      requires Valid()
      modifies stream
      ensures Valid()
      ensures Agrees(CallArgs(stream.tokens, old(stream.pos)), r, stream.pos)
      decreases |stream.tokens| - stream.pos, 11
    {
      if stream.PeekTag(0) == ")" {
        return Ok([]);
      }
      var first := ParseExpr();
      if first.Err? {
        return Err(first.error);
      }
      var args := [first.value];
      while stream.PeekTag(0) == ","
        invariant Valid() && old(stream.pos) < stream.pos
        invariant CallArgs(stream.tokens, old(stream.pos)) == ArgsLoop(stream.tokens, stream.pos, args)
        decreases |stream.tokens| - stream.pos
      {
        var _ := stream.Match({","});
        var arg := ParseExpr();
        if arg.Err? {
          return Err(arg.error);
        }
        args := args + [arg.value];
      }
      return Ok(args);
    }

    // -------------------------------------------------------------------------
    // Statements

    /** statement() */
    method ParseStatement() returns (r: Result<Stmt, ParseError>)
      requires Valid()
      modifies this, stream
      ensures Valid()
      ensures AgreesStep(StatementAt(stream.tokens, old(stream.pos), old(funcs)), r, stream.pos, funcs)
      decreases |stream.tokens| - stream.pos, 3
    {
      var t := stream.PeekTag(0);
      if t == "return" {
        r := ParseReturn();
      } else if t == "fun" {
        r := ParseFunDef();
      } else if t == "if" {
        r := ParseIf();
      } else if t == "print" {
        r := ParsePrint();
      } else if t == "var" {
        r := ParseVar();
      } else if t == "while" {
        r := ParseWhile();
      } else if t == "id" {
        var name := Payload(stream.PeekFull(0));
        if name.Err? {
          return Err(name.error);
        }
        if name.value in funcs {
          r := ParseFuncUse();
        } else {
          r := ParseAssign();
        }
      } else {
        r := Err(Unexpected(t));
      }
    }

    /** func_use() */
    method ParseFuncUse() returns (r: Result<Stmt, ParseError>)
      requires Valid()
      modifies stream
      ensures Valid()
      ensures Agrees(FuncUseAt(stream.tokens, old(stream.pos)), r, stream.pos)
    {
      var e := ParseExpr();
      if e.Err? {
        return Err(e.error);
      }
      var semi := stream.Match({";"});
      if semi.Err? {
        return Err(semi.error);
      }
      return Ok(FuncUse(e.value));
    }

    /** assign_statement() */
    method ParseAssign() returns (r: Result<Stmt, ParseError>)
      requires Valid()
      modifies stream
      ensures Valid()
      ensures Agrees(AssignAt(stream.tokens, old(stream.pos)), r, stream.pos)
    {
      var id := stream.Match({"id"});
      if id.Err? {
        return Err(id.error);
      }
      var name := Payload(id.value);
      if name.Err? {
        return Err(name.error);
      }
      var eq := stream.Match({"="});
      if eq.Err? {
        return Err(eq.error);
      }
      var value := ParseExpr();
      if value.Err? {
        return Err(value.error);
      }
      var semi := stream.Match({";"});
      if semi.Err? {
        return Err(semi.error);
      }
      return Ok(Assign(name.value, value.value));
    }

    /** var_statement() */
    method ParseVar() returns (r: Result<Stmt, ParseError>)
      requires Valid()
      modifies this, stream
      ensures Valid()
      ensures AgreesStep(VarAt(stream.tokens, old(stream.pos), old(funcs)), r, stream.pos, funcs)
    {
      var kw := stream.Match({"var"});
      if kw.Err? {
        return Err(kw.error);
      }
      var entries := [];
      while stream.PeekTag(0) != ";"
        invariant Valid() && old(stream.pos) < stream.pos
        invariant VarEntries(stream.tokens, old(stream.pos) + 1, old(funcs), [])
                  == VarEntries(stream.tokens, stream.pos, funcs, entries)
        decreases |stream.tokens| - stream.pos
      {
        var id := stream.Match({"id"});
        if id.Err? {
          return Err(id.error);
        }
        var name := Payload(id.value);
        if name.Err? {
          return Err(name.error);
        }
        if stream.PeekTag(0) == "=" {
          var _ := stream.Match({"="});
          var init := ParseExpr();
          if init.Err? {
            return Err(init.error);
          }
          if init.value.Call? {
            funcs := funcs + [name.value];
          }
          entries := entries + [VarEntry(name.value, Some(init.value))];
        } else {
          entries := entries + [VarEntry(name.value, None)];
        }
      }
      var semi := stream.Match({";"});
      return Ok(Var(entries));
    }

    /** print_statement() */
    method ParsePrint() returns (r: Result<Stmt, ParseError>)
      requires Valid()
      modifies stream
      ensures Valid()
      ensures Agrees(PrintAt(stream.tokens, old(stream.pos)), r, stream.pos)
    {
      var kw := stream.Match({"print"});
      if kw.Err? {
        return Err(kw.error);
      }
      var open := stream.Match({"("});
      if open.Err? {
        return Err(open.error);
      }
      var args := [];
      while stream.PeekTag(0) != ")"
        invariant Valid() && old(stream.pos) < stream.pos
        invariant PrintArgs(stream.tokens, old(stream.pos) + 2, []) == PrintArgs(stream.tokens, stream.pos, args)
        decreases |stream.tokens| - stream.pos
      {
        var arg := ParseExpr();
        if arg.Err? {
          return Err(arg.error);
        }
        args := args + [arg.value];
        if stream.PeekTag(0) == "," {
          var _ := stream.Match({","});
        }
      }
      var close := stream.Match({")"});
      var semi := stream.Match({";"});
      if semi.Err? {
        return Err(semi.error);
      }
      return Ok(Print(args));
    }

    /** return_statement() */
    method ParseReturn() returns (r: Result<Stmt, ParseError>)
      requires Valid()
      modifies stream
      ensures Valid()
      ensures Agrees(ReturnAt(stream.tokens, old(stream.pos)), r, stream.pos)
    {
      var kw := stream.Match({"return"});
      if kw.Err? {
        return Err(kw.error);
      }
      var value := None;
      if stream.PeekTag(0) != ";" {
        var e := ParseExpr();
        if e.Err? {
          return Err(e.error);
        }
        value := Some(e.value);
      }
      var semi := stream.Match({";"});
      if semi.Err? {
        return Err(semi.error);
      }
      return Ok(Return(value));
    }

    /** A block when '{' comes first, a single statement otherwise. */
    method ParseClause() returns (r: Result<Stmt, ParseError>)
      requires Valid()
      modifies this, stream
      ensures Valid()
      ensures AgreesStep(ClauseAt(stream.tokens, old(stream.pos), old(funcs)), r, stream.pos, funcs)
      decreases |stream.tokens| - stream.pos, 4
    {
      if stream.PeekTag(0) != "{" {
        r := ParseStatement();
      } else {
        r := ParseBlock();
      }
    }

    /** while_statement() */
    method ParseWhile() returns (r: Result<Stmt, ParseError>)
      requires Valid()
      modifies this, stream
      ensures Valid()
      ensures AgreesStep(WhileAt(stream.tokens, old(stream.pos), old(funcs)), r, stream.pos, funcs)
      decreases |stream.tokens| - stream.pos, 2
    {
      var kw := stream.Match({"while"});
      if kw.Err? {
        return Err(kw.error);
      }
      var cond := ParseExpr();
      if cond.Err? {
        return Err(cond.error);
      }
      var body := ParseClause();
      if body.Err? {
        return Err(body.error);
      }
      return Ok(While(cond.value, body.value));
    }

    /** if_statement() */
    method ParseIf() returns (r: Result<Stmt, ParseError>)
      requires Valid()
      modifies this, stream
      ensures Valid()
      ensures AgreesStep(IfAt(stream.tokens, old(stream.pos), old(funcs)), r, stream.pos, funcs)
      decreases |stream.tokens| - stream.pos, 2
    {
      var kw := stream.Match({"if"});
      if kw.Err? {
        return Err(kw.error);
      }
      var cond := ParseExpr();
      if cond.Err? {
        return Err(cond.error);
      }
      var th := ParseClause();
      if th.Err? {
        return Err(th.error);
      }
      var el := None;
      if stream.PeekTag(0) == "else" {
        var _ := stream.Match({"else"});
        var e := ParseClause();
        if e.Err? {
          return Err(e.error);
        }
        el := Some(e.value);
      }
      return Ok(If(cond.value, th.value, "else", el));
    }

    /** function_definition() */
    method ParseFunDef() returns (r: Result<Stmt, ParseError>)
      requires Valid()
      modifies this, stream
      ensures Valid()
      ensures AgreesStep(FunDefAt(stream.tokens, old(stream.pos), old(funcs)), r, stream.pos, funcs)
      decreases |stream.tokens| - stream.pos, 2
    {
      var kw := stream.Match({"fun"});
      if kw.Err? {
        return Err(kw.error);
      }
      var id := stream.Match({"id"});
      if id.Err? {
        return Err(id.error);
      }
      var name := Payload(id.value);
      if name.Err? {
        return Err(name.error);
      }
      funcs := funcs + [name.value];
      var open := stream.Match({"("});
      if open.Err? {
        return Err(open.error);
      }
      var params := ParseParams();
      if params.Err? {
        return Err(params.error);
      }
      var close := stream.Match({")"});
      if close.Err? {
        return Err(close.error);
      }
      var body := ParseBlock();
      if body.Err? {
        return Err(body.error);
      }
      return Ok(FunDef(name.value, params.value, body.value));
    }

    /** The parameter names of a definition, up to but not including ')'. */
    method ParseParams() returns (r: Result<seq<Value>, ParseError>)
      requires Valid()
      modifies stream
      ensures Valid()
      ensures Agrees(ParamsAt(stream.tokens, old(stream.pos)), r, stream.pos)
    {
      if stream.PeekTag(0) == ")" {
        return Ok([]);
      }
      var id := stream.Match({"id"});
      if id.Err? {
        return Err(id.error);
      }
      var name := Payload(id.value);
      if name.Err? {
        return Err(name.error);
      }
      var params := [name.value];
      while stream.PeekTag(0) == ","
        invariant Valid() && old(stream.pos) < stream.pos
        invariant ParamsAt(stream.tokens, old(stream.pos)) == ParamsLoop(stream.tokens, stream.pos, params)
        decreases |stream.tokens| - stream.pos
      {
        var _ := stream.Match({","});
        id := stream.Match({"id"});
        if id.Err? {
          return Err(id.error);
        }
        name := Payload(id.value);
        if name.Err? {
          return Err(name.error);
        }
        params := params + [name.value];
      }
      return Ok(params);
    }

    /** block() */
    method ParseBlock() returns (r: Result<Stmt, ParseError>)
      requires Valid()
      modifies this, stream
      ensures Valid()
      ensures AgreesStep(BlockAt(stream.tokens, old(stream.pos), old(funcs)), r, stream.pos, funcs)
      decreases |stream.tokens| - stream.pos, 1
    {
      var open := stream.Match({"{"});
      if open.Err? {
        return Err(open.error);
      }
      var stmts := [];
      while stream.PeekTag(0) != "}"
        invariant Valid() && old(stream.pos) < stream.pos
        invariant BlockItems(stream.tokens, old(stream.pos) + 1, old(funcs), [])
                  == BlockItems(stream.tokens, stream.pos, funcs, stmts)
        decreases |stream.tokens| - stream.pos
      {
        var s := ParseStatement();
        if s.Err? {
          return Err(s.error);
        }
        stmts := stmts + [s.value];
      }
      var close := stream.Match({"}"});
      return Ok(Block(stmts));
    }

    /** program() */
    method ParseProgramItems() returns (r: Result<Program, ParseError>)
      requires Valid()
      modifies this, stream
      ensures Valid()
      ensures r == (match ProgramItems(stream.tokens, old(stream.pos), old(funcs), [])
                    case Err(e) => Err(e)
                    case Ok(items) => Ok(Program(items.node)))
    {
      var stmts := [];
      while stream.PeekTag(0) != "eof"
        invariant Valid() && old(stream.pos) <= stream.pos
        invariant ProgramItems(stream.tokens, old(stream.pos), old(funcs), [])
                  == ProgramItems(stream.tokens, stream.pos, funcs, stmts)
        decreases |stream.tokens| - stream.pos
      {
        var s := ParseStatement();
        if s.Err? {
          return Err(s.error);
        }
        stmts := stmts + [s.value];
      }
      return Ok(Program(stmts));
    }
  }

  /** cilly_parser(tokens) */
  method Parse(ts: seq<Token>) returns (r: Result<Program, ParseError>)
    ensures r == ParseProgram(ts)
  {
    var p := new CillyParser(ts);
    r := p.ParseProgramItems();
  }
}
