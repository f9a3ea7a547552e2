/** What the parser promises about the function-name list, the identifier-led statement
    and where a program stops. */
module GrammarProps {
  import opened Wrappers
  import opened Tokens
  import opened TokenStream
  import opened Ast
  import opened ExprGrammar
  import opened StmtGrammar

  // ---------------------------------------------------------------------------
  // The function-name list

  /** The names a var statement registers: those whose initializer is a call, in order. */
  function CallNames(es: seq<VarEntry>): seq<Value>
  {
    if es == [] then []
    else
      var e := es[|es| - 1];
      CallNames(es[..|es| - 1]) + (if e.init.Some? && e.init.value.Call? then [e.name] else [])
  }

  /** The names a parsed statement adds to the function-name list, in the order it adds them:
      a definition's name before those of its body, and the call-initialized names of var
      statements, nested bodies and blocks included. */
  function Registered(s: Stmt): seq<Value>
    decreases s, 1
  {
    match s
    case FunDef(name, _, body) => [name] + Registered(body)
    case If(_, th, _, el) => Registered(th) + (if el.Some? then Registered(el.value) else [])
    case While(_, body) => Registered(body)
    case Var(entries) => CallNames(entries)
    case Block(stmts) => RegisteredAll(stmts)
    case _ => []
  }

  function RegisteredAll(ss: seq<Stmt>): seq<Value>
    decreases ss, 0
  {
    if ss == [] then [] else RegisteredAll(ss[..|ss| - 1]) + Registered(ss[|ss| - 1])
  }

  lemma {:induction false} VarEntriesRegisters(ts: seq<Token>, pos: nat, fl0: seq<Value>, fl: seq<Value>, acc: seq<VarEntry>)
    requires pos <= |ts| && fl == fl0 + CallNames(acc)
    ensures var r := VarEntries(ts, pos, fl, acc);
            r.Ok? ==> r.value.funcs == fl0 + CallNames(r.value.node)
    decreases |ts| - pos
  {
    if TagAhead(ts, pos, 0) != ";" {
      match MatchAt(ts, pos, {"id"})
      case Err(_) =>
      case Ok(id) =>
        match Payload(id.node)
        case Err(_) =>
        case Ok(name) =>
          if TagAhead(ts, id.next, 0) == "=" {
            match ExprAt(ts, id.next + 1)
            case Err(_) =>
            case Ok(init) =>
              var entry := VarEntry(name, Some(init.node));
              var fl' := if init.node.Call? then fl + [name] else fl;
              assert (acc + [entry])[..|acc|] == acc;
              VarEntriesRegisters(ts, init.next, fl0, fl', acc + [entry]);
          } else {
            var entry := VarEntry(name, None);
            assert (acc + [entry])[..|acc|] == acc;
            VarEntriesRegisters(ts, id.next, fl0, fl, acc + [entry]);
          }
    }
  }

  /** A var statement adds exactly the names whose initializer is a call. */
  lemma {:induction false} VarRegisters(ts: seq<Token>, pos: nat, fl: seq<Value>)
    requires pos <= |ts|
    ensures var r := VarAt(ts, pos, fl);
            r.Ok? ==> r.value.funcs == fl + Registered(r.value.node)
  {
    if MatchAt(ts, pos, {"var"}).Ok? {
      VarEntriesRegisters(ts, pos + 1, fl, fl, []);
    }
  }

  lemma {:induction false} StatementRegisters(ts: seq<Token>, pos: nat, fl: seq<Value>)
    requires pos <= |ts|
    ensures var r := StatementAt(ts, pos, fl);
            r.Ok? ==> r.value.funcs == fl + Registered(r.value.node)
    decreases |ts| - pos, 3
  {
    var t := TagAhead(ts, pos, 0);
    if t == "fun" {
      FunDefRegisters(ts, pos, fl);
    } else if t == "if" {
      IfRegisters(ts, pos, fl);
    } else if t == "var" {
      VarRegisters(ts, pos, fl);
    } else if t == "while" {
      WhileRegisters(ts, pos, fl);
    } else if t == "return" {
      assert ReturnAt(ts, pos).Ok? ==> ReturnAt(ts, pos).value.node.Return?;
    } else if t == "print" {
      assert PrintAt(ts, pos).Ok? ==> PrintAt(ts, pos).value.node.Print?;
    } else if t == "id" {
      assert FuncUseAt(ts, pos).Ok? ==> FuncUseAt(ts, pos).value.node.FuncUse?;
      assert AssignAt(ts, pos).Ok? ==> AssignAt(ts, pos).value.node.Assign?;
    }
  }

  lemma {:induction false} ClauseRegisters(ts: seq<Token>, pos: nat, fl: seq<Value>)
    requires pos <= |ts|
    ensures var r := ClauseAt(ts, pos, fl);
            r.Ok? ==> r.value.funcs == fl + Registered(r.value.node)
    decreases |ts| - pos, 4
  {
    if TagAhead(ts, pos, 0) != "{" {
      StatementRegisters(ts, pos, fl);
    } else {
      BlockRegisters(ts, pos, fl);
    }
  }

  lemma {:induction false} WhileRegisters(ts: seq<Token>, pos: nat, fl: seq<Value>)
    requires pos <= |ts|
    ensures var r := WhileAt(ts, pos, fl);
            r.Ok? ==> r.value.funcs == fl + Registered(r.value.node)
    decreases |ts| - pos, 2
  {
    if MatchAt(ts, pos, {"while"}).Ok? {
      match ExprAt(ts, pos + 1)
      case Err(_) =>
      case Ok(cond) => ClauseRegisters(ts, cond.next, fl);
    }
  }

  lemma {:induction false} IfRegisters(ts: seq<Token>, pos: nat, fl: seq<Value>)
    requires pos <= |ts|
    ensures var r := IfAt(ts, pos, fl);
            r.Ok? ==> r.value.funcs == fl + Registered(r.value.node)
    decreases |ts| - pos, 2
  {
    if MatchAt(ts, pos, {"if"}).Ok? {
      match ExprAt(ts, pos + 1)
      case Err(_) =>
      case Ok(cond) =>
        ClauseRegisters(ts, cond.next, fl);
        match ClauseAt(ts, cond.next, fl)
        case Err(_) =>
        case Ok(th) =>
          if TagAhead(ts, th.next, 0) == "else" {
            ClauseRegisters(ts, th.next + 1, th.funcs);
          }
    }
  }

  lemma {:induction false} FunDefRegisters(ts: seq<Token>, pos: nat, fl: seq<Value>)
    requires pos <= |ts|
    ensures var r := FunDefAt(ts, pos, fl);
            r.Ok? ==> r.value.funcs == fl + Registered(r.value.node)
    decreases |ts| - pos, 2
  {
    var r := FunDefAt(ts, pos, fl);
    if r.Ok? {
      var name := ts[pos + 1].val.value;
      var close := ParamsAt(ts, pos + 3).value.next;
      BlockRegisters(ts, close + 1, fl + [name]);
    }
  }

  lemma {:induction false} BlockRegisters(ts: seq<Token>, pos: nat, fl: seq<Value>)
    requires pos <= |ts|
    ensures var r := BlockAt(ts, pos, fl);
            r.Ok? ==> r.value.funcs == fl + Registered(r.value.node)
    decreases |ts| - pos, 1
  {
    if MatchAt(ts, pos, {"{"}).Ok? {
      BlockItemsRegisters(ts, pos + 1, fl, fl, []);
    }
  }

  lemma {:induction false} BlockItemsRegisters(ts: seq<Token>, pos: nat, fl0: seq<Value>, fl: seq<Value>, acc: seq<Stmt>)
    requires pos <= |ts| && fl == fl0 + RegisteredAll(acc)
    ensures var r := BlockItems(ts, pos, fl, acc);
            r.Ok? ==> r.value.funcs == fl0 + RegisteredAll(r.value.node)
    decreases |ts| - pos, 4
  {
    if TagAhead(ts, pos, 0) != "}" {
      StatementRegisters(ts, pos, fl);
      match StatementAt(ts, pos, fl)
      case Err(_) =>
      case Ok(s) =>
        assert (acc + [s.node])[..|acc|] == acc;
        BlockItemsRegisters(ts, s.next, fl0, s.funcs, acc + [s.node]);
    }
  }

  lemma {:induction false} ProgramItemsRegisters(ts: seq<Token>, pos: nat, fl0: seq<Value>, fl: seq<Value>, acc: seq<Stmt>)
    requires pos <= |ts| && fl == fl0 + RegisteredAll(acc)
    ensures var r := ProgramItems(ts, pos, fl, acc);
            r.Ok? ==> r.value.funcs == fl0 + RegisteredAll(r.value.node)
    decreases |ts| - pos
  {
    if TagAhead(ts, pos, 0) != "eof" {
      StatementRegisters(ts, pos, fl);
      match StatementAt(ts, pos, fl)
      case Err(_) =>
      case Ok(s) =>
        assert (acc + [s.node])[..|acc|] == acc;
        ProgramItemsRegisters(ts, s.next, fl0, s.funcs, acc + [s.node]);
    }
  }

  /** After a whole program the function-name list holds exactly the names its statements
      register, in order; in particular it only ever grows. */
  lemma {:induction false} ProgramRegisters(ts: seq<Token>)
    ensures var r := ProgramItems(ts, 0, [], []);
            r.Ok? ==> r.value.funcs == RegisteredAll(r.value.node)
  {
    ProgramItemsRegisters(ts, 0, [], [], []);
  }

  // ---------------------------------------------------------------------------
  // Identifier-led statements

  /** An identifier-led statement is a function use exactly when the identifier is in the
      function-name list, and an assignment to that identifier exactly when it is not.
      Neither changes the list. */
  lemma {:induction false} IdStatementDispatch(ts: seq<Token>, pos: nat, fl: seq<Value>)
    requires pos < |ts| && ts[pos].tag == "id" && ts[pos].val.Some?
    ensures var r := StatementAt(ts, pos, fl);
            r.Ok? ==> r.value.funcs == fl
                      && (r.value.node.FuncUse? <==> ts[pos].val.value in fl)
                      && (r.value.node.Assign? <==> ts[pos].val.value !in fl)
                      && (r.value.node.Assign? ==> r.value.node.target == ts[pos].val.value)
  {
    assert FuncUseAt(ts, pos).Ok? ==> FuncUseAt(ts, pos).value.node.FuncUse?;
  }

  /** A definition's body is parsed with the definition's own name already in the
      function-name list, so a call of the function inside its body is a function use. The
      body is the block that starts right after the ')' closing the parameters, which
      themselves start three tokens after 'fun'. */
  lemma {:induction false} FunDefBodySeesName(ts: seq<Token>, pos: nat, fl: seq<Value>)
    requires pos <= |ts|
    ensures var r := FunDefAt(ts, pos, fl);
            r.Ok? ==>
              r.value.node.FunDef?
              && pos + 3 <= |ts| && ParamsAt(ts, pos + 3).Ok?
              && var close := ParamsAt(ts, pos + 3).value.next;
                 close < |ts| && ts[close].tag == ")"
                 && BlockAt(ts, close + 1, fl + [r.value.node.name])
                    == Ok(Stepped(r.value.node.body, r.value.next, r.value.funcs))
  {
    var r := FunDefAt(ts, pos, fl);
    if r.Ok? {
      var close := ParamsAt(ts, pos + 3).value.next;
      assert BlockAt(ts, close + 1, fl + [r.value.node.name])
             == Ok(Stepped(r.value.node.body, r.value.next, r.value.funcs));
    }
  }

  // ---------------------------------------------------------------------------
  // Where a program stops

  /** program() stops at the first token tagged "eof", or at the end of the list when there
      is none: every statement consumed before it is free of "eof". */
  lemma {:induction false} ProgramStopsAtFirstEof(ts: seq<Token>)
    ensures var r := ProgramItems(ts, 0, [], []);
            r.Ok? ==> (r.value.next < |ts| ==> ts[r.value.next].tag == "eof")
                      && forall k :: 0 <= k < r.value.next ==> ts[k].tag != "eof"
  {
    var r := ProgramItems(ts, 0, [], []);
    if r.Ok? {
      forall k | 0 <= k < r.value.next
        ensures ts[k].tag != "eof"
      {
        assert !IsEof(ts[k]);
      }
    }
  }

  // ---------------------------------------------------------------------------
  // The shape of each statement

  /** return_statement() gives a bare return exactly when ';' follows the keyword, and
      otherwise the expression that stands between the keyword and the ';'. */
  lemma {:induction false} ReturnShape(ts: seq<Token>, pos: nat)
    requires pos <= |ts|
    ensures var r := ReturnAt(ts, pos);
            r.Ok? ==>
              r.value.node.Return? && TagAhead(ts, pos, 0) == "return"
              && (r.value.node.result.None? <==> TagAhead(ts, pos + 1, 0) == ";")
              && (r.value.node.result.None? ==> r.value.next == pos + 2)
              && (r.value.node.result.Some? ==>
                    ExprAt(ts, pos + 1) == Ok(Parsed(r.value.node.result.value, r.value.next - 1))
                    && TagAhead(ts, r.value.next - 1, 0) == ";")
    ensures TagAhead(ts, pos, 0) == "return" && TagAhead(ts, pos + 1, 0) == ";"
            ==> ReturnAt(ts, pos) == Ok(Parsed(Return(None), pos + 2))
  {
    var r := ReturnAt(ts, pos);
    if r.Ok? && TagAhead(ts, pos + 1, 0) != ";" {
      var value := ExprAt(ts, pos + 1).value;
      assert r.value.next == value.next + 1;
    }
  }

  /** assign_statement() gives the assignment of the expression between '=' and ';' to the
      name the first token carries. */
  lemma {:induction false} AssignShape(ts: seq<Token>, pos: nat)
    requires pos <= |ts|
    ensures var r := AssignAt(ts, pos);
            r.Ok? ==>
              pos + 1 < |ts| && ts[pos].tag == "id" && ts[pos].val.Some? && ts[pos + 1].tag == "="
              && r.value.node == Assign(ts[pos].val.value, r.value.node.value)
              && ExprAt(ts, pos + 2) == Ok(Parsed(r.value.node.value, r.value.next - 1))
              && TagAhead(ts, r.value.next - 1, 0) == ";"
  {
    var r := AssignAt(ts, pos);
    if r.Ok? {
      var value := ExprAt(ts, pos + 2).value;
      assert r.value.next == value.next + 1;
    }
  }

  /** var_statement() on 'var' ';' gives the statement without entries, and in general the
      entries the entry loop reads from the token after 'var' up to the ';'. */
  lemma {:induction false} VarShape(ts: seq<Token>, pos: nat, fl: seq<Value>)
    requires pos <= |ts|
    ensures var r := VarAt(ts, pos, fl);
            r.Ok? ==>
              TagAhead(ts, pos, 0) == "var" && pos + 1 <= |ts|
              && VarEntries(ts, pos + 1, fl, []) == Ok(Stepped(r.value.node.entries, r.value.next - 1, r.value.funcs))
              && r.value.node == Var(r.value.node.entries)
              && TagAhead(ts, r.value.next - 1, 0) == ";"
    ensures TagAhead(ts, pos, 0) == "var" && TagAhead(ts, pos + 1, 0) == ";"
            ==> VarAt(ts, pos, fl) == Ok(Stepped(Var([]), pos + 2, fl))
  {
    var r := VarAt(ts, pos, fl);
    if r.Ok? {
      var entries := VarEntries(ts, pos + 1, fl, []).value;
      assert r.value.next == entries.next + 1;
    }
  }

  /** if_statement() reads the condition and the then-branch, and has an else branch
      exactly when 'else' follows the then-branch; the else branch is read under the names
      the then-branch registered. */
  lemma {:induction false} IfShape(ts: seq<Token>, pos: nat, fl: seq<Value>)
    requires pos <= |ts|
    ensures var r := IfAt(ts, pos, fl);
            r.Ok? ==>
              TagAhead(ts, pos, 0) == "if" && pos + 1 <= |ts| && r.value.node.If? && r.value.node.marker == "else"
              && ExprAt(ts, pos + 1).Ok? && ExprAt(ts, pos + 1).value.node == r.value.node.cond
              && var q := ExprAt(ts, pos + 1).value.next;
                 ClauseAt(ts, q, fl).Ok?
                 && var th := ClauseAt(ts, q, fl).value;
                    th.node == r.value.node.thenBranch
                    && (r.value.node.elseBranch.None? <==> TagAhead(ts, th.next, 0) != "else")
                    && (r.value.node.elseBranch.None? ==> r.value.next == th.next && r.value.funcs == th.funcs)
                    && (r.value.node.elseBranch.Some? ==>
                          ClauseAt(ts, th.next + 1, th.funcs)
                          == Ok(Stepped(r.value.node.elseBranch.value, r.value.next, r.value.funcs)))
  {
  }

  /** print_statement() gives the arguments its loop reads between '(' and ')', then ';'. */
  lemma {:induction false} PrintShape(ts: seq<Token>, pos: nat)
    requires pos <= |ts|
    ensures var r := PrintAt(ts, pos);
            r.Ok? ==>
              TagAhead(ts, pos, 0) == "print" && TagAhead(ts, pos + 1, 0) == "(" && pos + 2 <= |ts|
              && r.value.node == Print(r.value.node.args)
              && PrintArgs(ts, pos + 2, []) == Ok(Parsed(r.value.node.args, r.value.next - 2))
              && TagAhead(ts, r.value.next - 2, 0) == ")" && TagAhead(ts, r.value.next - 1, 0) == ";"
  {
    var r := PrintAt(ts, pos);
    if r.Ok? {
      var args := PrintArgs(ts, pos + 2, []).value;
      assert r.value.next == args.next + 2;
    }
  }
}
