/** Parsing a printed statement gives back the statement: the statement productions read
    what the printer writes, building the same tree and leaving the function-name list
    with exactly the names the statement registers. */
module StmtRoundTrip {
  import opened Wrappers
  import opened Tokens
  import opened TokenStream
  import opened Ast
  import opened ExprGrammar
  import opened ExprPrinter
  import opened PrintLayout
  import opened ExprRoundTrip
  import opened StmtGrammar
  import opened GrammarProps
  import opened StmtPrinter

  // ---------------------------------------------------------------------------
  // Layout

  lemma {:induction false} FirstAt(ts: seq<Token>, pos: nat, p: seq<Token>)
    requires At(ts, pos, p) && |p| > 0
    ensures pos < |ts| && ts[pos] == p[0] && TagAhead(ts, pos, 0) == p[0].tag
  {
    assert ts[pos + 0] == p[0];
  }

  lemma {:induction false} AtSplit3(ts: seq<Token>, pos: nat, a: seq<Token>, b: seq<Token>, c: seq<Token>)
    requires At(ts, pos, a + b + c)
    ensures At(ts, pos, a) && At(ts, pos + |a|, b) && At(ts, pos + |a| + |b|, c)
  {
    AtParts(ts, pos, a + b, c);
    AtParts(ts, pos, a, b);
  }

  /** The tags a statement starts with; none is an operator, a closing bracket, 'else' or
      the end of input. */
  predicate Opener(tag: string)
  {
    tag in {"return", "fun", "if", "print", "var", "while", "id", "{"}
  }

  lemma OpenerLevel(tag: string)
    requires Opener(tag)
    ensures BinLevel(tag) == 8 && tag != "else" && tag != "}" && tag != "eof"
  {
  }

  /** A printed statement starts with its keyword, with '{' exactly when it is a block, or
      with an identifier that is a known function exactly when it is a function use. */
  lemma {:induction false} StmtStart(s: Stmt, fl: seq<Value>)
    requires Shaped(s, fl)
    ensures var t := UnparseStmt(s)[0];
            Opener(t.tag) && (t.tag == "{" <==> s.Block?)
            && (t.tag == "id" ==> t.val.Some? && (t.val.value in fl <==> s.FuncUse?))
  {
    match s
    case FuncUse(e) =>
      assert UnparseStmt(s)[0] == Unparse(e, 0)[0];
    case _ =>
  }

  lemma {:induction false} StmtStartAt(s: Stmt, fl: seq<Value>, ts: seq<Token>, pos: nat)
    requires Shaped(s, fl) && At(ts, pos, UnparseStmt(s))
    ensures pos < |ts| && ts[pos] == UnparseStmt(s)[0] && Opener(ts[pos].tag)
    ensures TagAhead(ts, pos, 0) == ts[pos].tag
    ensures BinLevel(ts[pos].tag) == 8 && ts[pos].tag != "else" && ts[pos].tag != "}" && ts[pos].tag != "eof"
    ensures ts[pos].tag == "{" <==> s.Block?
  {
    StmtStart(s, fl);
    FirstAt(ts, pos, UnparseStmt(s));
    OpenerLevel(ts[pos].tag);
  }

  /** What follows a statement: no 'else' after one that ends open. */
  predicate Closes(s: Stmt, ts: seq<Token>, end: nat)
  {
    EndsOpen(s) ==> TagAhead(ts, end, 0) != "else"
  }

  lemma Associate(a: seq<Value>, b: seq<Value>, c: seq<Value>)
    ensures a + b + c == a + (b + c)
  {
  }

  // ---------------------------------------------------------------------------
  // Lists inside statements

  /** The print arguments, each followed by a ',' or not as seps says, are read back up to
      the closing ')' at end: the comma between two arguments is optional. */
  lemma {:induction false} PrintArgsReads(args: seq<Expr>, seps: seq<bool>, i: nat, ts: seq<Token>, pos: nat, end: nat)
    requires |seps| == |args| && i <= |args|
    requires forall j :: 0 <= j < |args| ==> WellFormed(args[j])
    requires SepsOk(args, seps)
    requires At(ts, pos, UnparsePrintArgs(args, seps, i))
    requires end == pos + |UnparsePrintArgs(args, seps, i)| && TagAhead(ts, end, 0) == ")"
    ensures PrintArgs(ts, pos, args[..i]) == Ok(Parsed(args, end))
    decreases |args| - i
  {
    if i == |args| {
      assert args[..i] == args;
    } else {
      var q := PrintArgAdvance(args, seps, i, ts, pos, end);
      PrintArgsReads(args, seps, i + 1, ts, q, end);
    }
  }

  /** One printed argument and its separator are read; the next argument starts at q. */
  lemma {:induction false} PrintArgAdvance(args: seq<Expr>, seps: seq<bool>, i: nat, ts: seq<Token>, pos: nat, end: nat)
    returns (q: nat)
    requires |seps| == |args| && i < |args|
    requires forall j :: 0 <= j < |args| ==> WellFormed(args[j])
    requires SepsOk(args, seps)
    requires At(ts, pos, UnparsePrintArgs(args, seps, i))
    requires end == pos + |UnparsePrintArgs(args, seps, i)| && TagAhead(ts, end, 0) == ")"
    ensures pos <= |ts| && q <= |ts| && At(ts, q, UnparsePrintArgs(args, seps, i + 1))
    ensures end == q + |UnparsePrintArgs(args, seps, i + 1)|
    ensures PrintArgs(ts, pos, args[..i]) == PrintArgs(ts, q, args[..i + 1])
  {
    var a := Unparse(args[i], 0);
    var sep: seq<Token> := if seps[i] then [Comma] else [];
    var rest := UnparsePrintArgs(args, seps, i + 1);
    assert UnparsePrintArgs(args, seps, i) == a + sep + rest;
    AtSplit3(ts, pos, a, sep, rest);
    StartLayout(args[i], 0, ts, pos);
    PrintArgFollow(args, seps, i, ts, pos + |a|);
    ExprReads(args[i], ts, pos);
    assert args[..i] + [args[i]] == args[..i + 1];
    PrintArgStep(ts, pos, args[..i], args[i], pos + |a|);
    q := pos + |a| + |sep|;
  }

  lemma {:induction false} PrintArgStep(ts: seq<Token>, pos: nat, acc: seq<Expr>, e: Expr, m: nat)
    requires pos <= |ts| && TagAhead(ts, pos, 0) != ")" && ExprAt(ts, pos) == Ok(Parsed(e, m))
    ensures m <= |ts| && (TagAhead(ts, m, 0) == "," ==> m < |ts|)
    ensures PrintArgs(ts, pos, acc) == PrintArgs(ts, if TagAhead(ts, m, 0) == "," then m + 1 else m, acc + [e])
  {
  }

  /** After a print argument comes its ',' when seps says so, and otherwise the next
      argument or the closing ')': never an operator. */
  lemma {:induction false} PrintArgFollow(args: seq<Expr>, seps: seq<bool>, i: nat, ts: seq<Token>, q: nat)
    requires |seps| == |args| && i < |args|
    requires forall j :: 0 <= j < |args| ==> WellFormed(args[j])
    requires SepsOk(args, seps)
    requires var sep: seq<Token> := if seps[i] then [Comma] else [];
             var rest := UnparsePrintArgs(args, seps, i + 1);
             At(ts, q, sep) && At(ts, q + |sep|, rest) && TagAhead(ts, q + |sep| + |rest|, 0) == ")"
    ensures BinLevel(TagAhead(ts, q, 0)) == 8
    ensures TagAhead(ts, q, 0) == "," <==> seps[i]
  {
    SeparatorLevels();
    if seps[i] {
      FirstAt(ts, q, [Comma]);
    } else if i + 1 < |args| {
      var b := Unparse(args[i + 1], 0);
      var rest := UnparsePrintArgs(args, seps, i + 1);
      assert rest == b + ((if seps[i + 1] then [Comma] else []) + UnparsePrintArgs(args, seps, i + 2));
      assert rest[0] == b[0];
      FirstAt(ts, q, rest);
      UnparseStart(args[i + 1], 0);
    }
  }

  /** The entries of a printed var statement are read back up to its ';' at end, and the
      names initialized by a call join the function-name list. */
  lemma {:induction false} EntriesReads(es: seq<VarEntry>, i: nat, fl: seq<Value>, ts: seq<Token>, pos: nat, end: nat)
    requires i <= |es|
    requires forall j :: 0 <= j < |es| && es[j].init.Some? ==> WellFormed(es[j].init.value)
    requires At(ts, pos, UnparseEntries(es, i))
    requires end == pos + |UnparseEntries(es, i)| && TagAhead(ts, end, 0) == ";"
    ensures VarEntries(ts, pos, fl + CallNames(es[..i]), es[..i]) == Ok(Stepped(es, end, fl + CallNames(es)))
    decreases |es| - i
  {
    if i == |es| {
      assert es[..i] == es;
    } else {
      var q := EntryAdvance(es, i, fl, ts, pos, end);
      EntriesReads(es, i + 1, fl, ts, q, end);
    }
  }

  /** One printed entry is read; the next one starts at q. */
  lemma {:induction false} EntryAdvance(es: seq<VarEntry>, i: nat, fl: seq<Value>, ts: seq<Token>, pos: nat, end: nat)
    returns (q: nat)
    requires i < |es|
    requires forall j :: 0 <= j < |es| && es[j].init.Some? ==> WellFormed(es[j].init.value)
    requires At(ts, pos, UnparseEntries(es, i))
    requires end == pos + |UnparseEntries(es, i)| && TagAhead(ts, end, 0) == ";"
    ensures pos <= |ts| && q <= |ts| && At(ts, q, UnparseEntries(es, i + 1))
    ensures end == q + |UnparseEntries(es, i + 1)|
    ensures VarEntries(ts, pos, fl + CallNames(es[..i]), es[..i])
            == VarEntries(ts, q, fl + CallNames(es[..i + 1]), es[..i + 1])
  {
    var e := es[i];
    q := EntryLayout(es, i, ts, pos, end);
    CallNamesStep(es, i, fl);
    if e.init.Some? {
      ExprReads(e.init.value, ts, pos + 2);
      EntryInitStep(ts, pos, fl + CallNames(es[..i]), es[..i], e.name, e.init.value, q);
    } else {
      EntryBareStep(ts, pos, fl + CallNames(es[..i]), es[..i], e.name);
    }
  }

  /** Where the parts of a printed entry lie; the next one starts at q. */
  lemma {:induction false} EntryLayout(es: seq<VarEntry>, i: nat, ts: seq<Token>, pos: nat, end: nat) returns (q: nat)
    requires i < |es|
    requires At(ts, pos, UnparseEntries(es, i))
    requires end == pos + |UnparseEntries(es, i)| && TagAhead(ts, end, 0) == ";"
    ensures pos < |ts| && ts[pos] == Name(es[i].name)
    ensures es[i].init.Some? ==>
              pos + 1 < |ts| && ts[pos + 1].tag == "=" && At(ts, pos + 2, Unparse(es[i].init.value, 0))
              && q == pos + 2 + |Unparse(es[i].init.value, 0)|
    ensures es[i].init.None? ==> q == pos + 1 && TagAhead(ts, q, 0) != "="
    ensures BinLevel(TagAhead(ts, q, 0)) == 8
    ensures q <= |ts| && At(ts, q, UnparseEntries(es, i + 1)) && end == q + |UnparseEntries(es, i + 1)|
  {
    var e := es[i];
    var init: seq<Token> := if e.init.Some? then [Mark("=")] + Unparse(e.init.value, 0) else [];
    var rest := UnparseEntries(es, i + 1);
    assert UnparseEntries(es, i) == [Name(e.name)] + init + rest;
    AtSplit3(ts, pos, [Name(e.name)], init, rest);
    FirstAt(ts, pos, [Name(e.name)]);
    q := pos + 1 + |init|;
    EntryFollow(es, i, ts, q, end);
    if e.init.Some? {
      AtParts(ts, pos + 1, [Mark("=")], Unparse(e.init.value, 0));
      FirstAt(ts, pos + 1, [Mark("=")]);
    }
  }

  /** After an entry comes the next entry's name or the closing ';'. */
  lemma {:induction false} EntryFollow(es: seq<VarEntry>, i: nat, ts: seq<Token>, q: nat, end: nat)
    requires i < |es|
    requires At(ts, q, UnparseEntries(es, i + 1))
    requires end == q + |UnparseEntries(es, i + 1)| && TagAhead(ts, end, 0) == ";"
    ensures TagAhead(ts, q, 0) == "id" || TagAhead(ts, q, 0) == ";"
    ensures BinLevel(TagAhead(ts, q, 0)) == 8
  {
    if i + 1 < |es| {
      var rest := UnparseEntries(es, i + 1);
      assert rest[0] == Name(es[i + 1].name);
      FirstAt(ts, q, rest);
    }
  }

  /** The names the first i + 1 entries register. */
  lemma {:induction false} CallNamesStep(es: seq<VarEntry>, i: nat, fl: seq<Value>)
    requires i < |es|
    ensures var e := es[i];
            var fl0 := fl + CallNames(es[..i]);
            (if e.init.Some? && e.init.value.Call? then fl0 + [e.name] else fl0) == fl + CallNames(es[..i + 1])
    ensures es[..i] + [es[i]] == es[..i + 1]
  {
    var e := es[i];
    assert (es[..i + 1])[..i] == es[..i] && es[..i + 1][i] == e;
    if e.init.Some? && e.init.value.Call? {
      Associate(fl, CallNames(es[..i]), [e.name]);
    } else {
      assert CallNames(es[..i + 1]) == CallNames(es[..i]) + [];
    }
  }

  lemma {:induction false} EntryInitStep(ts: seq<Token>, pos: nat, fl: seq<Value>, acc: seq<VarEntry>, name: Value, init: Expr, q: nat)
    requires pos + 1 < |ts| && ts[pos] == Name(name) && ts[pos + 1].tag == "="
    requires ExprAt(ts, pos + 2) == Ok(Parsed(init, q))
    ensures q <= |ts|
    ensures VarEntries(ts, pos, fl, acc)
            == VarEntries(ts, q, if init.Call? then fl + [name] else fl, acc + [VarEntry(name, Some(init))])
  {
  }

  lemma {:induction false} EntryBareStep(ts: seq<Token>, pos: nat, fl: seq<Value>, acc: seq<VarEntry>, name: Value)
    requires pos < |ts| && ts[pos] == Name(name) && TagAhead(ts, pos + 1, 0) != "="
    ensures VarEntries(ts, pos, fl, acc) == VarEntries(ts, pos + 1, fl, acc + [VarEntry(name, None)])
  {
  }

  /** The parameters of a printed definition are read back up to its ')'. */
  lemma {:induction false} ParamsReads(ps: seq<Value>, ts: seq<Token>, pos: nat)
    requires At(ts, pos, UnparseParams(ps, 0))
    requires TagAhead(ts, pos + |UnparseParams(ps, 0)|, 0) == ")"
    ensures ParamsAt(ts, pos) == Ok(Parsed(ps, pos + |UnparseParams(ps, 0)|))
  {
    if ps != [] {
      assert UnparseParams(ps, 0) == [Name(ps[0])] + UnparseParams(ps, 1);
      AtHead(ts, pos, Name(ps[0]), UnparseParams(ps, 1));
      assert ps[..1] == [ps[0]];
      ParamsLoopReads(ps, 1, ts, pos + 1);
    }
  }

  lemma {:induction false} ParamsLoopReads(ps: seq<Value>, i: nat, ts: seq<Token>, pos: nat)
    requires 1 <= i <= |ps|
    requires At(ts, pos, UnparseParams(ps, i))
    requires TagAhead(ts, pos + |UnparseParams(ps, i)|, 0) == ")"
    ensures ParamsLoop(ts, pos, ps[..i]) == Ok(Parsed(ps, pos + |UnparseParams(ps, i)|))
    decreases |ps| - i
  {
    if i == |ps| {
      assert ps[..i] == ps;
    } else {
      assert UnparseParams(ps, i) == [Comma] + ([Name(ps[i])] + UnparseParams(ps, i + 1));
      AtHead(ts, pos, Comma, [Name(ps[i])] + UnparseParams(ps, i + 1));
      AtHead(ts, pos + 1, Name(ps[i]), UnparseParams(ps, i + 1));
      assert ps[..i] + [ps[i]] == ps[..i + 1];
      ParamsLoopReads(ps, i + 1, ts, pos + 2);
    }
  }

  // ---------------------------------------------------------------------------
  // One step of each statement production, given what its parts read

  lemma {:induction false} ReturnNoneStep(ts: seq<Token>, pos: nat, fl: seq<Value>)
    requires TagAhead(ts, pos, 0) == "return" && TagAhead(ts, pos + 1, 0) == ";"
    ensures StatementAt(ts, pos, fl) == Ok(Stepped(Return(None), pos + 2, fl))
  {
  }

  lemma {:induction false} ReturnSomeStep(ts: seq<Token>, pos: nat, fl: seq<Value>, e: Expr, q: nat)
    requires TagAhead(ts, pos, 0) == "return" && TagAhead(ts, pos + 1, 0) != ";"
    requires pos + 1 <= |ts| && ExprAt(ts, pos + 1) == Ok(Parsed(e, q)) && TagAhead(ts, q, 0) == ";"
    ensures StatementAt(ts, pos, fl) == Ok(Stepped(Return(Some(e)), q + 1, fl))
  {
  }

  lemma {:induction false} PrintStep(ts: seq<Token>, pos: nat, fl: seq<Value>, args: seq<Expr>, q: nat)
    requires TagAhead(ts, pos, 0) == "print" && TagAhead(ts, pos + 1, 0) == "("
    requires pos + 2 <= |ts| && PrintArgs(ts, pos + 2, []) == Ok(Parsed(args, q))
    requires TagAhead(ts, q, 0) == ")" && TagAhead(ts, q + 1, 0) == ";"
    ensures StatementAt(ts, pos, fl) == Ok(Stepped(Print(args), q + 2, fl))
  {
  }

  lemma {:induction false} VarStep(ts: seq<Token>, pos: nat, fl: seq<Value>, es: seq<VarEntry>, q: nat, fl2: seq<Value>)
    requires TagAhead(ts, pos, 0) == "var"
    requires pos + 1 <= |ts| && VarEntries(ts, pos + 1, fl, []) == Ok(Stepped(es, q, fl2))
    requires TagAhead(ts, q, 0) == ";"
    ensures StatementAt(ts, pos, fl) == Ok(Stepped(Var(es), q + 1, fl2))
  {
  }

  lemma {:induction false} AssignStep(ts: seq<Token>, pos: nat, fl: seq<Value>, name: Value, v: Expr, q: nat)
    requires pos + 1 < |ts| && ts[pos] == Name(name) && name !in fl && ts[pos + 1].tag == "="
    requires ExprAt(ts, pos + 2) == Ok(Parsed(v, q)) && TagAhead(ts, q, 0) == ";"
    ensures StatementAt(ts, pos, fl) == Ok(Stepped(Assign(name, v), q + 1, fl))
  {
  }

  lemma {:induction false} FuncUseStep(ts: seq<Token>, pos: nat, fl: seq<Value>, e: Expr, q: nat)
    requires pos < |ts| && ts[pos].tag == "id" && ts[pos].val.Some? && ts[pos].val.value in fl
    requires ExprAt(ts, pos) == Ok(Parsed(e, q)) && TagAhead(ts, q, 0) == ";"
    ensures StatementAt(ts, pos, fl) == Ok(Stepped(FuncUse(e), q + 1, fl))
  {
  }

  lemma {:induction false} WhileStep(ts: seq<Token>, pos: nat, fl: seq<Value>, c: Expr, q: nat, b: Stmt, q2: nat, fl2: seq<Value>)
    requires TagAhead(ts, pos, 0) == "while"
    requires pos + 1 <= |ts| && ExprAt(ts, pos + 1) == Ok(Parsed(c, q))
    requires q <= |ts| && ClauseAt(ts, q, fl) == Ok(Stepped(b, q2, fl2))
    ensures StatementAt(ts, pos, fl) == Ok(Stepped(While(c, b), q2, fl2))
  {
  }

  /** if without else: the branch is None exactly because no 'else' follows the clause. */
  lemma {:induction false} IfStep(ts: seq<Token>, pos: nat, fl: seq<Value>, c: Expr, q: nat, th: Stmt, q2: nat, fl2: seq<Value>)
    requires TagAhead(ts, pos, 0) == "if"
    requires pos + 1 <= |ts| && ExprAt(ts, pos + 1) == Ok(Parsed(c, q))
    requires q <= |ts| && ClauseAt(ts, q, fl) == Ok(Stepped(th, q2, fl2))
    requires TagAhead(ts, q2, 0) != "else"
    ensures StatementAt(ts, pos, fl) == Ok(Stepped(If(c, th, "else", None), q2, fl2))
  {
  }

  lemma {:induction false} IfElseStep(ts: seq<Token>, pos: nat, fl: seq<Value>, c: Expr, q: nat, th: Stmt, q2: nat, fl2: seq<Value>,
                                      el: Stmt, q3: nat, fl3: seq<Value>)
    requires TagAhead(ts, pos, 0) == "if"
    requires pos + 1 <= |ts| && ExprAt(ts, pos + 1) == Ok(Parsed(c, q))
    requires q <= |ts| && ClauseAt(ts, q, fl) == Ok(Stepped(th, q2, fl2))
    requires TagAhead(ts, q2, 0) == "else"
    requires q2 + 1 <= |ts| && ClauseAt(ts, q2 + 1, fl2) == Ok(Stepped(el, q3, fl3))
    ensures StatementAt(ts, pos, fl) == Ok(Stepped(If(c, th, "else", Some(el)), q3, fl3))
  {
  }

  lemma {:induction false} FunDefStep(ts: seq<Token>, pos: nat, fl: seq<Value>, name: Value, ps: seq<Value>, q: nat,
                                      body: Stmt, q2: nat, fl2: seq<Value>)
    requires TagAhead(ts, pos, 0) == "fun" && pos + 1 < |ts| && ts[pos + 1] == Name(name)
    requires TagAhead(ts, pos + 2, 0) == "("
    requires pos + 3 <= |ts| && ParamsAt(ts, pos + 3) == Ok(Parsed(ps, q)) && TagAhead(ts, q, 0) == ")"
    requires q + 1 <= |ts| && BlockAt(ts, q + 1, fl + [name]) == Ok(Stepped(body, q2, fl2))
    ensures StatementAt(ts, pos, fl) == Ok(Stepped(FunDef(name, ps, body), q2, fl2))
  {
  }

  lemma {:induction false} BlockStep(ts: seq<Token>, pos: nat, fl: seq<Value>, ss: seq<Stmt>, q: nat, fl2: seq<Value>)
    requires TagAhead(ts, pos, 0) == "{"
    requires pos + 1 <= |ts| && BlockItems(ts, pos + 1, fl, []) == Ok(Stepped(ss, q, fl2))
    requires TagAhead(ts, q, 0) == "}"
    ensures BlockAt(ts, pos, fl) == Ok(Stepped(Block(ss), q + 1, fl2))
  {
  }

  lemma {:induction false} BlockItemsStep(ts: seq<Token>, pos: nat, fl: seq<Value>, acc: seq<Stmt>, s: Stmt, q: nat, fl2: seq<Value>)
    requires pos <= |ts| && TagAhead(ts, pos, 0) != "}"
    requires StatementAt(ts, pos, fl) == Ok(Stepped(s, q, fl2))
    ensures q <= |ts| && BlockItems(ts, pos, fl, acc) == BlockItems(ts, q, fl2, acc + [s])
  {
  }

  lemma {:induction false} ProgramItemsStep(ts: seq<Token>, pos: nat, fl: seq<Value>, acc: seq<Stmt>, s: Stmt, q: nat, fl2: seq<Value>)
    requires pos <= |ts| && TagAhead(ts, pos, 0) != "eof"
    requires StatementAt(ts, pos, fl) == Ok(Stepped(s, q, fl2))
    ensures q <= |ts| && ProgramItems(ts, pos, fl, acc) == ProgramItems(ts, q, fl2, acc + [s])
  {
  }

  // ---------------------------------------------------------------------------
  // Statements

  /** A printed statement, not a block, is read back by statement(), which leaves the
      function-name list with the names the statement registers appended. */
  lemma {:induction false} StatementReads(s: Stmt, fl: seq<Value>, ts: seq<Token>, pos: nat)
    requires Shaped(s, fl) && !s.Block?
    requires At(ts, pos, UnparseStmt(s)) && Closes(s, ts, pos + |UnparseStmt(s)|)
    ensures StatementAt(ts, pos, fl) == Ok(Stepped(s, pos + |UnparseStmt(s)|, fl + Registered(s)))
    decreases s, 2, 0
  {
    match s
    case Return(_) => ReturnReads(s, fl, ts, pos);
    case Print(_) => PrintReads(s, fl, ts, pos);
    case Var(_) => VarReads(s, fl, ts, pos);
    case Assign(_, _) => AssignReads(s, fl, ts, pos);
    case FuncUse(_) => FuncUseReads(s, fl, ts, pos);
    case While(_, _) => WhileReads(s, fl, ts, pos);
    case If(_, _, _, _) => IfReads(s, fl, ts, pos);
    case FunDef(_, _, _) => FunDefReads(s, fl, ts, pos);
  }

  /** A printed clause, a block or a single statement, is read back. */
  lemma {:induction false} ClauseReads(s: Stmt, fl: seq<Value>, ts: seq<Token>, pos: nat)
    requires Shaped(s, fl)
    requires At(ts, pos, UnparseStmt(s)) && Closes(s, ts, pos + |UnparseStmt(s)|)
    ensures ClauseAt(ts, pos, fl) == Ok(Stepped(s, pos + |UnparseStmt(s)|, fl + Registered(s)))
    decreases s, 3, 0
  {
    StmtStartAt(s, fl, ts, pos);
    if s.Block? {
      BlockReads(s.stmts, fl, ts, pos);
    } else {
      StatementReads(s, fl, ts, pos);
    }
  }

  /** Where the parts of a printed return lie; q is the position of its ';'. */
  lemma {:induction false} ReturnLayout(s: Stmt, ts: seq<Token>, pos: nat) returns (q: nat)
    requires s.Return? && At(ts, pos, UnparseStmt(s))
    requires s.result.Some? ==> WellFormed(s.result.value)
    ensures TagAhead(ts, pos, 0) == "return" && TagAhead(ts, q, 0) == ";" && q + 1 == pos + |UnparseStmt(s)|
    ensures s.result.None? ==> q == pos + 1
    ensures s.result.Some? ==>
              TagAhead(ts, pos + 1, 0) != ";" && At(ts, pos + 1, Unparse(s.result.value, 0))
              && q == pos + 1 + |Unparse(s.result.value, 0)|
  {
    var p := UnparseStmt(s);
    FirstAt(ts, pos, p);
    if s.result.None? {
      assert p == [Mark("return")] + [Mark(";")];
      AtParts(ts, pos, [Mark("return")], [Mark(";")]);
      q := pos + 1;
    } else {
      var u := Unparse(s.result.value, 0);
      assert p == [Mark("return")] + u + [Mark(";")];
      AtSplit3(ts, pos, [Mark("return")], u, [Mark(";")]);
      UnparseStart(s.result.value, 0);
      FirstAt(ts, pos + 1, u);
      q := pos + 1 + |u|;
    }
    FirstAt(ts, q, [Mark(";")]);
  }

  lemma {:induction false} ReturnReads(s: Stmt, fl: seq<Value>, ts: seq<Token>, pos: nat)
    requires s.Return? && Shaped(s, fl) && At(ts, pos, UnparseStmt(s))
    ensures StatementAt(ts, pos, fl) == Ok(Stepped(s, pos + |UnparseStmt(s)|, fl + Registered(s)))
    decreases s, 1, 0
  {
    var q := ReturnLayout(s, ts, pos);
    if s.result.None? {
      ReturnNoneStep(ts, pos, fl);
    } else {
      ExprReads(s.result.value, ts, pos + 1);
      ReturnSomeStep(ts, pos, fl, s.result.value, q);
    }
    assert fl + Registered(s) == fl;
  }

  /** Where the parts of a printed print statement lie; q is the position of its ')'. */
  lemma {:induction false} PrintStmtLayout(s: Stmt, ts: seq<Token>, pos: nat) returns (q: nat)
    requires s.Print? && At(ts, pos, UnparseStmt(s))
    ensures TagAhead(ts, pos, 0) == "print" && TagAhead(ts, pos + 1, 0) == "("
    ensures pos + 2 <= |ts| && At(ts, pos + 2, UnparsePrintArgs(s.args, Commas(|s.args|), 0))
    ensures q == pos + 2 + |UnparsePrintArgs(s.args, Commas(|s.args|), 0)|
    ensures TagAhead(ts, q, 0) == ")" && TagAhead(ts, q + 1, 0) == ";" && q + 2 == pos + |UnparseStmt(s)|
  {
    var a := UnparsePrintArgs(s.args, Commas(|s.args|), 0);
    assert UnparseStmt(s) == [Mark("print")] + ([LParen] + (a + ([RParen] + [Mark(";")])));
    AtHead(ts, pos, Mark("print"), [LParen] + (a + ([RParen] + [Mark(";")])));
    AtHead(ts, pos + 1, LParen, a + ([RParen] + [Mark(";")]));
    AtParts(ts, pos + 2, a, [RParen] + [Mark(";")]);
    q := pos + 2 + |a|;
    AtHead(ts, q, RParen, [Mark(";")]);
    FirstAt(ts, q + 1, [Mark(";")]);
  }

  lemma {:induction false} PrintReads(s: Stmt, fl: seq<Value>, ts: seq<Token>, pos: nat)
    requires s.Print? && Shaped(s, fl) && At(ts, pos, UnparseStmt(s))
    ensures StatementAt(ts, pos, fl) == Ok(Stepped(s, pos + |UnparseStmt(s)|, fl + Registered(s)))
    decreases s, 1, 0
  {
    var q := PrintStmtLayout(s, ts, pos);
    assert s.args[..0] == [];
    PrintArgsReads(s.args, Commas(|s.args|), 0, ts, pos + 2, q);
    PrintStep(ts, pos, fl, s.args, q);
    assert fl + Registered(s) == fl;
  }

  /** Where the parts of a printed var statement lie; q is the position of its ';'. */
  lemma {:induction false} VarLayout(s: Stmt, ts: seq<Token>, pos: nat) returns (q: nat)
    requires s.Var? && At(ts, pos, UnparseStmt(s))
    ensures TagAhead(ts, pos, 0) == "var"
    ensures pos + 1 <= |ts| && At(ts, pos + 1, UnparseEntries(s.entries, 0))
    ensures q == pos + 1 + |UnparseEntries(s.entries, 0)|
    ensures TagAhead(ts, q, 0) == ";" && q + 1 == pos + |UnparseStmt(s)|
  {
    var e := UnparseEntries(s.entries, 0);
    assert UnparseStmt(s) == [Mark("var")] + e + [Mark(";")];
    AtSplit3(ts, pos, [Mark("var")], e, [Mark(";")]);
    FirstAt(ts, pos, [Mark("var")]);
    q := pos + 1 + |e|;
    FirstAt(ts, q, [Mark(";")]);
  }

  lemma {:induction false} VarReads(s: Stmt, fl: seq<Value>, ts: seq<Token>, pos: nat)
    requires s.Var? && Shaped(s, fl) && At(ts, pos, UnparseStmt(s))
    ensures StatementAt(ts, pos, fl) == Ok(Stepped(s, pos + |UnparseStmt(s)|, fl + Registered(s)))
    decreases s, 1, 0
  {
    var q := VarLayout(s, ts, pos);
    assert s.entries[..0] == [] && CallNames([]) == [] && fl + [] == fl;
    EntriesReads(s.entries, 0, fl, ts, pos + 1, q);
    VarStep(ts, pos, fl, s.entries, q, fl + CallNames(s.entries));
  }

  /** Where the parts of a printed assignment lie; q is the position of its ';'. */
  lemma {:induction false} AssignLayout(s: Stmt, ts: seq<Token>, pos: nat) returns (q: nat)
    requires s.Assign? && At(ts, pos, UnparseStmt(s))
    ensures pos + 1 < |ts| && ts[pos] == Name(s.target) && ts[pos + 1].tag == "="
    ensures At(ts, pos + 2, Unparse(s.value, 0)) && q == pos + 2 + |Unparse(s.value, 0)|
    ensures TagAhead(ts, q, 0) == ";" && q + 1 == pos + |UnparseStmt(s)|
  {
    var u := Unparse(s.value, 0);
    assert UnparseStmt(s) == [Name(s.target)] + [Mark("=")] + u + [Mark(";")];
    AtParts(ts, pos, [Name(s.target)] + [Mark("=")] + u, [Mark(";")]);
    AtSplit3(ts, pos, [Name(s.target)], [Mark("=")], u);
    FirstAt(ts, pos, [Name(s.target)]);
    FirstAt(ts, pos + 1, [Mark("=")]);
    q := pos + 2 + |u|;
    FirstAt(ts, q, [Mark(";")]);
  }

  lemma {:induction false} AssignReads(s: Stmt, fl: seq<Value>, ts: seq<Token>, pos: nat)
    requires s.Assign? && Shaped(s, fl) && At(ts, pos, UnparseStmt(s))
    ensures StatementAt(ts, pos, fl) == Ok(Stepped(s, pos + |UnparseStmt(s)|, fl + Registered(s)))
    decreases s, 1, 0
  {
    var q := AssignLayout(s, ts, pos);
    ExprReads(s.value, ts, pos + 2);
    AssignStep(ts, pos, fl, s.target, s.value, q);
    assert fl + Registered(s) == fl;
  }

  /** Where the parts of a printed function use lie; q is the position of its ';'. */
  lemma {:induction false} FuncUseLayout(s: Stmt, ts: seq<Token>, pos: nat) returns (q: nat)
    requires s.FuncUse? && At(ts, pos, UnparseStmt(s))
    ensures pos < |ts| && ts[pos] == Unparse(s.expr, 0)[0]
    ensures At(ts, pos, Unparse(s.expr, 0)) && q == pos + |Unparse(s.expr, 0)|
    ensures TagAhead(ts, q, 0) == ";" && q + 1 == pos + |UnparseStmt(s)|
  {
    var u := Unparse(s.expr, 0);
    AtParts(ts, pos, u, [Mark(";")]);
    FirstAt(ts, pos, u);
    q := pos + |u|;
    FirstAt(ts, q, [Mark(";")]);
  }

  lemma {:induction false} FuncUseReads(s: Stmt, fl: seq<Value>, ts: seq<Token>, pos: nat)
    requires s.FuncUse? && Shaped(s, fl) && At(ts, pos, UnparseStmt(s))
    ensures StatementAt(ts, pos, fl) == Ok(Stepped(s, pos + |UnparseStmt(s)|, fl + Registered(s)))
    decreases s, 1, 0
  {
    var q := FuncUseLayout(s, ts, pos);
    ExprReads(s.expr, ts, pos);
    FuncUseStep(ts, pos, fl, s.expr, q);
    assert fl + Registered(s) == fl;
  }

  /** Where the parts of a printed while lie, its condition read back; q is where its body
      starts. */
  lemma {:induction false} WhileLayout(s: Stmt, fl: seq<Value>, ts: seq<Token>, pos: nat) returns (q: nat)
    requires s.While? && Shaped(s, fl) && At(ts, pos, UnparseStmt(s))
    ensures TagAhead(ts, pos, 0) == "while" && pos + 1 <= |ts|
    ensures ExprAt(ts, pos + 1) == Ok(Parsed(s.cond, q)) && q <= |ts|
    ensures At(ts, q, UnparseStmt(s.body)) && q + |UnparseStmt(s.body)| == pos + |UnparseStmt(s)|
  {
    var u, b := Unparse(s.cond, 0), UnparseStmt(s.body);
    AtSplit3(ts, pos, [Mark("while")], u, b);
    FirstAt(ts, pos, [Mark("while")]);
    q := pos + 1 + |u|;
    StmtStartAt(s.body, fl, ts, q);
    ExprReads(s.cond, ts, pos + 1);
  }

  lemma {:induction false} WhileReads(s: Stmt, fl: seq<Value>, ts: seq<Token>, pos: nat)
    requires s.While? && Shaped(s, fl)
    requires At(ts, pos, UnparseStmt(s)) && Closes(s, ts, pos + |UnparseStmt(s)|)
    ensures StatementAt(ts, pos, fl) == Ok(Stepped(s, pos + |UnparseStmt(s)|, fl + Registered(s)))
    decreases s, 1, 0
  {
    var q := WhileLayout(s, fl, ts, pos);
    var end := q + |UnparseStmt(s.body)|;
    assert Closes(s.body, ts, end);
    ClauseReads(s.body, fl, ts, q);
    WhileStep(ts, pos, fl, s.cond, q, s.body, end, fl + Registered(s.body));
  }

  /** Where the parts of a printed if lie: q is where the then-branch starts and q2 where
      it ends. */
  lemma {:induction false} IfLayout(s: Stmt, ts: seq<Token>, pos: nat) returns (q: nat, q2: nat)
    requires s.If? && At(ts, pos, UnparseStmt(s))
    ensures TagAhead(ts, pos, 0) == "if"
    ensures pos + 1 <= |ts| && At(ts, pos + 1, Unparse(s.cond, 0)) && q == pos + 1 + |Unparse(s.cond, 0)|
    ensures At(ts, q, UnparseStmt(s.thenBranch)) && q2 == q + |UnparseStmt(s.thenBranch)|
    ensures s.elseBranch.None? ==> q2 == pos + |UnparseStmt(s)|
    ensures s.elseBranch.Some? ==>
              TagAhead(ts, q2, 0) == "else" && At(ts, q2 + 1, UnparseStmt(s.elseBranch.value))
              && q2 + 1 + |UnparseStmt(s.elseBranch.value)| == pos + |UnparseStmt(s)|
  {
    var u, t := Unparse(s.cond, 0), UnparseStmt(s.thenBranch);
    q := pos + 1 + |u|;
    q2 := q + |t|;
    if s.elseBranch.Some? {
      var e := [Mark("else")] + UnparseStmt(s.elseBranch.value);
      assert UnparseStmt(s) == [Mark("if")] + u + t + e;
      AtParts(ts, pos, [Mark("if")] + u + t, e);
      AtHead(ts, q2, Mark("else"), UnparseStmt(s.elseBranch.value));
    } else {
      assert UnparseStmt(s) == [Mark("if")] + u + t;
    }
    AtSplit3(ts, pos, [Mark("if")], u, t);
    FirstAt(ts, pos, [Mark("if")]);
  }

  /** What follows each clause of an if does not extend it: an open then-branch is the
      last clause, and the else branch ends where the whole statement does. */
  lemma {:induction false} IfCloses(s: Stmt, fl: seq<Value>, ts: seq<Token>, q2: nat, end: nat)
    requires s.If? && Shaped(s, fl) && Closes(s, ts, end)
    requires s.elseBranch.None? ==> q2 == end
    ensures Closes(s.thenBranch, ts, q2)
    ensures s.elseBranch.None? ==> TagAhead(ts, q2, 0) != "else"
    ensures s.elseBranch.Some? ==> Closes(s.elseBranch.value, ts, end)
  {
  }

  lemma {:induction false} IfReads(s: Stmt, fl: seq<Value>, ts: seq<Token>, pos: nat)
    requires s.If? && Shaped(s, fl)
    requires At(ts, pos, UnparseStmt(s)) && Closes(s, ts, pos + |UnparseStmt(s)|)
    ensures StatementAt(ts, pos, fl) == Ok(Stepped(s, pos + |UnparseStmt(s)|, fl + Registered(s)))
    decreases s, 1, 0
  {
    var end := pos + |UnparseStmt(s)|;
    var q, q2 := IfHeadReads(s, fl, ts, pos, end);
    if s.elseBranch.Some? {
      IfElseReads(s, fl, ts, pos, q, q2, end);
    } else {
      IfStep(ts, pos, fl, s.cond, q, s.thenBranch, q2, fl + Registered(s.thenBranch));
      assert Registered(s) == Registered(s.thenBranch) + [];
      assert Registered(s.thenBranch) + [] == Registered(s.thenBranch);
    }
  }

  /** The condition and the then-branch of a printed if are read back; q is where the
      branch starts and q2 where it ends. */
  lemma {:induction false} IfHeadReads(s: Stmt, fl: seq<Value>, ts: seq<Token>, pos: nat, end: nat)
    returns (q: nat, q2: nat)
    requires s.If? && Shaped(s, fl)
    requires At(ts, pos, UnparseStmt(s)) && end == pos + |UnparseStmt(s)| && Closes(s, ts, end)
    ensures TagAhead(ts, pos, 0) == "if" && pos + 1 <= |ts|
    ensures ExprAt(ts, pos + 1) == Ok(Parsed(s.cond, q)) && q <= |ts|
    ensures ClauseAt(ts, q, fl) == Ok(Stepped(s.thenBranch, q2, fl + Registered(s.thenBranch)))
    ensures s.elseBranch.None? ==> q2 == end && TagAhead(ts, q2, 0) != "else"
    ensures s.elseBranch.Some? ==>
              TagAhead(ts, q2, 0) == "else" && At(ts, q2 + 1, UnparseStmt(s.elseBranch.value))
              && end == q2 + 1 + |UnparseStmt(s.elseBranch.value)| && Closes(s.elseBranch.value, ts, end)
    decreases s, 0, 1
  {
    q, q2 := IfLayout(s, ts, pos);
    StmtStartAt(s.thenBranch, fl, ts, q);
    ExprReads(s.cond, ts, pos + 1);
    IfCloses(s, fl, ts, q2, end);
    ClauseReads(s.thenBranch, fl, ts, q);
  }

  /** The else branch of a printed if, once its condition and then-branch are read. */
  lemma {:induction false} IfElseReads(s: Stmt, fl: seq<Value>, ts: seq<Token>, pos: nat, q: nat, q2: nat, end: nat)
    requires s.If? && s.elseBranch.Some? && Shaped(s, fl)
    requires TagAhead(ts, pos, 0) == "if" && pos + 1 <= |ts|
    requires ExprAt(ts, pos + 1) == Ok(Parsed(s.cond, q)) && q <= |ts|
    requires ClauseAt(ts, q, fl) == Ok(Stepped(s.thenBranch, q2, fl + Registered(s.thenBranch)))
    requires TagAhead(ts, q2, 0) == "else" && At(ts, q2 + 1, UnparseStmt(s.elseBranch.value))
    requires end == q2 + 1 + |UnparseStmt(s.elseBranch.value)| && Closes(s.elseBranch.value, ts, end)
    ensures StatementAt(ts, pos, fl) == Ok(Stepped(s, end, fl + Registered(s)))
    decreases s, 0, 0
  {
    var el := s.elseBranch.value;
    var fl2 := fl + Registered(s.thenBranch);
    ClauseReads(el, fl2, ts, q2 + 1);
    IfElseStep(ts, pos, fl, s.cond, q, s.thenBranch, q2, fl2, el, end, fl2 + Registered(el));
    Associate(fl, Registered(s.thenBranch), Registered(el));
  }

  /** Where the parts of a printed definition lie, its parameters read back; q is the
      position of the ')' after them. */
  lemma {:induction false} FunDefLayout(s: Stmt, ts: seq<Token>, pos: nat) returns (q: nat)
    requires s.FunDef? && At(ts, pos, UnparseStmt(s))
    ensures TagAhead(ts, pos, 0) == "fun" && pos + 1 < |ts| && ts[pos + 1] == Name(s.name)
    ensures TagAhead(ts, pos + 2, 0) == "("
    ensures pos + 3 <= |ts| && ParamsAt(ts, pos + 3) == Ok(Parsed(s.params, q))
    ensures TagAhead(ts, q, 0) == ")" && At(ts, q + 1, UnparseStmt(s.body))
    ensures q + 1 + |UnparseStmt(s.body)| == pos + |UnparseStmt(s)|
  {
    var p, b := UnparseParams(s.params, 0), UnparseStmt(s.body);
    var head := [Mark("fun"), Name(s.name), LParen];
    assert UnparseStmt(s) == head + p + ([RParen] + b);
    AtSplit3(ts, pos, head, p, [RParen] + b);
    assert head == [Mark("fun")] + ([Name(s.name)] + [LParen]);
    AtHead(ts, pos, Mark("fun"), [Name(s.name)] + [LParen]);
    AtHead(ts, pos + 1, Name(s.name), [LParen]);
    FirstAt(ts, pos + 2, [LParen]);
    q := pos + 3 + |p|;
    AtHead(ts, q, RParen, b);
    ParamsReads(s.params, ts, pos + 3);
  }

  lemma {:induction false} FunDefReads(s: Stmt, fl: seq<Value>, ts: seq<Token>, pos: nat)
    requires s.FunDef? && Shaped(s, fl) && At(ts, pos, UnparseStmt(s))
    ensures StatementAt(ts, pos, fl) == Ok(Stepped(s, pos + |UnparseStmt(s)|, fl + Registered(s)))
    decreases s, 1, 0
  {
    var q := FunDefLayout(s, ts, pos);
    BlockReads(s.body.stmts, fl + [s.name], ts, q + 1);
    FunDefStep(ts, pos, fl, s.name, s.params, q, s.body, pos + |UnparseStmt(s)|, fl + [s.name] + Registered(s.body));
    Associate(fl, [s.name], Registered(s.body));
  }

  // ---------------------------------------------------------------------------
  // Blocks and programs

  /** Where the parts of a printed block lie; q is the position of its '}'. */
  lemma {:induction false} BlockLayout(ss: seq<Stmt>, ts: seq<Token>, pos: nat) returns (q: nat)
    requires At(ts, pos, UnparseStmt(Block(ss)))
    ensures TagAhead(ts, pos, 0) == "{"
    ensures pos + 1 <= |ts| && At(ts, pos + 1, UnparseItems(ss, 0)) && q == pos + 1 + |UnparseItems(ss, 0)|
    ensures TagAhead(ts, q, 0) == "}" && q + 1 == pos + |UnparseStmt(Block(ss))|
  {
    var items := UnparseItems(ss, 0);
    AtSplit3(ts, pos, [Mark("{")], items, [Mark("}")]);
    FirstAt(ts, pos, [Mark("{")]);
    q := pos + 1 + |items|;
    FirstAt(ts, q, [Mark("}")]);
  }

  /** A printed block is read back by block(). */
  lemma {:induction false} BlockReads(ss: seq<Stmt>, fl: seq<Value>, ts: seq<Token>, pos: nat)
    requires ItemsShaped(ss, fl) && At(ts, pos, UnparseStmt(Block(ss)))
    ensures BlockAt(ts, pos, fl)
            == Ok(Stepped(Block(ss), pos + |UnparseStmt(Block(ss))|, fl + RegisteredAll(ss)))
    decreases ss, 2, 0
  {
    var q := BlockLayout(ss, ts, pos);
    assert ss[..0] == [] && RegisteredAll([]) == [] && fl + [] == fl;
    ItemsReads(ss, 0, fl, ts, pos + 1, q);
    BlockStep(ts, pos, fl, ss, q, fl + RegisteredAll(ss));
  }

  /** One printed statement of a block or a program, and what follows it up to the tag
      stop at end; the next statement starts at q. */
  lemma {:induction false} ItemLayout(ss: seq<Stmt>, i: nat, fl: seq<Value>, ts: seq<Token>, pos: nat, end: nat, stop: string)
    returns (q: nat)
    requires i < |ss| && ItemsShaped(ss, fl) && stop != "else"
    requires At(ts, pos, UnparseItems(ss, i))
    requires end == pos + |UnparseItems(ss, i)| && TagAhead(ts, end, 0) == stop
    ensures q == pos + |UnparseStmt(ss[i])|
    ensures At(ts, pos, UnparseStmt(ss[i])) && At(ts, q, UnparseItems(ss, i + 1))
    ensures end == q + |UnparseItems(ss, i + 1)|
    ensures !ss[i].Block? && Shaped(ss[i], fl + RegisteredAll(ss[..i])) && Closes(ss[i], ts, q)
    ensures TagAhead(ts, pos, 0) != "}" && TagAhead(ts, pos, 0) != "eof"
  {
    var a, rest := UnparseStmt(ss[i]), UnparseItems(ss, i + 1);
    assert UnparseItems(ss, i) == a + rest;
    AtParts(ts, pos, a, rest);
    StmtStartAt(ss[i], fl + RegisteredAll(ss[..i]), ts, pos);
    q := pos + |a|;
    if i + 1 < |ss| {
      assert rest == UnparseStmt(ss[i + 1]) + UnparseItems(ss, i + 2);
      AtParts(ts, q, UnparseStmt(ss[i + 1]), UnparseItems(ss, i + 2));
      StmtStartAt(ss[i + 1], fl + RegisteredAll(ss[..i + 1]), ts, q);
    }
  }

  /** The registered names of the first i + 1 statements. */
  lemma {:induction false} RegisteredStep(ss: seq<Stmt>, i: nat, fl: seq<Value>)
    requires i < |ss|
    ensures fl + RegisteredAll(ss[..i]) + Registered(ss[i]) == fl + RegisteredAll(ss[..i + 1])
    ensures ss[..i] + [ss[i]] == ss[..i + 1]
  {
    assert (ss[..i + 1])[..i] == ss[..i] && ss[..i + 1][i] == ss[i];
    Associate(fl, RegisteredAll(ss[..i]), Registered(ss[i]));
  }

  lemma {:induction false} ItemsReads(ss: seq<Stmt>, i: nat, fl: seq<Value>, ts: seq<Token>, pos: nat, end: nat)
    requires i <= |ss| && ItemsShaped(ss, fl)
    requires At(ts, pos, UnparseItems(ss, i))
    requires end == pos + |UnparseItems(ss, i)| && TagAhead(ts, end, 0) == "}"
    ensures BlockItems(ts, pos, fl + RegisteredAll(ss[..i]), ss[..i]) == Ok(Stepped(ss, end, fl + RegisteredAll(ss)))
    decreases ss, 1, |ss| - i
  {
    if i == |ss| {
      assert ss[..i] == ss;
    } else {
      var q := BlockItemsAdvance(ss, i, fl, ts, pos, end);
      ItemsReads(ss, i + 1, fl, ts, q, end);
    }
  }

  /** One statement of a printed block read by the loop of block(); the next one starts
      at q. */
  lemma {:induction false} BlockItemsAdvance(ss: seq<Stmt>, i: nat, fl: seq<Value>, ts: seq<Token>, pos: nat, end: nat)
    returns (q: nat)
    requires i < |ss| && ItemsShaped(ss, fl)
    requires At(ts, pos, UnparseItems(ss, i))
    requires end == pos + |UnparseItems(ss, i)| && TagAhead(ts, end, 0) == "}"
    ensures pos <= |ts| && q <= |ts| && At(ts, q, UnparseItems(ss, i + 1))
    ensures end == q + |UnparseItems(ss, i + 1)|
    ensures BlockItems(ts, pos, fl + RegisteredAll(ss[..i]), ss[..i])
            == BlockItems(ts, q, fl + RegisteredAll(ss[..i + 1]), ss[..i + 1])
    decreases ss, 0, 1
  {
    q := ItemReads(ss, i, fl, ts, pos, end, "}");
    BlockItemsStep(ts, pos, fl + RegisteredAll(ss[..i]), ss[..i], ss[i], q, fl + RegisteredAll(ss[..i + 1]));
  }

  /** The statement at index i of a printed list is read back, and the rest of the list
      follows it from q on. */
  lemma {:induction false} ItemReads(ss: seq<Stmt>, i: nat, fl: seq<Value>, ts: seq<Token>, pos: nat, end: nat, stop: string)
    returns (q: nat)
    requires i < |ss| && ItemsShaped(ss, fl) && stop != "else"
    requires At(ts, pos, UnparseItems(ss, i))
    requires end == pos + |UnparseItems(ss, i)| && TagAhead(ts, end, 0) == stop
    ensures pos < q <= |ts| && At(ts, q, UnparseItems(ss, i + 1))
    ensures end == q + |UnparseItems(ss, i + 1)|
    ensures TagAhead(ts, pos, 0) != "}" && TagAhead(ts, pos, 0) != "eof"
    ensures StatementAt(ts, pos, fl + RegisteredAll(ss[..i])) == Ok(Stepped(ss[i], q, fl + RegisteredAll(ss[..i + 1])))
    ensures ss[..i] + [ss[i]] == ss[..i + 1]
    decreases ss, 0, 0
  {
    q := ItemLayout(ss, i, fl, ts, pos, end, stop);
    StatementReads(ss[i], fl + RegisteredAll(ss[..i]), ts, pos);
    RegisteredStep(ss, i, fl);
  }

  lemma {:induction false} ProgramItemsReads(ss: seq<Stmt>, i: nat, fl: seq<Value>, ts: seq<Token>, pos: nat, end: nat)
    requires i <= |ss| && ItemsShaped(ss, fl)
    requires At(ts, pos, UnparseItems(ss, i))
    requires end == pos + |UnparseItems(ss, i)| && TagAhead(ts, end, 0) == "eof"
    ensures ProgramItems(ts, pos, fl + RegisteredAll(ss[..i]), ss[..i]) == Ok(Stepped(ss, end, fl + RegisteredAll(ss)))
    decreases |ss| - i
  {
    if i == |ss| {
      assert ss[..i] == ss;
    } else {
      var q := ProgramItemsAdvance(ss, i, fl, ts, pos, end);
      ProgramItemsReads(ss, i + 1, fl, ts, q, end);
    }
  }

  /** One statement of a printed program read by the loop of program(); the next one
      starts at q. */
  lemma {:induction false} ProgramItemsAdvance(ss: seq<Stmt>, i: nat, fl: seq<Value>, ts: seq<Token>, pos: nat, end: nat)
    returns (q: nat)
    requires i < |ss| && ItemsShaped(ss, fl)
    requires At(ts, pos, UnparseItems(ss, i))
    requires end == pos + |UnparseItems(ss, i)| && TagAhead(ts, end, 0) == "eof"
    ensures pos <= |ts| && q <= |ts| && At(ts, q, UnparseItems(ss, i + 1))
    ensures end == q + |UnparseItems(ss, i + 1)|
    ensures ProgramItems(ts, pos, fl + RegisteredAll(ss[..i]), ss[..i])
            == ProgramItems(ts, q, fl + RegisteredAll(ss[..i + 1]), ss[..i + 1])
  {
    q := ItemReads(ss, i, fl, ts, pos, end, "eof");
    ProgramItemsStep(ts, pos, fl + RegisteredAll(ss[..i]), ss[..i], ss[i], q, fl + RegisteredAll(ss[..i + 1]));
  }

  /** The statement round trip: a printed program, closed by the end-of-input token the
      lexer appends, parses back to the same program. */
  lemma {:induction false} ProgramRoundTrip(p: Program)
    requires ItemsShaped(p.stmts, [])
    ensures ParseProgram(UnparseItems(p.stmts, 0) + [Eof]) == Ok(p)
  {
    var u := UnparseItems(p.stmts, 0);
    var ts := u + [Eof];
    forall k | 0 <= k < |u|
      ensures ts[0 + k] == u[k]
    {
    }
    assert TagAhead(ts, |u|, 0) == "eof";
    var none: seq<Value> := [];
    assert p.stmts[..0] == [] && RegisteredAll([]) == none && none + none == none;
    ProgramItemsReads(p.stmts, 0, none, ts, 0, |u|);
  }
}
