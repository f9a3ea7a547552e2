/** The statement productions of work2.py:201-335 as functions of a token list, a position
    and the function-name list: each returns the tree it builds, the position after its last
    token and the function-name list after it. */
module StmtGrammar {
  import opened Wrappers
  import opened Tokens
  import opened TokenStream
  import opened Ast
  import opened ExprGrammar

  /** A parsed piece together with the position after it and the function-name list
      (func_list) as the parse leaves it. */
  datatype Stepped<+T> = Stepped(node: T, next: nat, funcs: seq<Value>)

  /** A method's result r, final position pos and final function-name list funcs are the
      ones the specification function gives, or its error. */
  ghost predicate AgreesStep<T, E>(spec: Result<Stepped<T>, E>, r: Result<T, E>, pos: nat, funcs: seq<Value>)
  {
    match spec
    case Ok(s) => r == Ok(s.node) && pos == s.next && funcs == s.funcs
    case Err(e) => r == Err(e)
  }

  /** A statement that leaves the function-name list as it found it. */
  function Keep(r: Result<Parsed<Stmt>, ParseError>, fl: seq<Value>): Result<Stepped<Stmt>, ParseError>
  {
    match r
    case Err(e) => Err(e)
    case Ok(p) => Ok(Stepped(p.node, p.next, fl))
  }

  /** statement(): dispatch on the current tag. An identifier-led statement is a function
      use when the identifier is in the function-name list and an assignment otherwise. */
  function StatementAt(ts: seq<Token>, pos: nat, fl: seq<Value>): (r: Result<Stepped<Stmt>, ParseError>)
    requires pos <= |ts|
    ensures r.Ok? ==> pos < r.value.next <= |ts| && Clean(ts, pos, r.value.next)
    decreases |ts| - pos, 3
  {
    var t := TagAhead(ts, pos, 0);
    if t == "return" then Keep(ReturnAt(ts, pos), fl)
    else if t == "fun" then FunDefAt(ts, pos, fl)
    else if t == "if" then IfAt(ts, pos, fl)
    else if t == "print" then Keep(PrintAt(ts, pos), fl)
    else if t == "var" then VarAt(ts, pos, fl)
    else if t == "while" then WhileAt(ts, pos, fl)
    else if t == "id" then
      match Payload(ts[pos])
      case Err(e) => Err(e)
      case Ok(name) =>
        if name in fl then Keep(FuncUseAt(ts, pos), fl) else Keep(AssignAt(ts, pos), fl)
    else Err(Unexpected(t))
  }

  /** func_use(): an expression followed by ';'. */
  function FuncUseAt(ts: seq<Token>, pos: nat): (r: Result<Parsed<Stmt>, ParseError>)
    requires pos <= |ts|
    ensures r.Ok? ==> pos < r.value.next <= |ts| && Clean(ts, pos, r.value.next)
  {
    match ExprAt(ts, pos)
    case Err(e) => Err(e)
    case Ok(e) =>
      match MatchAt(ts, e.next, {";"})
      case Err(err) => Err(err)
      case Ok(semi) => Ok(Parsed(FuncUse(e.node), semi.next))
  }

  /** assign_statement(): name '=' expression ';'. */
  function AssignAt(ts: seq<Token>, pos: nat): (r: Result<Parsed<Stmt>, ParseError>)
    requires pos <= |ts|
    ensures r.Ok? ==> pos < r.value.next <= |ts| && Clean(ts, pos, r.value.next)
  {
    match MatchAt(ts, pos, {"id"})
    case Err(e) => Err(e)
    case Ok(id) =>
      match Payload(id.node)
      case Err(e) => Err(e)
      case Ok(name) =>
        match MatchAt(ts, id.next, {"="})
        case Err(e) => Err(e)
        case Ok(eq) =>
          match ExprAt(ts, eq.next)
          case Err(e) => Err(e)
          case Ok(value) =>
            match MatchAt(ts, value.next, {";"})
            case Err(e) => Err(e)
            case Ok(semi) => Ok(Parsed(Assign(name, value.node), semi.next))
  }

  /** var_statement(): 'var', entries up to ';', then ';'. */
  function VarAt(ts: seq<Token>, pos: nat, fl: seq<Value>): (r: Result<Stepped<Stmt>, ParseError>)
    requires pos <= |ts|
    ensures r.Ok? ==> pos < r.value.next <= |ts| && Clean(ts, pos, r.value.next)
  {
    match MatchAt(ts, pos, {"var"})
    case Err(e) => Err(e)
    case Ok(kw) =>
      match VarEntries(ts, kw.next, fl, [])
      case Err(e) => Err(e)
      case Ok(entries) =>
        match MatchAt(ts, entries.next, {";"})
        case Err(e) => Err(e)
        case Ok(semi) => Ok(Stepped(Var(entries.node), semi.next, entries.funcs))
  }

  /** The entry loop of var_statement(): until ';', a name and, after '=', an initializer.
      A name whose initializer is a function call joins the function-name list. */
  function VarEntries(ts: seq<Token>, pos: nat, fl: seq<Value>, acc: seq<VarEntry>): (r: Result<Stepped<seq<VarEntry>>, ParseError>)
    requires pos <= |ts|
    ensures r.Ok? ==> pos <= r.value.next <= |ts| && Clean(ts, pos, r.value.next)
    decreases |ts| - pos
  {
    if TagAhead(ts, pos, 0) == ";" then Ok(Stepped(acc, pos, fl))
    else
      match MatchAt(ts, pos, {"id"})
      case Err(e) => Err(e)
      case Ok(id) =>
        match Payload(id.node)
        case Err(e) => Err(e)
        case Ok(name) =>
          if TagAhead(ts, id.next, 0) == "=" then
            match ExprAt(ts, id.next + 1)
            case Err(e) => Err(e)
            case Ok(init) =>
              var fl' := if init.node.Call? then fl + [name] else fl;
              VarEntries(ts, init.next, fl', acc + [VarEntry(name, Some(init.node))])
          else VarEntries(ts, id.next, fl, acc + [VarEntry(name, None)])
  }

  /** print_statement(): 'print' '(' arguments ')' ';'. */
  function PrintAt(ts: seq<Token>, pos: nat): (r: Result<Parsed<Stmt>, ParseError>)
    requires pos <= |ts|
    ensures r.Ok? ==> pos < r.value.next <= |ts| && Clean(ts, pos, r.value.next)
  {
    match MatchAt(ts, pos, {"print"})
    case Err(e) => Err(e)
    case Ok(kw) =>
      match MatchAt(ts, kw.next, {"("})
      case Err(e) => Err(e)
      case Ok(open) =>
        match PrintArgs(ts, open.next, [])
        case Err(e) => Err(e)
        case Ok(args) =>
          match MatchAt(ts, args.next, {")"})
          case Err(e) => Err(e)
          case Ok(close) =>
            match MatchAt(ts, close.next, {";"})
            case Err(e) => Err(e)
            case Ok(semi) => Ok(Parsed(Print(args.node), semi.next))
  }

  /** The argument loop of print_statement(): until ')', an expression and then, when one
      follows, a ','. The comma is optional. */
  function PrintArgs(ts: seq<Token>, pos: nat, acc: seq<Expr>): (r: Result<Parsed<seq<Expr>>, ParseError>)
    requires pos <= |ts|
    ensures r.Ok? ==> pos <= r.value.next <= |ts| && Clean(ts, pos, r.value.next)
    decreases |ts| - pos
  {
    if TagAhead(ts, pos, 0) == ")" then Ok(Parsed(acc, pos))
    else
      match ExprAt(ts, pos)
      case Err(e) => Err(e)
      case Ok(arg) =>
        var next := if TagAhead(ts, arg.next, 0) == "," then arg.next + 1 else arg.next;
        PrintArgs(ts, next, acc + [arg.node])
  }

  /** return_statement(): 'return', an expression unless ';' comes first, then ';'. */
  function ReturnAt(ts: seq<Token>, pos: nat): (r: Result<Parsed<Stmt>, ParseError>)
    requires pos <= |ts|
    ensures r.Ok? ==> pos < r.value.next <= |ts| && Clean(ts, pos, r.value.next)
  {
    match MatchAt(ts, pos, {"return"})
    case Err(e) => Err(e)
    case Ok(kw) =>
      if TagAhead(ts, kw.next, 0) == ";" then Ok(Parsed(Return(None), kw.next + 1))
      else
        match ExprAt(ts, kw.next)
        case Err(e) => Err(e)
        case Ok(value) =>
          match MatchAt(ts, value.next, {";"})
          case Err(e) => Err(e)
          case Ok(semi) => Ok(Parsed(Return(Some(value.node)), semi.next))
  }

  /** The body of while and of both branches of if: a block when '{' comes first, a single
      statement otherwise. */
  function ClauseAt(ts: seq<Token>, pos: nat, fl: seq<Value>): (r: Result<Stepped<Stmt>, ParseError>)
    requires pos <= |ts|
    ensures r.Ok? ==> pos < r.value.next <= |ts| && Clean(ts, pos, r.value.next)
    decreases |ts| - pos, 4
  {
    if TagAhead(ts, pos, 0) != "{" then StatementAt(ts, pos, fl) else BlockAt(ts, pos, fl)
  }

  /** while_statement(): 'while', a condition and a clause. */
  function WhileAt(ts: seq<Token>, pos: nat, fl: seq<Value>): (r: Result<Stepped<Stmt>, ParseError>)
    requires pos <= |ts|
    ensures r.Ok? ==> pos < r.value.next <= |ts| && Clean(ts, pos, r.value.next)
    decreases |ts| - pos, 2
  {
    match MatchAt(ts, pos, {"while"})
    case Err(e) => Err(e)
    case Ok(kw) =>
      match ExprAt(ts, kw.next)
      case Err(e) => Err(e)
      case Ok(cond) =>
        match ClauseAt(ts, cond.next, fl)
        case Err(e) => Err(e)
        case Ok(body) => Ok(Stepped(While(cond.node, body.node), body.next, body.funcs))
  }

  /** if_statement(): 'if', a condition, a clause and, after 'else', another clause. The
      node always carries the 'else' marker. */
  function IfAt(ts: seq<Token>, pos: nat, fl: seq<Value>): (r: Result<Stepped<Stmt>, ParseError>)
    requires pos <= |ts|
    ensures r.Ok? ==> pos < r.value.next <= |ts| && Clean(ts, pos, r.value.next)
    decreases |ts| - pos, 2
  {
    match MatchAt(ts, pos, {"if"})
    case Err(e) => Err(e)
    case Ok(kw) =>
      match ExprAt(ts, kw.next)
      case Err(e) => Err(e)
      case Ok(cond) =>
        match ClauseAt(ts, cond.next, fl)
        case Err(e) => Err(e)
        case Ok(th) =>
          if TagAhead(ts, th.next, 0) != "else" then
            Ok(Stepped(If(cond.node, th.node, "else", None), th.next, th.funcs))
          else
            match ClauseAt(ts, th.next + 1, th.funcs)
            case Err(e) => Err(e)
            case Ok(el) => Ok(Stepped(If(cond.node, th.node, "else", Some(el.node)), el.next, el.funcs))
  }

  /** function_definition(): 'fun', a name, which joins the function-name list before
      anything else is read, a parameter list in parentheses and a block. */
  function FunDefAt(ts: seq<Token>, pos: nat, fl: seq<Value>): (r: Result<Stepped<Stmt>, ParseError>)
    requires pos <= |ts|
    ensures r.Ok? ==> pos < r.value.next <= |ts| && Clean(ts, pos, r.value.next)
    decreases |ts| - pos, 2
  {
    match MatchAt(ts, pos, {"fun"})
    case Err(e) => Err(e)
    case Ok(kw) =>
      match MatchAt(ts, kw.next, {"id"})
      case Err(e) => Err(e)
      case Ok(id) =>
        match Payload(id.node)
        case Err(e) => Err(e)
        case Ok(name) =>
          match MatchAt(ts, id.next, {"("})
          case Err(e) => Err(e)
          case Ok(open) =>
            match ParamsAt(ts, open.next)
            case Err(e) => Err(e)
            case Ok(params) =>
              match MatchAt(ts, params.next, {")"})
              case Err(e) => Err(e)
              case Ok(close) =>
                match BlockAt(ts, close.next, fl + [name])
                case Err(e) => Err(e)
                case Ok(body) => Ok(Stepped(FunDef(name, params.node, body.node), body.next, body.funcs))
  }

  /** The parameter names of a definition, up to but not including ')': none when ')'
      comes first, otherwise names separated by ','. */
  function ParamsAt(ts: seq<Token>, pos: nat): (r: Result<Parsed<seq<Value>>, ParseError>)
    requires pos <= |ts|
    ensures r.Ok? ==> pos <= r.value.next <= |ts| && Clean(ts, pos, r.value.next)
  {
    if TagAhead(ts, pos, 0) == ")" then Ok(Parsed([], pos))
    else
      match MatchAt(ts, pos, {"id"})
      case Err(e) => Err(e)
      case Ok(id) =>
        match Payload(id.node)
        case Err(e) => Err(e)
        case Ok(name) => ParamsLoop(ts, id.next, [name])
  }

  /** The loop over ", name" that follows the first parameter. */
  function ParamsLoop(ts: seq<Token>, pos: nat, acc: seq<Value>): (r: Result<Parsed<seq<Value>>, ParseError>)
    requires pos <= |ts|
    ensures r.Ok? ==> pos <= r.value.next <= |ts| && Clean(ts, pos, r.value.next)
    decreases |ts| - pos
  {
    if TagAhead(ts, pos, 0) != "," then Ok(Parsed(acc, pos))
    else
      match MatchAt(ts, pos + 1, {"id"})
      case Err(e) => Err(e)
      case Ok(id) =>
        match Payload(id.node)
        case Err(e) => Err(e)
        case Ok(name) => ParamsLoop(ts, id.next, acc + [name])
  }

  /** block(): '{', statements up to '}', then '}'. */
  function BlockAt(ts: seq<Token>, pos: nat, fl: seq<Value>): (r: Result<Stepped<Stmt>, ParseError>)
    requires pos <= |ts|
    ensures r.Ok? ==> pos < r.value.next <= |ts| && Clean(ts, pos, r.value.next)
    decreases |ts| - pos, 1
  {
    match MatchAt(ts, pos, {"{"})
    case Err(e) => Err(e)
    case Ok(open) =>
      match BlockItems(ts, open.next, fl, [])
      case Err(e) => Err(e)
      case Ok(items) =>
        match MatchAt(ts, items.next, {"}"})
        case Err(e) => Err(e)
        case Ok(close) => Ok(Stepped(Block(items.node), close.next, items.funcs))
  }

  /** The statement loop of block(). */
  function BlockItems(ts: seq<Token>, pos: nat, fl: seq<Value>, acc: seq<Stmt>): (r: Result<Stepped<seq<Stmt>>, ParseError>)
    requires pos <= |ts|
    ensures r.Ok? ==> pos <= r.value.next <= |ts| && Clean(ts, pos, r.value.next)
    decreases |ts| - pos, 4
  {
    if TagAhead(ts, pos, 0) == "}" then Ok(Stepped(acc, pos, fl))
    else
      match StatementAt(ts, pos, fl)
      case Err(e) => Err(e)
      case Ok(s) => BlockItems(ts, s.next, s.funcs, acc + [s.node])
  }

  /** The statement loop of program(): statements until the current tag is "eof". */
  function ProgramItems(ts: seq<Token>, pos: nat, fl: seq<Value>, acc: seq<Stmt>): (r: Result<Stepped<seq<Stmt>>, ParseError>)
    requires pos <= |ts|
    ensures r.Ok? ==> pos <= r.value.next <= |ts| && Clean(ts, pos, r.value.next)
    ensures r.Ok? ==> TagAhead(ts, r.value.next, 0) == "eof"
    ensures r.Ok? ==> |r.value.node| <= |acc| + (r.value.next - pos)
    decreases |ts| - pos
  {
    if TagAhead(ts, pos, 0) == "eof" then Ok(Stepped(acc, pos, fl))
    else
      match StatementAt(ts, pos, fl)
      case Err(e) => Err(e)
      case Ok(s) => ProgramItems(ts, s.next, s.funcs, acc + [s.node])
  }

  /** cilly_parser(tokens): the program, starting from an empty function-name list. A list
      that starts at its end gives the empty program, and every statement takes at least
      one token. */
  function ParseProgram(ts: seq<Token>): (r: Result<Program, ParseError>)
    ensures TagAhead(ts, 0, 0) == "eof" ==> r == Ok(Program([]))
    ensures r.Ok? ==> |r.value.stmts| <= |ts|
  {
    match ProgramItems(ts, 0, [], [])
    case Err(e) => Err(e)
    case Ok(items) => Ok(Program(items.node))
  }
}
