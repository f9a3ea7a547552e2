# Cilly lexer and parser

This project models `work2.py`, a hand-written lexer and recursive-descent parser for a small
scripting language ("cilly"), and proves properties of the model. It has three parts.

- **Lexer** (`lexer`). A character cursor (`next`/`peek`/`match`) feeds a dispatcher (`token`).
  The dispatcher skips whitespace and then emits one of:
  - a single-character punctuator;
  - `=`, `>` or `<`, or its two-character form ending in `=`;
  - a string literal or a number literal;
  - a keyword or an identifier.

  Each token list ends with an `eof` token.
- **Token cursor** (`make_tokenizer`). A position into a token list, with `k`-token lookahead
  that answers `eof` past the end. Its `match` checks the current tag against a set of
  expected tags, returns the whole token and advances.
- **Parser** (`cilly_parser`). It has the statement productions and a precedence chain: `or`,
  `and`, equality, comparison, `+`/`-`, `*`/`/`, unary, right-nested `^`, and atoms. It also
  keeps the function-name list `func_list`. An identifier-led statement is a function use
  when its name is in that list, and an assignment otherwise.

Each stateful part exists twice:

- a specification made of functions: `LexerSpec`, `TokenStream`, `ExprGrammar` and
  `StmtGrammar`;
- a class written the way the source is written: `Lexer.Lexer`, `TokenStream.TokenCursor`
  and `Parser.CillyParser`. These classes update their position, current character or
  token, and function-name list in place. Their loops carry invariants. Every method is
  proved to return exactly what its specification function gives, errors included.

The properties are proved about the specification functions:

- `LexerProps`: the token list ends in exactly one `eof`. Each kind of token is read back
  from its spelling, and a token list printed with whitespace between the tokens lexes back
  to itself.
- `GrammarProps`: the function-name list after a parse holds exactly the names the parsed
  statements register, so it only grows. An identifier-led statement is a function use if
  and only if its name is in the list. A definition's body sees the definition's own name.
  `program` stops at the first `eof`.
- `ExprPrinter`, `PrintLayout` and `ExprRoundTrip`: a printer turns expression trees back
  into token lists, and parsing a printed expression gives the same tree back. This round
  trip covers:
  - the left folding of the six binary levels;
  - the right nesting of `^`;
  - prefix operators, calls and parentheses.
- `StmtPrinter` and `StmtRoundTrip`: a printer turns statement trees back into token lists,
  and parsing a printed program gives the same program back. Each statement is read under
  the function-name list that the statements before it leave. The `GrammarProps` shape
  lemmas say, for every input, what each statement production builds from the tokens it reads.
- `Examples`: concrete parses of `a-b-c`, `1^2^3`, `a+b*c`, `2*10!` and `!x`.

Tokens are `Token(tag, val)`, where `val` is `None` or `Some` of a payload. A payload is an
identifier spelling, the contents of a string, or a number. An integer literal carries its
value. A fractional literal carries its two digit strings rather than a floating-point value.

The source's errors are values of the `LexError` and `ParseError` datatypes, without the
message text. The source has two non-terminating lexer paths. The model stops those with the
failures `UnclosedString` and `WordAtEnd`: see "Left out".

## Model

| member | source | states |
|---|---|---|
| TokenStream.TokenAhead | work2.py:173-182 | peek(k, 'full'): the token k ahead, whose tag is always the tag peek(k) gives, or the end-of-input token past the end |
| TokenStream.MatchAt | work2.py:184-188 | match succeeds exactly when the current tag is in the expected set; then it returns the current token and the position one further; otherwise it fails, naming the expected set and the tag it saw |
| TokenStream.Payload | work2.py:242 | the `t[1]` of a matched token (here and at lines 225, 254, 317, 323, 326, 416, 419, 430 and 437, the same as `tk_val` at lines 9-10): succeeds exactly when the token has a payload, and returns it |
| TokenStream.TagAhead | work2.py:173-182 | peek(k): the tag k tokens ahead, and "eof" exactly when that is past the end of the list |
| TokenStream.TokenCursor.PeekTag | work2.py:173-176 | peek(k) on the cursor: the current token's tag for k = 0, and "eof" past the end of the list |
| TokenStream.TokenCursor.PeekFull | work2.py:177-178 | peek(k, 'full') on the cursor: a token whose tag is what peek(k) gives, the current token for k = 0 |
| TokenStream.TokenCursor.constructor | work2.py:156-158 | the cursor starts on the first token of the list, or on the end-of-input token for an empty list |
| TokenStream.TokenCursor.Next | work2.py:160-171 | next() hands back the current token, moves exactly one position on, and keeps the current token equal to the lookahead at the new position |
| TokenStream.TokenCursor.Match | work2.py:184-188 | match(*m) returns what MatchAt gives and advances exactly when it succeeds |
| LexerSpec.SkipWs | work2.py:48-50 | ws_skip stops at the first position, at or after the start, that holds no space, tab, CR or LF |
| LexerSpec.DigitsEnd | work2.py:70-71 | a digit loop stops at the end of the maximal digit run |
| LexerSpec.StringBody | work2.py:57-58 | the string loop collects exactly the characters up to the next '"', none of which is a '"'; with no closing '"' the model fails |
| LexerSpec.WordEnd | work2.py:88-89 | the identifier loop stops at or after its start, before a character that is no letter, digit or '_', or at the end of the text |
| LexerSpec.DigitsValue | work2.py:77 | int(r) of a digit string: below 10 to the power of its length, with the last digit as its last decimal digit |
| LexerSpec.StringAt | work2.py:52-62 | string() gives a str token whose payload is exactly the characters between the opening '"' and the next '"', and stops after that '"'; with no closing '"' the model fails |
| LexerSpec.NumberAt | work2.py:67-77 | num() consumes a maximal digit run, with '.' and a second digit run when a '.' follows, and stops before any digit; it is fractional exactly when a '.' follows the first run, and otherwise carries int(r) of the digits it read |
| LexerSpec.WordAt | work2.py:85-94 | id() consumes a maximal run of letters, digits and '_'; the word is a payload-free keyword token when it is reserved and an id token with its spelling otherwise; the model fails exactly when the run reaches the end of the text |
| LexerSpec.TokenAt | work2.py:99-141 | token() gives the end-of-input token exactly at the end of the text, and otherwise consumes at least one character |
| LexerSpec.TokenFrom | work2.py:96-141 | token() after ws_skip: a token tagged "eof" is exactly the end-of-input token, and any other token consumes at least one character |
| LexerSpec.LexStep | work2.py:148-151 | one pass of the driver loop: a lexer error is handed on unchanged, and a finished list is longer than before and ends with the end-of-input token |
| LexerSpec.LexFrom | work2.py:145-151 | the driver loop from a position: a finished list extends the tokens read so far and ends with the end-of-input token |
| LexerSpec.Lex | work2.py:143-153 | lexer(prog): a finished token list is never empty and ends with the end-of-input token |
| Lexer.Lexer.constructor | work2.py:21-22 | the lexer starts at position 0 with the first character, or the end marker, as current |
| Lexer.Lexer.Next | work2.py:26-37 | next() hands back the current character, moves one position on and keeps the current character in step with the position |
| Lexer.Lexer.Match | work2.py:42-46 | match(m) advances exactly when the current character is m, and otherwise fails without moving |
| Lexer.Lexer.SkipWhitespace | work2.py:48-50 | the loop ends where SkipWs says |
| Lexer.Lexer.ScanString | work2.py:52-62 | string() gives what the string specification gives, and stops where it stops |
| Lexer.Lexer.AppendDigits | work2.py:70-76 | the digit loop appends exactly the maximal digit run to r and stops at its end |
| Lexer.Lexer.ScanNumber | work2.py:67-77 | num() gives the token and the end position the number specification gives |
| Lexer.Lexer.ScanWord | work2.py:85-94 | id() gives the keyword or identifier token the word specification gives, and stops where it stops |
| Lexer.Lexer.NextToken | work2.py:96-141 | token() gives what TokenFrom gives, with the same end position |
| Lexer.Lexer.Run | work2.py:145-153 | the driver loop returns exactly the token list, or the error, of the lexer specification |
| Lexer.Tokenize | work2.py:17-153 | lexer(prog) returns Lex(prog) |
| LexerProps.LexEndsWithEof | work2.py:143-153 | a token list always ends with the end-of-input token, and no earlier token is tagged "eof" |
| LexerProps.LexBlank | work2.py:143-153 | an empty or all-whitespace text lexes to the end-of-input token alone |
| LexerProps.WordEndRun | work2.py:82-89 | the identifier loop passes only letters, digits and '_', and stops before the first other character |
| LexerProps.WordEndLands | work2.py:82-89 | conversely, a run of letters, digits and '_' followed by another character ends exactly where the loop stops |
| LexerProps.DigitsValueOfDecimal | work2.py:77 | int(r) of the decimal digits of n is n |
| LexerProps.TokenAtWord | work2.py:79-94 | a maximal word starting with a letter or '_' is a payload-free keyword token if it is one of the nine reserved words, and an id token with its exact spelling otherwise |
| LexerProps.TokenAtMark | work2.py:104-130 | each of the 14 punctuators gives its own one-character tag. '=', '>' and '<' give their one-character tag unless '=' follows; then the pair is consumed and '==', '>=' or '<=' is emitted |
| LexerProps.TokenAtString | work2.py:52-62 | a quoted text without '"' gives a str token whose payload is exactly the characters between the quotes |
| LexerProps.TokenAtInt | work2.py:67-77 | the digits of n, followed by neither a digit nor '.', give num with the integer n |
| LexerProps.TokenAtDecimal | work2.py:67-77 | digits, '.' and a maximal digit run give num with the two digit strings |
| LexerProps.TokenAtSpelling | work2.py:96-141 | every token the lexer can produce is read back whole from its spelling when what follows lets it end |
| LexerProps.TokenFromSpelling | work2.py:96-141 | the same after a stretch of whitespace, which is skipped |
| LexerProps.LexFromStep | work2.py:147-151 | a pass of the driver loop that reads a token other than the end-of-input token appends it and goes on from where the token ends |
| LexerProps.NumberAtFraction | work2.py:67-77 | a digit run, a '.' and a second digit run give num with the two runs as its digit strings, and num() stops after the second run |
| LexerProps.LexFromLaidOut | work2.py:145-151 | the driver loop over a laid-out text appends exactly its tokens and then the end-of-input token |
| LexerProps.LexRendered | work2.py:17-153 | any lexable token list, spelled out with whitespace gaps after leading whitespace, lexes to exactly that list followed by the end-of-input token |
| ExprGrammar.Head | work2.py:342-388 | the head of a binary node keeps the operator's tag; `or` and `and` heads are the bare tag, every other level keeps the matched token |
| ExprGrammar.LevelOps | work2.py:344-384 | the operator tags of each of the six binary levels; no level takes "eof", '^', '(', ')' or ',' |
| ExprGrammar.ExprAt | work2.py:339-340 | expr() consumes at least one token and never an "eof" token |
| ExprGrammar.LevelAt | work2.py:342-388 | each binary level consumes at least one token and never an "eof" token |
| ExprGrammar.LevelLoop | work2.py:344-388 | a level's while loop never consumes an "eof" token |
| ExprGrammar.UnaryAt | work2.py:390-398 | unary() consumes at least one token and never an "eof" token |
| ExprGrammar.PowAt | work2.py:400-406 | pow() consumes at least one token and never an "eof" token |
| ExprGrammar.AtomAt | work2.py:408-441 | atom() consumes at least one token and never an "eof" token |
| ExprGrammar.CallArgs | work2.py:421-426 | a call's argument list never consumes an "eof" token |
| ExprGrammar.ArgsLoop | work2.py:424-426 | the ', expr' loop never consumes an "eof" token |
| ExprPrinter.BinLevel | work2.py:342-388 | the level whose loop takes a tag; it is never the unary level |
| ExprPrinter.Unparse | work2.py:337-441 | a printed expression is never empty |
| ExprRoundTrip.ExprRoundTrip | work2.py:339-441 | a well-formed tree, printed and followed by anything that is not an operator, parses back to the same tree, and the parse stops right after the printed tokens |
| ExprRoundTrip.LevelReads | work2.py:342-388 | each binary level reads a printed expression and folds the operators of its own level to the left |
| ExprRoundTrip.RightOperandReads | work2.py:346-386 | a right operand printed one level up is read whole by the next level |
| ExprRoundTrip.UnaryReads | work2.py:390-398 | unary() reads a printed prefix operator and its operand back |
| ExprRoundTrip.PowReads | work2.py:400-406 | pow() reads a printed '^' chain back, nested to the right |
| ExprRoundTrip.AtomReads | work2.py:408-441 | atom() reads back a parenthesized expression, a call, a literal, a name or a keyword |
| ExprRoundTrip.ArgsReads | work2.py:418-428 | a printed argument list is read back, up to its ')' |
| Examples.MinusFoldsLeft | work2.py:374-380 | a - b - c parses as (a - b) - c |
| Examples.CaretNestsRight | work2.py:400-406 | 1 ^ 2 ^ 3 parses as 1 ^ (2 ^ 3) |
| Examples.TimesBindsTighter | work2.py:374-388 | a + b * c parses as a + (b * c) |
| Examples.BangAfterNumber | work2.py:429-435 | in 2 * 10!, the '!' after the literal makes a factorial literal |
| Examples.PrefixBangIsUnary | work2.py:390-396 | a prefix '!' builds the generic unary node headed by the matched token, because the test at line 393 compares a token with a string and never holds |
| StmtGrammar.StatementAt | work2.py:207-230 | statement() consumes at least one token and never an "eof" token |
| StmtGrammar.FuncUseAt | work2.py:234-237 | func_use() consumes at least one token and never an "eof" token |
| StmtGrammar.AssignAt | work2.py:241-246 | assign_statement() consumes at least one token and never an "eof" token |
| StmtGrammar.VarAt | work2.py:250-265 | var_statement() consumes at least one token and never an "eof" token |
| StmtGrammar.VarEntries | work2.py:253-263 | the loop over var entries never consumes an "eof" token |
| StmtGrammar.PrintAt | work2.py:269-279 | print_statement() consumes at least one token and never an "eof" token |
| StmtGrammar.PrintArgs | work2.py:273-276 | the print argument loop never consumes an "eof" token |
| StmtGrammar.ReturnAt | work2.py:304-311 | return_statement() consumes at least one token and never an "eof" token |
| StmtGrammar.ClauseAt | work2.py:286-299 | a block or single-statement clause consumes at least one token and never an "eof" token |
| StmtGrammar.WhileAt | work2.py:283-287 | while_statement() consumes at least one token and never an "eof" token |
| StmtGrammar.IfAt | work2.py:292-300 | if_statement() consumes at least one token and never an "eof" token |
| StmtGrammar.FunDefAt | work2.py:315-329 | function_definition() consumes at least one token and never an "eof" token |
| StmtGrammar.ParamsAt | work2.py:322-326 | the parameter list never consumes an "eof" token |
| StmtGrammar.ParamsLoop | work2.py:324-326 | the ', id' loop never consumes an "eof" token |
| StmtGrammar.BlockAt | work2.py:331-337 | block() consumes at least one token and never an "eof" token |
| StmtGrammar.BlockItems | work2.py:334-335 | the block's statement loop never consumes an "eof" token |
| StmtGrammar.ProgramItems | work2.py:201-205 | program()'s loop never consumes an "eof" token and stops exactly on the tag "eof" |
| StmtGrammar.ParseProgram | work2.py:194-205 | program() over the token list: no statements when the first tag is "eof", and never more statements than tokens |
| Parser.CillyParser.constructor | work2.py:194-199 | the parser starts at the first token with an empty function-name list |
| Parser.CillyParser.ParseExpr | work2.py:339-340 | expr() returns what ExprAt gives and stops where it stops |
| Parser.CillyParser.ParseLevel | work2.py:342-388 | the six binary levels, each with its while loop that reassigns left, and unary as level 6, return what LevelAt gives |
| Parser.CillyParser.ParseUnary | work2.py:390-398 | unary() returns what UnaryAt gives |
| Parser.CillyParser.ParsePow | work2.py:400-406 | pow() returns what PowAt gives |
| Parser.CillyParser.ParseAtom | work2.py:408-441 | atom() returns what AtomAt gives |
| Parser.CillyParser.ParseCallArgs | work2.py:421-426 | the argument loop returns what CallArgs gives |
| Parser.CillyParser.ParseStatement | work2.py:207-230 | statement() returns what StatementAt gives and leaves the function-name list as it says |
| Parser.CillyParser.ParseFuncUse | work2.py:234-237 | func_use() returns what FuncUseAt gives |
| Parser.CillyParser.ParseAssign | work2.py:241-246 | assign_statement() returns what AssignAt gives |
| Parser.CillyParser.ParseVar | work2.py:250-265 | var_statement() returns what VarAt gives, appending to the function-name list as it says |
| Parser.CillyParser.ParsePrint | work2.py:269-279 | print_statement() returns what PrintAt gives |
| Parser.CillyParser.ParseReturn | work2.py:304-311 | return_statement() returns what ReturnAt gives |
| Parser.CillyParser.ParseClause | work2.py:286-299 | a clause returns what ClauseAt gives |
| Parser.CillyParser.ParseWhile | work2.py:283-287 | while_statement() returns what WhileAt gives |
| Parser.CillyParser.ParseIf | work2.py:292-300 | if_statement() returns what IfAt gives |
| Parser.CillyParser.ParseFunDef | work2.py:315-329 | function_definition() returns what FunDefAt gives, with its name appended to the function-name list before the parameters and the body |
| Parser.CillyParser.ParseParams | work2.py:321-326 | the parameter loop returns what ParamsAt gives |
| Parser.CillyParser.ParseBlock | work2.py:331-337 | block() returns what BlockAt gives |
| Parser.CillyParser.ParseProgramItems | work2.py:201-205 | program() returns the program ProgramItems gives |
| Parser.Parse | work2.py:194-443 | cilly_parser(tokens) returns ParseProgram(tokens) |
| GrammarProps.VarRegisters | work2.py:250-265 | a var statement appends to the function-name list exactly the names whose initializer is a call, in order |
| GrammarProps.StatementRegisters | work2.py:207-337 | any statement appends exactly the names it registers: definition names and call-initialized var names, nested ones included |
| GrammarProps.FunDefRegisters | work2.py:315-329 | a definition appends its own name, then the names its body registers |
| GrammarProps.BlockRegisters | work2.py:331-337 | a block appends the names its statements register, in order |
| GrammarProps.ProgramRegisters | work2.py:199-205 | after a whole program, the function-name list is exactly the names its statements register, so it only ever grows |
| GrammarProps.IdStatementDispatch | work2.py:222-228 | an identifier-led statement is a function use if and only if the name is in the function-name list, and otherwise an assignment to that name; neither changes the list |
| GrammarProps.FunDefBodySeesName | work2.py:317-328 | a definition's body is parsed, at the position right after the parameter list's ')', with the definition's name already in the function-name list |
| GrammarProps.ReturnShape | work2.py:304-311 | return_statement() has no value exactly when ';' follows 'return', then stops two tokens on; otherwise its value is the expression read up to the ';' |
| GrammarProps.AssignShape | work2.py:241-246 | assign_statement() builds an assignment to the payload of the leading id token, with the expression read after '=' up to the ';' |
| GrammarProps.VarShape | work2.py:250-265 | var_statement() holds exactly the entries its loop reads up to the ';', with the names that loop registers; `var ;` gives no entries and leaves the list alone |
| GrammarProps.PrintShape | work2.py:269-279 | print_statement() holds exactly the arguments its loop reads between '(' and ')', followed by ';' |
| GrammarProps.IfShape | work2.py:292-300 | if_statement() keeps the 'else' marker, reads its condition and then-clause, and has no else branch exactly when no 'else' follows the then-clause; otherwise the else branch is the clause after 'else' |
| StmtPrinter.UnparseStmt | work2.py:207-337 | a statement printed in the grammar's spelling is never empty |
| StmtRoundTrip.ProgramRoundTrip | work2.py:194-205 | the statement round trip: a printed program of well-shaped statements, followed by the end-of-input token, parses back to the same program |
| StmtRoundTrip.StatementReads | work2.py:207-230 | statement() reads a printed statement back whole and appends the names it registers to the function-name list |
| StmtRoundTrip.ClauseReads | work2.py:286 | a while or if clause, a block or a single statement, is read back whole |
| StmtRoundTrip.BlockReads | work2.py:331-337 | block() reads a printed block back, each statement under the names the ones before it register |
| StmtRoundTrip.ItemsReads | work2.py:334-335 | block()'s loop reads the printed statements back, in order, up to the '}' |
| StmtRoundTrip.ProgramItemsReads | work2.py:202-204 | program()'s loop reads the printed statements back, in order, up to the "eof" |
| StmtRoundTrip.PrintArgsReads | work2.py:272-276 | the print argument loop reads printed arguments back, with or without a ',' between them, up to the ')' |
| StmtRoundTrip.PrintArgStep | work2.py:274-276 | one pass of the print argument loop: it takes the argument and then a ',' when there is one, and goes on without it otherwise |
| StmtRoundTrip.EntriesReads | work2.py:253-263 | the var entry loop reads printed entries back, registering the names whose initializer is a call |
| StmtRoundTrip.EntryInitStep | work2.py:254-263 | an entry with '=' takes the expression after it as initializer, and registers the name exactly when that initializer is a call |
| StmtRoundTrip.EntryBareStep | work2.py:254-263 | an entry without '=' has no initializer and registers nothing |
| StmtRoundTrip.ParamsReads | work2.py:321-326 | the parameter list reads printed parameter names back, separated by ',' |
| StmtRoundTrip.ReturnNoneStep | work2.py:305-311 | 'return' ';' is a return without value |
| StmtRoundTrip.ReturnSomeStep | work2.py:305-311 | 'return', an expression and ';' is a return of that expression |
| StmtRoundTrip.AssignStep | work2.py:222-228 | an id that names no known function, '=', an expression and ';' is an assignment to that name |
| StmtRoundTrip.FuncUseStep | work2.py:222-237 | an expression led by the name of a known function and followed by ';' is a function use |
| StmtRoundTrip.PrintStep | work2.py:269-279 | 'print', '(' and the arguments the loop reads, then ')' and ';', is a print of those arguments |
| StmtRoundTrip.VarStep | work2.py:250-265 | 'var', the entries the loop reads and ';' is a var statement of those entries, with the names the loop registers |
| StmtRoundTrip.WhileStep | work2.py:283-287 | 'while', a condition and a clause is a while loop with that condition and body |
| StmtRoundTrip.BlockStep | work2.py:331-337 | '{', the statements the loop reads and '}' is a block of those statements |
| StmtRoundTrip.BlockItemsStep | work2.py:334-335 | a pass of block()'s loop before any '}' appends the statement read and goes on after it |
| StmtRoundTrip.ProgramItemsStep | work2.py:203-204 | a pass of program()'s loop before any "eof" appends the statement read and goes on after it |
| StmtRoundTrip.IfStep | work2.py:292-300 | an if whose then-clause is not followed by 'else' has no else branch |
| StmtRoundTrip.IfElseStep | work2.py:292-300 | an if whose then-clause is followed by 'else' takes the next clause as its else branch, under the names the then-clause registers |
| StmtRoundTrip.FunDefStep | work2.py:315-329 | 'fun', a name, a parameter list in parentheses and a block is a definition whose body is read with the name registered |
| GrammarProps.ProgramStopsAtFirstEof | work2.py:201-205 | program() stops on the first token tagged "eof", or at the end of the list, and consumes no "eof" token before it |

## Left out

- `LexerSpec.NumberAt`, `LexerProps.TokenAtInt`, `LexerProps.LexRendered`: a literal of more than
  4300 digits makes `int(r)` at work2.py:77 raise `ValueError` in CPython 3.11 and later. The
  model reads integer literals of any length.
- `ExprGrammar.ExprAt`, `ExprRoundTrip.ExprRoundTrip`, `StmtRoundTrip.ProgramRoundTrip`: the
  source's recursive descent raises `RecursionError` once nesting exhausts Python's stack, at
  roughly a hundred nested parentheses or blocks. The model has no depth bound.

- The test script and module-level driver at work2.py:446 onwards are fixture data, not
  logic.
- The debug `print` in `statement` (work2.py:224) is console output.
- Exception messages are not modelled (work2.py:13-14, 44, 141, 186, 196, 230, 441). Each
  raise is a failure value of `LexError` or `ParseError`.
- `float(r)` (work2.py:77) is floating-point conversion. A fractional literal keeps its whole
  and fraction digit strings instead. As a result, Python's `1 == 1.0` does not hold between
  `Int(1)` and `Decimal("1", "0")`. This only matters for the function-name test on tokens
  that the lexer never produces.
- `peek`'s `ValueError` for a bad `return_type` (work2.py:180) is a Python API detail.
  `PeekTag` and `PeekFull` are two functions.
- Python list encodings are not modelled: for example, `or`, `and` and `^` heads are bare
  strings in the source. Those heads become payload-free tokens. The other binary heads keep
  the matched token.
- The `['factorial', …]` node of work2.py:394 has no constructor, because no parse can reach
  it: the test at work2.py:393 compares a token with a string.
- `LexerSpec.StringBody`, `Lexer.Lexer.ScanString`: an unterminated string makes the
  source loop forever (work2.py:57-58), because `next()` keeps returning `'eof'`. The model
  returns `UnclosedString` instead.
- `LexerSpec.WordAt`, `Lexer.Lexer.ScanWord`: a word that runs to the very end of the text
  makes the source loop forever (work2.py:80, 88-89), because the string `'eof'` passes the
  letter test. The model returns `WordAtEnd` instead.
- `TokenStream.TokenCursor.Match`: where the source raises, the model returns the error
  without moving. Nothing runs after a raise in the source, so no behaviour is lost.
- `TokenStream.TokenAhead`: past the end of the list, `peek(k, 'full')` returns the bare
  string `'eof'`. The model returns the end-of-input token, whose tag is `"eof"`.
- `ExprRoundTrip.ExprRoundTrip`: the printer writes every bare-payload atom as a `str` token,
  because the source builds the same tree from an identifier and from a string. Reading
  identifiers and numbers is covered by the `Examples` lemmas.
- `StmtRoundTrip.ProgramRoundTrip`: the round trip holds for the trees `StmtPrinter.Shaped`
  describes, which are the trees the parser can build. A block directly inside a block has no
  reading, because `statement()` rejects '{' (work2.py:229-230). An else branch after an if
  that is still open would be taken by the inner if. Expressions inside statements are printed
  as `ExprRoundTrip.ExprRoundTrip` prints them.
