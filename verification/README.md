# carrot: lexer, parser and IR generator

This project models the three stages of carrot, a small compiler for a C-like
toy language. The first stage is a lexer that turns source text into a list of
Reserved, Identifier, Number and Eof tokens. The second is a
recursive-descent parser that builds a `Node` tree. The third is a generator
that lowers the tree into LLVM functions and basic blocks. It tracks
variables and functions through two chains of block contexts. A global
`blockIndex` counter names the blocks.

The model is organised as follows:

- **`Lexer`** (lexer.dfy):
  - `ScanAt` is one iteration of the tokenizer's loop.
  - `Lex` is the whole scan as a function of the position.
  - `Tokenize` is the loop itself, with its three inner loops (`FindPrefix`, `ScanIdentifier`, `ScanNumber`). It is proved to compute `Lex`.
- **`Decimal`** (decimal.dfy) covers `strconv.Atoi` on digit runs and the canonical rendering used by `strconv.Itoa` and `fmt.Sprintf("%d")`.
- **`Ast`** (ast.dfy) has one `Node` constructor per `NodeType`.
- **`Parser`** (parser.dfy) has one function per parser rule, threading a cursor into the token sequence.
  - Each operator loop is a `...Rest` function that folds to the left.
  - Every `panic` is an `Err`.
- **`ParserProperties`** (parser_props.dfy) states the parser's behaviour against an independent printer.
  - `Render` is the printer; parsing its output gives the tree back.
  - Parsing an operator chain on one level gives `Fold`, the left fold of the chain.
- **`StatementParsing`** (statement_parsing.dfy) states what the statement rules build.
  - A program is its statements in source order, up to the first Eof token; a block is its statements up to `}`.
  - Each of `fnc`, `return`, `if`, `for` and `break` builds the node of its kind from the parts after the keyword.
  - `argDefs` returns the parameter names in order.
- **`Ir`** (ir.dfy) is an abstract IR:
  - a value is a slot, a register, a parameter or a constant;
  - a block has a name, an owner, instructions and one optional terminator.
- **`Scopes`** (scopes.dfy) models block contexts as an arena.
  - Context numbers play the role of pointers.
  - Variable and function maps live in arenas of their own, so that `copyContext` can share them.
  - `FindVariable` and `FindFunction` walk the two parent chains.
- **`Lowering`** (lowering.dfy) is the generator as functions over a `GenState`, which holds the module, the contexts and the two counters. `Generate` is `GenerateIR`.
- **`LoweringFrames`**, **`LoweringProperties`**, **`StatementProperties`**, **`FunctionProperties`** and **`ProgramProperties`** state what each statement form does to the state. They cover:
  - what changes and what stays;
  - how `if` and `for` are wired;
  - what each name resolves to;
  - the shape of the final module.
- **`Generator`** (generator.dfy) is the generator as it runs. It is a class whose fields are updated in place. Its methods follow `resolveStmts`, `resolveStmt`, `resolveExpr` and `callFunction`, including their loops. Each method is proved to agree with its `Lowering` function: the same error, or the same result and the same new state.

## Model

| member | source | states |
|---|---|---|
| Lexer.MatchPrefix | tokenizer.go:41-54 | a prefix found occurs at the position with at least one rune after it |
| Lexer.MatchPrefixIsFirst | tokenizer.go:41-54 | the prefix found is the first, in the fixed order, that occurs; none is found exactly when none occurs |
| Lexer.LetterRunEnd | tokenizer.go:64-75 | the end of the maximal run of letters |
| Lexer.DigitRunEnd | tokenizer.go:94-106 | the end of the maximal run of decimal digits |
| Lexer.ScanAt | tokenizer.go:33-113 | a skip moves on by one rune; an emitted token moves the position forward and is never the head sentinel or Eof |
| Lexer.ScanAtSpace | tokenizer.go:35-39 | a step skips exactly when the rune is whitespace |
| Lexer.ScanAtPrefix | tokenizer.go:41-60 | a matching prefix wins over every other token form except whitespace, with no word-boundary check |
| Lexer.ScanAtIdentifier | tokenizer.go:61-81 | an identifier is a maximal run of letters, taken only where no prefix occurs |
| Lexer.ScanAtReserved | tokenizer.go:55-60 | a Reserved token is either a prefix or one rune from the fixed set `+-*/()=<>;{}` (lines 82-88) |
| Lexer.ScanAtNumber | tokenizer.go:89-111 | a number is a maximal digit run; its value is the decimal value and its text is the canonical rendering |
| Lexer.ScanAtStuck | tokenizer.go:82-113 | the scan fails exactly on a rune that starts no token form |
| Lexer.IsSpace | tokenizer.go:35-39 | a whitespace rune is never a letter, a digit or a single-rune token, so skipping it loses no token |
| Lexer.IsLetter | tokenizer.go:61-75 | a letter is never a digit or a single-rune token |
| Lexer.FindPrefix | tokenizer.go:43-54 | the prefix loop finds `MatchPrefix` |
| Lexer.ScanIdentifier | tokenizer.go:62-75 | the identifier loop collects the maximal letter run |
| Lexer.ScanNumber | tokenizer.go:91-106 | the number loop stops at the end of the digit run, with its decimal value |
| Lexer.Tokenize | tokenizer.go:27-118 | the tokenizer loop computes `Lex(input, 0)` |
| Lexer.Lex | tokenizer.go:27-118 | a successful scan ends with the Eof token; a failure is a LexError at a position from the start on |
| Lexer.LexShape | tokenizer.go:115-117 | a successful scan ends with exactly one Eof token and contains no head sentinel |
| Lexer.LexBlank | tokenizer.go:33-39 | the result is just `[Eof]` exactly when the input is empty or all whitespace |
| Lexer.LexErrorAt | tokenizer.go:113 | a failure names a position at which no token starts |
| Lexer.LexIffy | tokenizer.go:41-60 | `iffy` lexes as `if` then the identifier `fy` |
| Lexer.LexTrailingGreaterEqual | tokenizer.go:46 | a trailing `>=` lexes as `>` then `=` |
| Lexer.LexGreaterEqual | tokenizer.go:46-50 | `>=` followed by a rune is one token |
| Lexer.LexCommaFails | tokenizer.go:82 | `a,b` fails at the comma |
| Lexer.LexBangFails | tokenizer.go:113 | a lone `!` fails |
| Lexer.LexLeadingZeros | tokenizer.go:107 | `007` is the Number token with text `7` and value 7 |
| Decimal.NatToString | tokenizer.go:107 | the rendering has no leading zero, and is one digit exactly for values below 10 |
| Decimal.DecimalValue | tokenizer.go:99-107 | a leading zero does not change the value of a digit run |
| Decimal.ValueOfRendering | tokenizer.go:107 | reading a rendering back gives the number |
| Decimal.RenderingInjective | generator.go:61 | distinct counter values render differently |
| Decimal.RenderingOfValue | tokenizer.go:99-107 | a digit run without a leading zero renders back as itself |
| Decimal.LeadingZerosDropped | tokenizer.go:99-107 | `007` renders back as `7` |
| Parser.Consume | parser.go:329-339 | moves forward by one token exactly when the current token is the Reserved token, and otherwise stays |
| Parser.ConsumeIdentifier | parser.go:341-351 | returns the identifier's text and moves past it, or returns `""` without moving |
| Parser.Expect | parser.go:353-364 | moves forward by one on the Reserved token; otherwise fails, with an end-of-input error when no token is left |
| Parser.ExpectNumber | parser.go:366-376 | a Number token gives its value and moves forward; anything else fails |
| Parser.ExpectIdentifier | parser.go:378-388 | an Identifier token gives its text and moves forward; anything else fails |
| Parser.Program | parser.go:55-66 | a program has at least one statement; which statements, in which order and up to where is stated by `StatementParsing.ProgramOfStmts` and `StatementParsing.ProgramParts` |
| Parser.ProgramRest | parser.go:58-64 | the statements already parsed stay in order at the front; the rest is stated by `StatementParsing.ProgramRestParts` |
| Parser.Stmt | parser.go:68-138 | a statement consumes at least one token and stays within the token list; the node each form builds is stated by the `StmtOf...` lemmas |
| Parser.FunctionDef | parser.go:69-77 | consumes at least one token and stays within the token list; the node built is stated by `StatementParsing.StmtOfFunction` |
| Parser.ReturnStmt | parser.go:78-83 | consumes at least one token and stays within the token list; the node built is stated by `StatementParsing.StmtOfReturn` |
| Parser.IfStmt | parser.go:84-94 | consumes at least one token and stays within the token list; the node built is stated by `StatementParsing.StmtOfIfElse` and `StatementParsing.StmtOfIfThen` |
| Parser.ForStmt | parser.go:95-99 | consumes at least one token and stays within the token list; the node built is stated by `StatementParsing.StmtOfFor` |
| Parser.BreakStmt | parser.go:100-104 | consumes at least one token and stays within the token list; the node built is stated by `StatementParsing.StmtOfBreak` |
| Parser.BlockStmt | parser.go:105-123 | consumes at least one token and stays within the token list; the node built is stated by `StatementParsing.StmtOfBlock` and `StatementParsing.BlockParts` |
| Parser.BlockRest | parser.go:108-119 | the statements already parsed stay in order at the front; the rest is stated by `StatementParsing.BlockRestParts` |
| Parser.VarStmt | parser.go:124-134 | consumes at least one token and stays within the token list |
| Parser.ExprStmt | parser.go:135-137 | consumes at least one token and stays within the token list |
| Parser.Assign | parser.go:140-149 | consumes at least one token and stays within the token list |
| Parser.Expr | parser.go:151-153 | consumes at least one token and stays within the token list |
| Parser.Equality | parser.go:155-175 | consumes at least one token and stays within the token list |
| Parser.EqualityRest | parser.go:157-173 | the loop never moves the cursor backwards |
| Parser.Relational | parser.go:177-209 | consumes at least one token and stays within the token list |
| Parser.RelationalRest | parser.go:179-207 | the loop never moves the cursor backwards |
| Parser.Add | parser.go:211-231 | consumes at least one token and stays within the token list |
| Parser.AddRest | parser.go:213-229 | the loop never moves the cursor backwards |
| Parser.MulLevel | parser.go:233-253 | consumes at least one token and stays within the token list |
| Parser.MulRest | parser.go:235-251 | the loop never moves the cursor backwards |
| Parser.Unary | parser.go:255-266 | consumes at least one token and stays within the token list |
| Parser.Primary | parser.go:268-288 | consumes at least one token and stays within the token list |
| Parser.ArgDefs | parser.go:290-307 | consumes at least one token and stays within the token list; the names returned are stated by `StatementParsing.ArgDefsOfNames` |
| Parser.ArgDefsRest | parser.go:297-305 | consumes at least one token and stays within the token list; the names collected are stated by `StatementParsing.MoreNamesOfRender` |
| Parser.Args | parser.go:309-325 | consumes at least one token and stays within the token list |
| Parser.ArgsRest | parser.go:315-323 | consumes at least one token and stays within the token list |
| ParserProperties.ExprOfRender | parser.go:151-288 | parsing a fully parenthesised printout of an expression, followed by `;`, gives the expression back and stops at the `;` |
| ParserProperties.StmtOfRender | parser.go:135-137 | such a printout and `;` is one expression statement |
| ParserProperties.PrimaryOfRender | parser.go:268-288 | `primary` reads a printed expression back |
| ParserProperties.ArgsOfRender | parser.go:309-325 | `args` reads a printed argument list and its `)` back, arguments in order |
| ParserProperties.RestStops | parser.go:157-253 | each operator loop stops at a closing token without changing the tree |
| ParserProperties.ExprOfChain | parser.go:155-253 | an operator chain on any one level parses as its left fold, with `>` and `>=` swapping their operands |
| ParserProperties.ExprOfLevel | parser.go:151-253 | a looser level passes a tighter level's result through when a closing token follows |
| ParserProperties.SubtractionFoldsLeft | parser.go:211-231 | `a-b-c` is `Sub(Sub(a,b),c)` |
| ParserProperties.LessThanFoldsLeft | parser.go:177-209 | `a<b<c` is `LT(LT(a,b),c)` |
| ParserProperties.GreaterSwapsOperands | parser.go:192-197 | `a>b` is `LT(b,a)` |
| ParserProperties.GreaterEqualSwapsOperands | parser.go:198-203 | `a>=b` is `LE(b,a)` |
| ParserProperties.ProductBindsTighter | parser.go:211-253 | `a+b*c` is `Sum(a, Mul(b,c))` |
| ParserProperties.UnaryMinus | parser.go:258-262 | `-p` is `Sub(Num 0, p)` |
| ParserProperties.UnaryPlus | parser.go:256-257 | `+p` is `p` |
| ParserProperties.StmtOfExpression | parser.go:68-137 | a statement starting with `(`, an identifier or a number is an expression followed by `;` |
| ParserProperties.StmtOfVarInit | parser.go:124-133 | `var e = r;` is `Alloc(e, r)` |
| ParserProperties.StmtOfVarBare | parser.go:124-133 | `var e;` is `e` itself |
| ParserProperties.StmtOfAssignment | parser.go:140-149 | `l = r;` is `Assign(l, r)` |
| ParserProperties.StmtOfBlockOfOne | parser.go:105-123 | `{ s }` is a block holding `s` |
| ParserProperties.CloseBraceIsNoStatement | parser.go:68-138 | no statement starts with `}` |
| ParserProperties.VarWithoutInitialiserFails | parser.go:285 | `var x = ;` fails in `expectNumber` at the `;` |
| StatementParsing.EofIsNoStatement | parser.go:68-138 | no statement starts at the Eof token |
| StatementParsing.ProgramRestOfStmts | parser.go:58-64 | from any statement on, the loop of `program` collects the remaining statements in order and stops at the Eof token |
| StatementParsing.ProgramOfStmts | parser.go:55-66 | one or more statements parsed one after another from the first token, followed by an Eof token, are exactly the program, in source order |
| StatementParsing.ProgramRestParts | parser.go:58-64 | what the loop returns is its accumulator followed by statements parsed one after another up to an Eof token |
| StatementParsing.ProgramParts | parser.go:55-66 | every accepted program is one or more statements parsed one after another from the first token, the last followed by an Eof token, so parsing stops at the first Eof token |
| StatementParsing.ProgramRestNeedsEof | parser.go:58-64 | without an Eof token ahead, the loop never succeeds |
| StatementParsing.ProgramNeedsEof | parser.go:55-66 | a token sequence without an Eof token is never a program |
| StatementParsing.ProgramRestRunsOffEnd | parser.go:58-64 | statements that use up every token end the loop with the end-of-input error |
| StatementParsing.ProgramRunsOffEnd | parser.go:55-66 | statements that use up every token, with no Eof token after them, fail with the end-of-input error (the nil `currentToken`) |
| StatementParsing.BlockRestOfStmts | parser.go:108-119 | the loop of a block collects the statements in order and stops after `}` |
| StatementParsing.StmtOfBlock | parser.go:105-123 | `{`, statements parsed one after another, then `}` is the block of exactly those statements in order, the empty block included |
| StatementParsing.BlockRestParts | parser.go:108-119 | what the loop returns is its accumulator followed by statements parsed one after another up to `}` |
| StatementParsing.BlockParts | parser.go:105-123 | every accepted block is its statements parsed one after another, the last followed by `}`, and parsing goes on after that `}` |
| StatementParsing.MoreNamesOfRender | parser.go:297-305 | the comma loop of `argDefs` appends each name in order and stops after `)` |
| StatementParsing.ArgDefsOfNames | parser.go:290-307 | `argDefs` returns the parameter names in source order, and the empty list for `)` |
| StatementParsing.StmtOfFunction | parser.go:69-77 | `fnc name ( params ) body` is `Function(name, params, body)` |
| StatementParsing.StmtOfReturn | parser.go:78-83 | `return e ;` is `Return(e)` |
| StatementParsing.StmtOfIfElse | parser.go:84-94 | `if ( c ) t else e` is `If(c, t, Some(e))` |
| StatementParsing.StmtOfIfThen | parser.go:84-94 | `if ( c ) t` not followed by `else` is `If(c, t, None)` |
| StatementParsing.StmtOfFor | parser.go:95-99 | `for body` is `For(body)` |
| StatementParsing.StmtOfBreak | parser.go:100-104 | `break ;` is `Break`; `break` without `;` fails at the next token, or at the end of input |
| Scopes.VarChain | generator.go:260-268 | the contexts `findVariable` visits start at the context itself and go only to older contexts |
| Scopes.FuncChain | generator.go:270-278 | the same for `findFunction` |
| Scopes.NewFunctionContext | generator.go:38-42 | adds exactly one context and keeps the arena well formed |
| Scopes.NewChildContext | generator.go:44-49 | adds exactly one context and keeps the arena well formed |
| Scopes.CopyContext | generator.go:51-56 | adds one context that shares the original's maps and parents |
| Scopes.FindVariable | generator.go:260-268 | the only failure is `VariableNotFound` of the name looked up; what it finds is stated by `FindVariableNearest` |
| Scopes.FindFunction | generator.go:270-278 | the only failure is `FunctionNotFound` of the name looked up; what it finds is stated by `FindFunctionNearest` |
| Scopes.BindVariable | generator.go:173 | a binding keeps the arena well formed and adds no context |
| Scopes.RegisterFunction | generator.go:153-154 | a registration keeps the arena well formed and adds no context |
| Scopes.FindVariableFails | generator.go:260-268 | the lookup fails exactly when no context on the variable chain binds the name, and then reports that name |
| Scopes.FindVariableNearest | generator.go:260-268 | the lookup returns the binding of the nearest context on the chain that binds the name |
| Scopes.FindFunctionFails | generator.go:270-278 | the same as `FindVariableFails`, along the function chain |
| Scopes.FindFunctionNearest | generator.go:270-278 | the same as `FindVariableNearest`, along the function chain |
| Scopes.BindingLeavesOtherNames | generator.go:173 | binding one name changes no lookup of another name, from any context |
| Scopes.LookupsSurviveGrowth | generator.go:38-56 | adding contexts and maps changes no lookup from an old context |
| Scopes.SharedTablesResolveAlike | generator.go:51-56 | two contexts sharing maps and parents resolve every name alike |
| Scopes.FunctionContextIsolation | generator.go:38-42 | a function context sees no enclosing variable but resolves every function its creator resolves |
| Scopes.ChildBindingShadows | generator.go:44-49 | a child context resolves through its parent; a binding in the child shadows the parent's without changing the parent |
| Scopes.CopySharesBindings | generator.go:51-56 | a copy resolves as the original does, and a binding made through the copy is seen through the original |
| Lowering.Emit | generator.go:168 | appending an instruction keeps the state well formed |
| Lowering.SetTerm | generator.go:117 | setting a terminator keeps the state well formed |
| Lowering.AddBlock | generator.go:120 | a new block keeps the state well formed |
| Lowering.AddFunc | generator.go:150 | a new function keeps the state well formed |
| Lowering.BlockLabel | generator.go:60-64 | a label is `block-` followed by the canonical decimal form of the counter, which reads back as the counter |
| Lowering.LowerExpr | generator.go:201-241 | an expression keeps the state well formed, changes no context or map, and adds no block; `BinaryEmits`, `SlotReadLoads`, `ParamReadIsDirect`, `CallEmits` and `StatementIsNoExpression` state each case |
| Lowering.LowerBinary | generator.go:203-226 | as for `LowerExpr`; `BinaryEmits` states the operands' order and the instruction appended |
| Lowering.EmitBinary | generator.go:203-226 | emitting the operator changes no context or map and adds no block |
| Lowering.LowerCall | generator.go:243-258 | as for `LowerExpr` |
| Lowering.LowerArgs | generator.go:246-254 | as for `LowerExpr`, with one value per argument |
| Lowering.LowerStmt | generator.go:113-199 | a statement keeps the state well formed and removes no block or context; `StmtCases` and the statement lemmas state each case |
| Lowering.LowerStmts | generator.go:102-111 | as for `LowerStmt` |
| Lowering.LowerAlloc | generator.go:169-173 | as for `LowerStmt` |
| Lowering.LowerIf | generator.go:118-143 | an `if` keeps the state well formed and removes no block or context; its wiring is stated by `IfWiring` |
| Lowering.LowerBranch | generator.go:127-139 | a branch keeps the state well formed, adds its own child context and removes no block |
| Lowering.CloseThen | generator.go:131-133 | the fall-through branch changes no context or map and adds no block |
| Lowering.IfBlocks | generator.go:119-125 | adds the then and leave blocks, and the else block when there is an else |
| Lowering.IfHead | generator.go:119-126 | adds the `if`'s blocks and changes no context or map |
| Lowering.IfBranches | generator.go:127-139 | adds the branch contexts and removes nothing |
| Lowering.LeaveInto | generator.go:140-143 | the new scope's context exists and nothing is removed |
| Lowering.LowerLoopBody | generator.go:179-183 | adds the body's context and removes nothing |
| Lowering.ForHead | generator.go:175-178 | adds two blocks and changes no context or map |
| Lowering.LowerFor | generator.go:174-184 | a `for` keeps the state well formed and removes no block or context; its wiring is stated by `ForWiring` |
| Lowering.BindParams | generator.go:156-158 | changes only the new context's variable map |
| Lowering.FunctionHead | generator.go:145-158 | adds one block and one context |
| Lowering.LowerFunction | generator.go:144-162 | a definition keeps the state well formed and removes no block or context; what it defines is stated by `FunctionDefinition` |
| Lowering.InitialState | generator.go:67-76 | the starting state is well formed, with main's context only |
| Lowering.Generate | generator.go:66-80 | a produced module has at least one block, and every block belongs to one of its functions |
| LoweringFrames.LowerExprFrame | generator.go:201-241 | an expression only appends to its context's block and numbers new values |
| LoweringFrames.LowerStmtLowered | generator.go:113-199 | a statement changes, of the old state, only the current block and the scope's maps; the leave blocks in force stay, and the next context shares the old one's maps |
| LoweringFrames.LowerStmtsLowered | generator.go:102-111 | as for `LowerStmtLowered`, for a statement list |
| LoweringFrames.LowerAllocLowered | generator.go:169-173 | as for `LowerStmtLowered`, for a declaration |
| LoweringFrames.LowerBranchFrame | generator.go:127-138 | a branch changes, of the old state, only its own entry block |
| LoweringFrames.IfHeadFrame | generator.go:119-126 | the head of an `if` changes only the current block, which ends in the conditional branch |
| LoweringFrames.IfBranchesFrame | generator.go:127-139 | the branches change only the then and else blocks |
| LoweringFrames.LeaveIntoFrame | generator.go:140-143 | closing an `if` changes only the leave block's terminator |
| LoweringFrames.LowerIfLowered | generator.go:118-143 | as for `LowerStmtLowered`, for an `if` |
| LoweringFrames.ForHeadFrame | generator.go:175-178 | the head of a `for` changes only the current block's terminator |
| LoweringFrames.LowerLoopBodyFrame | generator.go:179-183 | a loop body changes, of the old state, only the loop block |
| LoweringFrames.LowerForLowered | generator.go:174-184 | as for `LowerStmtLowered`, for a `for` |
| LoweringFrames.FunctionHeadFrame | generator.go:145-158 | the head of a function definition changes only the scope's function map |
| LoweringFrames.LowerFunctionLowered | generator.go:144-162 | as for `LowerStmtLowered`, for a function definition |
| LoweringProperties.BlockNamesDistinct | generator.go:58-64 | two block names are equal only with the same counter value and the same suffix |
| LoweringProperties.StraightKeepsGraph | generator.go:163-173 | declarations, assignments, calls and expression statements keep the scope and the control-flow graph; every block's old instructions stay a prefix of its new ones |
| LoweringProperties.StraightsKeepGraph | generator.go:102-111 | as for `StraightKeepsGraph`, for a statement list |
| LoweringProperties.StmtCases | generator.go:113-199 | the case of `resolveStmt` each statement form takes; an expression statement (a binary node, a name or a number) emits and binds nothing |
| LoweringProperties.CallStmtCase | generator.go:163-164 | a call statement succeeds exactly when the call does, and drops its value |
| LoweringProperties.IfHeadShape | generator.go:119-126 | the current block branches on the condition to the then block, and to the else block or to the leave block |
| LoweringProperties.BreakBranch | generator.go:185-186 | a `break` branch ends its block with a jump to the loop's leave block |
| LoweringProperties.IfBranchesShape | generator.go:127-139 | the then block ends up terminated, a straight then branch falls through to the leave block, and a straight else branch leaves the else block unterminated |
| LoweringProperties.ThenClosed | generator.go:131-133 | after the then branch, the then block is terminated by the branch or by the fall-through |
| LoweringProperties.IfBranchesKeep | generator.go:127-139 | the branches change no other old block, and no old block's name or owner |
| LoweringProperties.LeaveIntoShape | generator.go:140-143 | closing an `if` sets only the leave block's terminator, to the enclosing leave block when there is one, and moves to the leave block |
| LoweringProperties.IfWiring | generator.go:118-143 | the whole `if`: the block names from one counter value, the conditional branch, the then block's fall-through, the else block without one, and lowering continuing on the leave block |
| LoweringProperties.ForHeadShape | generator.go:175-178 | the `for` blocks are named from one counter value, and the current block jumps into the loop block |
| LoweringProperties.LoopBodyKeep | generator.go:179-183 | a loop body changes no other old block |
| LoweringProperties.LoopBodyBackEdge | generator.go:179-183 | the back edge goes on whatever block the body ended in, replacing its terminator |
| LoweringProperties.ForWiring | generator.go:174-184 | the whole `for`: the jump into the loop, the leave block empty and unterminated, lowering continuing on a copy of the context there |
| LoweringProperties.BreakInsideIfLeavesLoop | generator.go:174-186 | `for { if (c) break; }`: the loop block branches on `c`, the then block jumps to the loop's leave block, and the if's leave block carries the back edge |
| StatementProperties.AllocBinds | generator.go:169-173 | a declaration binds the name in the scope's own map to a fresh slot, emits the alloca, the value's code and a store into the slot, and changes no other name and nothing else in the graph |
| StatementProperties.AllocReadsOuterName | generator.go:169-173 | `var x = x;` reads an enclosing `x`, and fails when there is none |
| StatementProperties.ReadAfterAlloc | generator.go:229-235 | after `var x = e;`, reading `x` loads from the declared slot |
| StatementProperties.SlotReadLoads | generator.go:229-233 | reading a name bound to a slot appends one `load` of that slot to the current block and yields its result |
| StatementProperties.AssignStores | generator.go:165-168 | an assignment succeeds exactly when the target resolves and the value lowers; it stores into the target and binds nothing |
| StatementProperties.AssignUndeclaredFails | generator.go:165-166 | assigning to an undeclared name fails with that name, whatever the right side is |
| StatementProperties.BinaryEmits | generator.go:203-226 | a binary node succeeds exactly when its left operand and then its right operand lower; the left operand's error wins; on success the left operand's code comes before the right one's, the operator's instruction on the two values is appended last, and its register is the result |
| StatementProperties.StatementIsNoExpression | generator.go:238-239 | a return, declaration, assignment, if, block, for, break or function definition in expression position fails with `InvalidNodeType` |
| StatementProperties.ReturnOfAssignmentRejected | generator.go:114-117 | `return x = 1;` fails with `InvalidNodeType` |
| StatementProperties.CallEmits | generator.go:243-258 | a call succeeds exactly when the arguments lower and the name resolves; it appends one call with one value per argument and yields its value |
| StatementProperties.UnknownFunctionFails | generator.go:255 | calling an unregistered name fails once the arguments lower |
| StatementProperties.ArgumentErrorFirst | generator.go:247-255 | a failing argument's error wins over the function lookup |
| StatementProperties.ReturnTerminates | generator.go:115-117 | a `return` succeeds exactly when its value lowers; it replaces the current block's terminator and adds no block |
| StatementProperties.StmtsStep | generator.go:102-111 | a statement list is its first statement, then the rest from where that left off |
| StatementProperties.LaterReturnWins | generator.go:115-117 | of two returns in a row, the block returns the second value |
| StatementProperties.FuncLookupIgnoresVars | generator.go:270-278 | function lookup reads only the contexts and the function maps |
| StatementProperties.IfKeepsOuterBindings | generator.go:127-140 | after an `if`, every name resolves as it did before it |
| StatementProperties.LeaveIntoResolvesAlike | generator.go:140 | the context after an `if` resolves as the scope's context did |
| StatementProperties.ForKeepsOuterBindings | generator.go:179-184 | after a `for`, every name resolves as it did before it |
| StatementProperties.CopyResolvesAlike | generator.go:51-56 | a copied context resolves every name as the original does |
| FunctionProperties.LastIndex | generator.go:156-158 | the last position of a parameter name |
| FunctionProperties.BindParamsVars | generator.go:156-158 | each parameter name is bound to its last position, and other names keep their binding |
| FunctionProperties.FunctionHeadShape | generator.go:145-158 | the new function is named after the enclosing function, has the parameters and one empty entry block named by `blockName`, and is registered in the scope's map |
| FunctionProperties.FunctionScope | generator.go:149-158 | inside the function a variable is a parameter or nothing; functions resolve as in the defining scope, the new function included |
| FunctionProperties.ParamReadIsDirect | generator.go:229-235 | reading a name bound to a parameter yields the parameter itself, with no instruction and the state unchanged |
| FunctionProperties.ParamReadInBody | generator.go:149-158 | in a new function's body a parameter name reads as the function's parameter at the name's last position, with no instruction; any other name fails |
| FunctionProperties.FunctionDefinition | generator.go:144-162 | a definition keeps the scope and the current block; the entry block ends up terminated (`ret void` for a body that sets no terminator); the name resolves to the new function |
| ProgramProperties.ProgramFrame | generator.go:66-80 | lowering a program only changes main's block and the global maps |
| ProgramProperties.GenerateShape | generator.go:66-99 | a produced module holds `printValue(value)` and `main()` first, with main's unnamed block as block 0 |
| ProgramProperties.MainNeverTerminated | generator.go:72-79 | a program of straight statements leaves main as one block with no terminator |
| ProgramProperties.UndeclaredAssignmentRejected | generator.go:165-168 | a program that starts with an assignment fails with the assigned name |
| ProgramProperties.BareVarDeclaresNothing | generator.go:196-197 | `var x; x = 1;` (a bare name, then an assignment) fails with `VariableNotFound("x")`: the bare `var` declares nothing |
| ProgramProperties.PrintValueCall | generator.go:96-99 | `printValue(7);` becomes one call of `printValue` with the constant 7 in main's block |
| ProgramProperties.TopLevelFunctionNamed | generator.go:149-161 | a top-level `fnc f(a) {}` becomes `main_f(a)` with the entry block `block-0`, which returns |
| Generator.ArgsPrefixFails | generator.go:247-254 | when an argument fails, the whole argument list fails with its error |
| Generator.Generator.constructor | generator.go:67-76 | the new generator holds the initial state |
| Generator.Generator.BlockName | generator.go:60-64 | returns `block-N` for the current counter value and increments the counter |
| Generator.Generator.NewBlock | generator.go:120 | appends an empty, unterminated block to the function |
| Generator.Generator.NewFunc | generator.go:150 | appends a function with the given name and parameters |
| Generator.Generator.NewValue | generator.go:170 | returns the next value number, and the new state is `Fresh` of the old one |
| Generator.Generator.Append | generator.go:168-172 | the new state equals `Emit` of the old one |
| Generator.Generator.Terminate | generator.go:117 | the new state equals `SetTerm` of the old one |
| Generator.Generator.AddFunctionContext | generator.go:38-42 | adds the function context, as `NewFunctionContext` specifies |
| Generator.Generator.AddChildContext | generator.go:44-49 | adds the child context, as `NewChildContext` specifies |
| Generator.Generator.AddCopyContext | generator.go:51-56 | adds the copy, as `CopyContext` specifies |
| Generator.Generator.Bind | generator.go:173 | binds the name in the context's variable map |
| Generator.Generator.Register | generator.go:154 | registers the name in the context's function map |
| Generator.Generator.ResolveExpr | generator.go:201-241 | agrees with `LowerExpr` |
| Generator.Generator.ResolveBinary | generator.go:203-226 | agrees with `LowerBinary` |
| Generator.Generator.CallFunction | generator.go:243-258 | the argument loop, lookup and call agree with `LowerCall` |
| Generator.Generator.ResolveStmt | generator.go:113-199 | agrees with `LowerStmt` |
| Generator.Generator.ResolveStmts | generator.go:102-111 | the statement loop agrees with `LowerStmts` |
| Generator.Generator.ResolveReturn | generator.go:115-117 | agrees with `LowerStmt` on a `return` |
| Generator.Generator.ResolveCallStmt | generator.go:163-164 | agrees with `LowerStmt` on a call statement |
| Generator.Generator.ResolveAssign | generator.go:165-168 | agrees with `LowerStmt` on an assignment |
| Generator.Generator.ResolveAlloc | generator.go:169-173 | agrees with `LowerAlloc` |
| Generator.Generator.ResolveIf | generator.go:118-143 | agrees with `LowerIf` |
| Generator.Generator.StartIf | generator.go:119-126 | agrees with `IfHead` |
| Generator.Generator.IfBlocksOf | generator.go:119-125 | agrees with `IfBlocks` |
| Generator.Generator.ResolveBranches | generator.go:127-139 | agrees with `IfBranches` |
| Generator.Generator.ResolveBranch | generator.go:127-130 | agrees with `LowerBranch` |
| Generator.Generator.LeaveIf | generator.go:140-143 | agrees with `LeaveInto` |
| Generator.Generator.ResolveFor | generator.go:174-184 | agrees with `LowerFor` |
| Generator.Generator.StartFor | generator.go:175-178 | agrees with `ForHead` |
| Generator.Generator.ResolveLoopBody | generator.go:179-183 | agrees with `LowerLoopBody` |
| Generator.Generator.ResolveFunction | generator.go:144-162 | agrees with `LowerFunction` |
| Generator.Generator.StartFunction | generator.go:145-158 | agrees with `FunctionHead` |
| Generator.Generator.BindParameters | generator.go:156-158 | the parameter loop agrees with `BindParams` |
| Generator.GenerateIR | generator.go:66-80 | produces exactly `Generate(program)` |

## Left out

- main.go is not part of this model. It reads the source file, writes `main.ll` and runs `clang`, all of which is I/O and process plumbing.
- The textual form of the module (`module.String()`) is left out: `Generate` returns the module itself. So are the `llir` builders, whose instructions are modelled by the abstract `Ir` datatypes.
- `registerGlobalFuncs` is modelled only for the registration of `printValue`:
  - the `printf` declaration, the `.intF` global, the GEP and `printValue`'s body are left out as IR boilerplate;
  - because `printf` is left out, the model numbers functions from `printValue` (0) and `main` (1), one less than the source's module order;
  - `printf` is never registered in a function map in the source either, so no program can call it.
- A value's type test (`v.Type().Equal(...)`) becomes the slot-versus-direct tag of `Ir.Value`.
- `unicode.IsSpace` and `unicode.IsLetter` are modelled for Latin-1 only. No rune above U+00FF counts as a space or a letter in this model.
- ScanNumber: a digit run's value is unbounded. The source's `strconv.Atoi` fails past the 64-bit range, and the number loop then stops early. The truncation to `i32` in `constant.NewInt` is not modelled either.
- The linked lists of tokens, statements and arguments (`next` pointers) are sequences. Sharing and aliasing of nodes are not modelled.
- The `fmt.Println` before the panic in `expect` is a diagnostic side effect and is left out.
- A `panic` becomes an `Err` result. For the parser, a nil `currentToken` (reachable only without an Eof token) is the end of the sequence.
- `blockIndex` is a global in the source and is never reset. The model starts it at 0 for one run of `GenerateIR`.
- `break` outside a loop uses a nil `forLeaveBlock`. The model keeps this as a branch to no block (`Br(None)`) rather than an error, because the source builds the branch without complaint and only the later serialisation would fail.
- Blocks the source leaves unterminated, such as `main`'s block, the else block and a leave block, stay unterminated in the model. The model does not judge whether the module is valid LLVM.
- Scope: the source's `Scope` object is updated in place (`s.ctx = ...`). In the model, `ResolveStmt` returns the updated scope as a value, and the caller continues with it.
- Parser: `ParserContext.currentToken` is modelled as a cursor into the token sequence, threaded through functions instead of a field updated in place.
- Stmt, Expr and the other rule functions of `Parser` state only that the cursor moves forward within the tokens. What they build is stated by lemmas beside them:
  - `ParserProperties` covers expressions, calls, `var` and assignments, against the printer `Render`;
  - `StatementParsing` covers programs, blocks, parameter lists and the `fnc`, `return`, `if`, `for` and `break` statements.
- Scopes.FindVariable: its own contract states only the error it fails with. What it returns, the binding of the nearest context on the chain, is stated by `FindVariableNearest` and `FindVariableFails`; a quantified postcondition on the function itself made every lookup in the lowering proofs too costly.
- Scopes.FindFunction: the same, with `FindFunctionNearest` and `FindFunctionFails`.
