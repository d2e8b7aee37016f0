/**
 * The recursive-descent parser (parser.go). The source keeps a mutable
 * `currentToken` in a `ParserContext`; here every rule is a function of the
 * token sequence and a cursor `pos` into it, returning what it built and
 * the cursor after it. `pos == |toks|` is the source's nil `currentToken`
 * (only reachable on a token sequence without Eof). Every `panic` is an
 * `Err`.
 *
 * Each operator loop of the source (`for { if consume(..) .. else break }`)
 * is a `...Rest` function that takes the tree built so far as an
 * accumulator, so the loop's left fold is kept.
 *
 * The mutually recursive rules terminate on (tokens left, rank): every
 * call either consumes a token first or goes to a rule of lower rank.
 */
module Parser {
  import opened Common
  import opened Decimal
  import opened Lexer
  import opened Ast

  /** A rule's output and the cursor after it. */
  datatype Parsed<+T> = Parsed(val: T, next: nat)

  /** The current token is the Reserved token `s`. */
  predicate IsReserved(toks: seq<Token>, pos: nat, s: string) {
    pos < |toks| && toks[pos].kind == Reserved && toks[pos].text == s
  }

  /** `consume`: advance over the Reserved token `s` if it is current. */
  function Consume(toks: seq<Token>, pos: nat, s: string): (r: (bool, nat))
    requires pos <= |toks|
    ensures r.0 <==> IsReserved(toks, pos, s)
    ensures r.1 == if r.0 then pos + 1 else pos
  {
    if pos < |toks| && toks[pos].kind == Reserved && toks[pos].text == s then (true, pos + 1)
    else (false, pos)
  }

  /** `consumeIdentifier`: the current identifier's text and the cursor past it, or "" and no move. */
  function ConsumeIdentifier(toks: seq<Token>, pos: nat): (r: (string, nat))
    requires pos <= |toks|
    ensures pos < |toks| && toks[pos].kind == Identifier ==> r == (toks[pos].text, pos + 1)
    ensures !(pos < |toks| && toks[pos].kind == Identifier) ==> r == ("", pos)
  {
    if pos < |toks| && toks[pos].kind == Identifier then (toks[pos].text, pos + 1)
    else ("", pos)
  }

  /** `expect`: the Reserved token `s` must be current. */
  function Expect(toks: seq<Token>, pos: nat, s: string): (r: Result<nat>)
    requires pos <= |toks|
    ensures r.Ok? <==> IsReserved(toks, pos, s)
    ensures r.Ok? ==> r.value == pos + 1
    ensures r.Err? ==> r.error == (if pos == |toks| then UnexpectedEnd(pos) else ParseError(s, pos))
  {
    if pos == |toks| then Err(UnexpectedEnd(pos))
    else if toks[pos].kind == Reserved && toks[pos].text == s then Ok(pos + 1)
    else Err(ParseError(s, pos))
  }

  /** `expectNumber`: a Number token must be current; its value is returned. */
  function ExpectNumber(toks: seq<Token>, pos: nat): (r: Result<Parsed<int>>)
    requires pos <= |toks|
    ensures r.Ok? <==> pos < |toks| && toks[pos].kind == Number
    ensures r.Ok? ==> r.value == Parsed(toks[pos].value, pos + 1)
    ensures r.Err? ==> r.error == (if pos == |toks| then UnexpectedEnd(pos) else ParseError("number", pos))
  {
    if pos == |toks| then Err(UnexpectedEnd(pos))
    else if toks[pos].kind == Number then Ok(Parsed(toks[pos].value, pos + 1))
    else Err(ParseError("number", pos))
  }

  /** `expectIdentifier`: an Identifier token must be current; its text is returned. */
  function ExpectIdentifier(toks: seq<Token>, pos: nat): (r: Result<Parsed<string>>)
    requires pos <= |toks|
    ensures r.Ok? <==> pos < |toks| && toks[pos].kind == Identifier
    ensures r.Ok? ==> r.value == Parsed(toks[pos].text, pos + 1)
    ensures r.Err? ==> r.error == (if pos == |toks| then UnexpectedEnd(pos) else ParseError("identifier", pos))
  {
    if pos == |toks| then Err(UnexpectedEnd(pos))
    else if toks[pos].kind == Identifier then Ok(Parsed(toks[pos].text, pos + 1))
    else Err(ParseError("identifier", pos))
  }

  /** `program`: at least one statement, then statements until the Eof token. */
  function Program(toks: seq<Token>): (r: Result<seq<Node>>)
    ensures r.Ok? ==> |r.value| >= 1
  {
    var first :- Stmt(toks, 0);
    ProgramRest(toks, first.next, [first.val])
  }

  /** The loop of `program`; reaching the end without an Eof token is the nil dereference. */
  function ProgramRest(toks: seq<Token>, pos: nat, acc: seq<Node>): (r: Result<seq<Node>>)
    requires pos <= |toks|
    ensures r.Ok? ==> |r.value| >= |acc| && r.value[..|acc|] == acc
    decreases |toks| - pos
  {
    if pos == |toks| then Err(UnexpectedEnd(pos))
    else if toks[pos].kind == Eof then Ok(acc)
    else
      var s :- Stmt(toks, pos);
      var r := ProgramRest(toks, s.next, acc + [s.val]);
      assert r.Ok? ==> r.value[..|acc|] == (acc + [s.val])[..|acc|];
      r
  }

  /** `stmt`: the keyword statements are tried in this order; anything else is an expression statement. */
  function Stmt(toks: seq<Token>, pos: nat): (r: Result<Parsed<Node>>)
    requires pos <= |toks|
    ensures r.Ok? ==> pos < r.value.next <= |toks|
    decreases |toks| - pos, 12
  {
    var (isFnc, p) := Consume(toks, pos, "fnc");
    if isFnc then FunctionDef(toks, p) else
    var (isReturn, p) := Consume(toks, pos, "return");
    if isReturn then ReturnStmt(toks, p) else
    var (isIf, p) := Consume(toks, pos, "if");
    if isIf then IfStmt(toks, p) else
    var (isFor, p) := Consume(toks, pos, "for");
    if isFor then ForStmt(toks, p) else
    var (isBreak, p) := Consume(toks, pos, "break");
    if isBreak then BreakStmt(toks, p) else
    var (isBlock, p) := Consume(toks, pos, "{");
    if isBlock then BlockStmt(toks, p) else
    var (isVar, p) := Consume(toks, pos, "var");
    if isVar then VarStmt(toks, p) else
    ExprStmt(toks, pos)
  }

  /** After `fnc`: a name, `(`, the parameter names, then the body statement. */
  function FunctionDef(toks: seq<Token>, pos: nat): (r: Result<Parsed<Node>>)
    requires pos <= |toks|
    ensures r.Ok? ==> pos < r.value.next <= |toks|
    decreases |toks| - pos, 13
  {
    var name :- ExpectIdentifier(toks, pos);
    var p :- Expect(toks, name.next, "(");
    var defs :- ArgDefs(toks, p);
    var body :- Stmt(toks, defs.next);
    Ok(Parsed(Function(name.val, defs.val, body.val), body.next))
  }

  /** After `return`: an assignment expression and `;`. */
  function ReturnStmt(toks: seq<Token>, pos: nat): (r: Result<Parsed<Node>>)
    requires pos <= |toks|
    ensures r.Ok? ==> pos < r.value.next <= |toks|
    decreases |toks| - pos, 13
  {
    var e :- Assign(toks, pos);
    var p :- Expect(toks, e.next, ";");
    Ok(Parsed(Return(e.val), p))
  }

  /** After `if`: `(`, the condition, `)`, the then statement, and an optional `else` statement. */
  function IfStmt(toks: seq<Token>, pos: nat): (r: Result<Parsed<Node>>)
    requires pos <= |toks|
    ensures r.Ok? ==> pos < r.value.next <= |toks|
    decreases |toks| - pos, 13
  {
    var p :- Expect(toks, pos, "(");
    var cond :- Expr(toks, p);
    var p :- Expect(toks, cond.next, ")");
    var thenStmt :- Stmt(toks, p);
    var (hasElse, p) := Consume(toks, thenStmt.next, "else");
    if hasElse then
      var elseStmt :- Stmt(toks, p);
      Ok(Parsed(If(cond.val, thenStmt.val, Some(elseStmt.val)), elseStmt.next))
    else
      Ok(Parsed(If(cond.val, thenStmt.val, None), p))
  }

  /** After `for`: the body statement (there is no loop condition). */
  function ForStmt(toks: seq<Token>, pos: nat): (r: Result<Parsed<Node>>)
    requires pos <= |toks|
    ensures r.Ok? ==> pos < r.value.next <= |toks|
    decreases |toks| - pos, 13
  {
    var body :- Stmt(toks, pos);
    Ok(Parsed(For(body.val), body.next))
  }

  /** After `break`: `;`. */
  function BreakStmt(toks: seq<Token>, pos: nat): (r: Result<Parsed<Node>>)
    requires pos <= |toks|
    ensures r.Ok? ==> pos < r.value.next <= |toks|
    decreases |toks| - pos, 13
  {
    var p :- Expect(toks, pos, ";");
    Ok(Parsed(Break, p))
  }

  /** After `{`: statements up to `}`. */
  function BlockStmt(toks: seq<Token>, pos: nat): (r: Result<Parsed<Node>>)
    requires pos <= |toks|
    ensures r.Ok? ==> pos < r.value.next <= |toks|
    decreases |toks| - pos, 14
  {
    var body :- BlockRest(toks, pos, []);
    Ok(Parsed(Block(body.val), body.next))
  }

  /** After `var`: an expression, an optional `= expression`, and `;`; without `=` the expression itself is the statement. */
  function VarStmt(toks: seq<Token>, pos: nat): (r: Result<Parsed<Node>>)
    requires pos <= |toks|
    ensures r.Ok? ==> pos < r.value.next <= |toks|
    decreases |toks| - pos, 13
  {
    var e :- Expr(toks, pos);
    var (init, p) := Consume(toks, e.next, "=");
    if init then
      var rhs :- Expr(toks, p);
      var p :- Expect(toks, rhs.next, ";");
      Ok(Parsed(Alloc(e.val, rhs.val), p))
    else
      var p :- Expect(toks, p, ";");
      Ok(Parsed(e.val, p))
  }

  /** The default of `stmt`: an assignment expression and `;`. */
  function ExprStmt(toks: seq<Token>, pos: nat): (r: Result<Parsed<Node>>)
    requires pos <= |toks|
    ensures r.Ok? ==> pos < r.value.next <= |toks|
    decreases |toks| - pos, 11
  {
    var e :- Assign(toks, pos);
    var p :- Expect(toks, e.next, ";");
    Ok(Parsed(e.val, p))
  }

  /** The loop of the `{` branch of `stmt`: statements in order until `}`. */
  function BlockRest(toks: seq<Token>, pos: nat, acc: seq<Node>): (r: Result<Parsed<seq<Node>>>)
    requires pos <= |toks|
    ensures r.Ok? ==> pos < r.value.next <= |toks|
    ensures r.Ok? ==> |r.value.val| >= |acc| && r.value.val[..|acc|] == acc
    decreases |toks| - pos, 13
  {
    var (close, p) := Consume(toks, pos, "}");
    if close then Ok(Parsed(acc, p))
    else
      var s :- Stmt(toks, pos);
      var r := BlockRest(toks, s.next, acc + [s.val]);
      assert r.Ok? ==> r.value.val[..|acc|] == (acc + [s.val])[..|acc|];
      r
  }

  /** `assign`: an expression, made the left side of an Assign when `=` follows. */
  function Assign(toks: seq<Token>, pos: nat): (r: Result<Parsed<Node>>)
    requires pos <= |toks|
    ensures r.Ok? ==> pos < r.value.next <= |toks|
    decreases |toks| - pos, 10
  {
    var lhs :- Expr(toks, pos);
    var (isAssign, p) := Consume(toks, lhs.next, "=");
    if isAssign then
      var rhs :- Expr(toks, p);
      Ok(Parsed(Node.Assign(lhs.val, rhs.val), rhs.next))
    else Ok(lhs)
  }

  /** `expr`. */
  function Expr(toks: seq<Token>, pos: nat): (r: Result<Parsed<Node>>)
    requires pos <= |toks|
    ensures r.Ok? ==> pos < r.value.next <= |toks|
    decreases |toks| - pos, 9
  {
    Equality(toks, pos)
  }

  /** `equality`. */
  function Equality(toks: seq<Token>, pos: nat): (r: Result<Parsed<Node>>)
    requires pos <= |toks|
    ensures r.Ok? ==> pos < r.value.next <= |toks|
    decreases |toks| - pos, 8
  {
    var first :- Relational(toks, pos);
    EqualityRest(toks, first.next, first.val)
  }

  /** The loop of `equality`, with the tree built so far in `acc`. */
  function EqualityRest(toks: seq<Token>, pos: nat, acc: Node): (r: Result<Parsed<Node>>)
    requires pos <= |toks|
    ensures r.Ok? ==> pos <= r.value.next <= |toks|
    decreases |toks| - pos, 0
  {
    var (isEq, p) := Consume(toks, pos, "==");
    if isEq then
      var rhs :- Relational(toks, p);
      EqualityRest(toks, rhs.next, Equal(acc, rhs.val))
    else
    var (isNe, p) := Consume(toks, pos, "!=");
    if isNe then
      var rhs :- Relational(toks, p);
      EqualityRest(toks, rhs.next, NotEqual(acc, rhs.val))
    else Ok(Parsed(acc, pos))
  }

  /** `relational`. */
  function Relational(toks: seq<Token>, pos: nat): (r: Result<Parsed<Node>>)
    requires pos <= |toks|
    ensures r.Ok? ==> pos < r.value.next <= |toks|
    decreases |toks| - pos, 7
  {
    var first :- Add(toks, pos);
    RelationalRest(toks, first.next, first.val)
  }

  /** The loop of `relational`; `>` and `>=` build LT and LE with the operands swapped. */
  function RelationalRest(toks: seq<Token>, pos: nat, acc: Node): (r: Result<Parsed<Node>>)
    requires pos <= |toks|
    ensures r.Ok? ==> pos <= r.value.next <= |toks|
    decreases |toks| - pos, 0
  {
    var (isLt, p) := Consume(toks, pos, "<");
    if isLt then
      var rhs :- Add(toks, p);
      RelationalRest(toks, rhs.next, LT(acc, rhs.val))
    else
    var (isLe, p) := Consume(toks, pos, "<=");
    if isLe then
      var rhs :- Add(toks, p);
      RelationalRest(toks, rhs.next, LE(acc, rhs.val))
    else
    var (isGt, p) := Consume(toks, pos, ">");
    if isGt then
      var rhs :- Add(toks, p);
      RelationalRest(toks, rhs.next, LT(rhs.val, acc))
    else
    var (isGe, p) := Consume(toks, pos, ">=");
    if isGe then
      var rhs :- Add(toks, p);
      RelationalRest(toks, rhs.next, LE(rhs.val, acc))
    else Ok(Parsed(acc, pos))
  }

  /** `add`. */
  function Add(toks: seq<Token>, pos: nat): (r: Result<Parsed<Node>>)
    requires pos <= |toks|
    ensures r.Ok? ==> pos < r.value.next <= |toks|
    decreases |toks| - pos, 6
  {
    var first :- MulLevel(toks, pos);
    AddRest(toks, first.next, first.val)
  }

  /** The loop of `add`. */
  function AddRest(toks: seq<Token>, pos: nat, acc: Node): (r: Result<Parsed<Node>>)
    requires pos <= |toks|
    ensures r.Ok? ==> pos <= r.value.next <= |toks|
    decreases |toks| - pos, 0
  {
    var (isPlus, p) := Consume(toks, pos, "+");
    if isPlus then
      var rhs :- MulLevel(toks, p);
      AddRest(toks, rhs.next, Sum(acc, rhs.val))
    else
    var (isMinus, p) := Consume(toks, pos, "-");
    if isMinus then
      var rhs :- MulLevel(toks, p);
      AddRest(toks, rhs.next, Sub(acc, rhs.val))
    else Ok(Parsed(acc, pos))
  }

  /** `mul` (named apart from the `Mul` node). */
  function MulLevel(toks: seq<Token>, pos: nat): (r: Result<Parsed<Node>>)
    requires pos <= |toks|
    ensures r.Ok? ==> pos < r.value.next <= |toks|
    decreases |toks| - pos, 5
  {
    var first :- Unary(toks, pos);
    MulRest(toks, first.next, first.val)
  }

  /** The loop of `mul`. */
  function MulRest(toks: seq<Token>, pos: nat, acc: Node): (r: Result<Parsed<Node>>)
    requires pos <= |toks|
    ensures r.Ok? ==> pos <= r.value.next <= |toks|
    decreases |toks| - pos, 0
  {
    var (isTimes, p) := Consume(toks, pos, "*");
    if isTimes then
      var rhs :- Unary(toks, p);
      MulRest(toks, rhs.next, Mul(acc, rhs.val))
    else
    var (isSlash, p) := Consume(toks, pos, "/");
    if isSlash then
      var rhs :- Unary(toks, p);
      MulRest(toks, rhs.next, Div(acc, rhs.val))
    else Ok(Parsed(acc, pos))
  }

  /** `unary`: `+p` is `p`, `-p` is `0 - p`. */
  function Unary(toks: seq<Token>, pos: nat): (r: Result<Parsed<Node>>)
    requires pos <= |toks|
    ensures r.Ok? ==> pos < r.value.next <= |toks|
    decreases |toks| - pos, 4
  {
    var (isPlus, p) := Consume(toks, pos, "+");
    if isPlus then Primary(toks, p)
    else
    var (isMinus, p) := Consume(toks, pos, "-");
    if isMinus then
      var operand :- Primary(toks, p);
      Ok(Parsed(Sub(Num(0), operand.val), operand.next))
    else Primary(toks, pos)
  }

  /** `primary`: a parenthesised expression, a call, a variable or a number. */
  function Primary(toks: seq<Token>, pos: nat): (r: Result<Parsed<Node>>)
    requires pos <= |toks|
    ensures r.Ok? ==> pos < r.value.next <= |toks|
    decreases |toks| - pos, 3
  {
    var (isParen, p) := Consume(toks, pos, "(");
    if isParen then
      var e :- Expr(toks, p);
      var q :- Expect(toks, e.next, ")");
      Ok(Parsed(e.val, q))
    else
    var (identifier, p) := ConsumeIdentifier(toks, pos);
    if identifier != "" then
      var (isCall, q) := Consume(toks, p, "(");
      if isCall then
        var args :- Args(toks, q);
        Ok(Parsed(FunctionCall(identifier, args.val), args.next))
      else Ok(Parsed(LVar(identifier), p))
    else
      var n :- ExpectNumber(toks, p);
      Ok(Parsed(Num(n.val), n.next))
  }

  /** `argDefs`, entered after `(`: parameter names separated by `,`, up to `)`. */
  function ArgDefs(toks: seq<Token>, pos: nat): (r: Result<Parsed<seq<string>>>)
    requires pos <= |toks|
    ensures r.Ok? ==> pos < r.value.next <= |toks|
  {
    var (close, p) := Consume(toks, pos, ")");
    if close then Ok(Parsed([], p))
    else
      var (identifier, p) := ConsumeIdentifier(toks, pos);
      ArgDefsRest(toks, p, [identifier])
  }

  /** The loop of `argDefs`; a missing name after `,` is recorded as "". */
  function ArgDefsRest(toks: seq<Token>, pos: nat, acc: seq<string>): (r: Result<Parsed<seq<string>>>)
    requires pos <= |toks|
    ensures r.Ok? ==> pos < r.value.next <= |toks|
    decreases |toks| - pos
  {
    var (isComma, p) := Consume(toks, pos, ",");
    if isComma then
      var (identifier, q) := ConsumeIdentifier(toks, p);
      ArgDefsRest(toks, q, acc + [identifier])
    else
      var q :- Expect(toks, pos, ")");
      Ok(Parsed(acc, q))
  }

  /** `args`, entered after `(`: argument expressions separated by `,`, up to `)`. */
  function Args(toks: seq<Token>, pos: nat): (r: Result<Parsed<seq<Node>>>)
    requires pos <= |toks|
    ensures r.Ok? ==> pos < r.value.next <= |toks|
    decreases |toks| - pos, 10
  {
    var (close, p) := Consume(toks, pos, ")");
    if close then Ok(Parsed([], p))
    else
      var first :- Expr(toks, pos);
      ArgsRest(toks, first.next, [first.val])
  }

  /** The loop of `args`. */
  function ArgsRest(toks: seq<Token>, pos: nat, acc: seq<Node>): (r: Result<Parsed<seq<Node>>>)
    requires pos <= |toks|
    ensures r.Ok? ==> pos < r.value.next <= |toks|
    decreases |toks| - pos, 0
  {
    var (isComma, p) := Consume(toks, pos, ",");
    if isComma then
      var e :- Expr(toks, p);
      ArgsRest(toks, e.next, acc + [e.val])
    else
      var q :- Expect(toks, pos, ")");
      Ok(Parsed(acc, q))
  }
}
