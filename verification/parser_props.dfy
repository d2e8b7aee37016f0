/**
 * What the parser promises, stated against an independent printer.
 *
 * `Render` prints an expression tree fully parenthesised; parsing the
 * printout gives the tree back (`ExprOfRender`), which pins down every
 * operator token, the parenthesis rule of `primary` and the call syntax.
 * `Fold` is the left fold of an unparenthesised operator chain; parsing a
 * chain on any one of the four operator levels gives that fold
 * (`ExprOfChain`), including the swapped operands of `>` and `>=`.
 */
module ParserProperties {
  import opened Common
  import opened Decimal
  import opened Lexer
  import opened Ast
  import opened Parser

  function Res(s: string): Token {
    Token(Reserved, s, 0)
  }

  function Ident(x: string): Token {
    Token(Identifier, x, 0)
  }

  /** The token the lexer makes of the digits of `v`. */
  function NumberToken(v: nat): Token {
    Token(Number, NatToString(v), v)
  }

  const EqualityOps: set<string> := {"==", "!="}
  const RelationalOps: set<string> := {"<", "<=", ">", ">="}
  const AddOps: set<string> := {"+", "-"}
  const MulOps: set<string> := {"*", "/"}

  /** The current token is one of the Reserved tokens `ops`. */
  predicate OpIn(toks: seq<Token>, q: nat, ops: set<string>) {
    q < |toks| && toks[q].kind == Reserved && toks[q].text in ops
  }

  /** A token that ends an expression: `)`, `,`, `;` or `=`. */
  predicate Closer(toks: seq<Token>, q: nat) {
    q < |toks| && toks[q].kind == Reserved && toks[q].text in {")", ",", ";", "="}
  }

  /** The word `w` occurs in `toks` at `p`. */
  predicate At(toks: seq<Token>, p: nat, w: seq<Token>) {
    p + |w| <= |toks| && forall i :: 0 <= i < |w| ==> toks[p + i] == w[i]
  }

  lemma AtSplit(toks: seq<Token>, p: nat, a: seq<Token>, b: seq<Token>)
    requires At(toks, p, a + b)
    ensures At(toks, p, a) && At(toks, p + |a|, b)
  {
    forall i | 0 <= i < |a| ensures toks[p + i] == a[i] {
      assert (a + b)[i] == a[i];
    }
    forall i | 0 <= i < |b| ensures toks[p + |a| + i] == b[i] {
      assert (a + b)[|a| + i] == b[i];
    }
  }

  // ---------------------------------------------------------------------
  // The printer

  /** The operator token of a binary node, as `relational` reads it for LT and LE. */
  function OpText(e: Node): string
    requires e.IsBinary()
  {
    match e
    case Sum(_, _) => "+"
    case Sub(_, _) => "-"
    case Mul(_, _) => "*"
    case Div(_, _) => "/"
    case Equal(_, _) => "=="
    case NotEqual(_, _) => "!="
    case LT(_, _) => "<"
    case LE(_, _) => "<="
  }

  /** Expression trees the printer covers: natural numbers, named variables and calls, binary nodes. */
  predicate Printable(e: Node)
    decreases e
  {
    match e
    case Num(v) => v >= 0
    case LVar(x) => x != ""
    case FunctionCall(f, args) => f != "" && AllPrintable(args)
    case Sum(l, r) => Printable(l) && Printable(r)
    case Sub(l, r) => Printable(l) && Printable(r)
    case Mul(l, r) => Printable(l) && Printable(r)
    case Div(l, r) => Printable(l) && Printable(r)
    case Equal(l, r) => Printable(l) && Printable(r)
    case NotEqual(l, r) => Printable(l) && Printable(r)
    case LT(l, r) => Printable(l) && Printable(r)
    case LE(l, r) => Printable(l) && Printable(r)
    case _ => false
  }

  predicate AllPrintable(args: seq<Node>)
    decreases args
  {
    |args| == 0 || (Printable(args[0]) && AllPrintable(args[1..]))
  }

  /** A binary node's operands with its operator token between them, in parentheses. */
  function Parenthesised(l: seq<Token>, op: string, r: seq<Token>): seq<Token> {
    [Res("(")] + l + [Res(op)] + r + [Res(")")]
  }

  /** The tokens of `e`, every binary node in parentheses. */
  function Render(e: Node): (w: seq<Token>)
    requires Printable(e)
    ensures |w| >= 1
    decreases e
  {
    match e
    case Num(v) => [NumberToken(v)]
    case LVar(x) => [Ident(x)]
    case FunctionCall(f, args) => [Ident(f), Res("(")] + RenderArgs(args) + [Res(")")]
    case Sum(l, r) => Parenthesised(Render(l), "+", Render(r))
    case Sub(l, r) => Parenthesised(Render(l), "-", Render(r))
    case Mul(l, r) => Parenthesised(Render(l), "*", Render(r))
    case Div(l, r) => Parenthesised(Render(l), "/", Render(r))
    case Equal(l, r) => Parenthesised(Render(l), "==", Render(r))
    case NotEqual(l, r) => Parenthesised(Render(l), "!=", Render(r))
    case LT(l, r) => Parenthesised(Render(l), "<", Render(r))
    case LE(l, r) => Parenthesised(Render(l), "<=", Render(r))
  }

  /** Argument expressions separated by `,`. */
  function RenderArgs(args: seq<Node>): seq<Token>
    requires AllPrintable(args)
    decreases args
  {
    if |args| == 0 then [] else Render(args[0]) + RenderMoreArgs(args[1..])
  }

  /** Each further argument preceded by `,`. */
  function RenderMoreArgs(args: seq<Node>): seq<Token>
    requires AllPrintable(args)
    decreases args
  {
    if |args| == 0 then [] else [Res(",")] + Render(args[0]) + RenderMoreArgs(args[1..])
  }

  // ---------------------------------------------------------------------
  // Climbing the precedence levels

  /** A successful `primary` starts with `(`, an identifier or a number, so `unary` passes it through. */
  lemma UnaryOfPrimary(toks: seq<Token>, p: nat)
    requires p <= |toks| && Primary(toks, p).Ok?
    ensures Unary(toks, p) == Primary(toks, p)
  {
  }

  lemma MulOfPrimary(toks: seq<Token>, p: nat, e: Node, q: nat)
    requires p <= |toks| && Primary(toks, p) == Ok(Parsed(e, q)) && !OpIn(toks, q, MulOps)
    ensures MulLevel(toks, p) == Ok(Parsed(e, q))
  {
    UnaryOfPrimary(toks, p);
    assert !IsReserved(toks, q, "*") && !IsReserved(toks, q, "/");
    assert MulRest(toks, q, e) == Ok(Parsed(e, q));
  }

  lemma AddOfMul(toks: seq<Token>, p: nat, e: Node, q: nat)
    requires p <= |toks| && MulLevel(toks, p) == Ok(Parsed(e, q)) && !OpIn(toks, q, AddOps)
    ensures Add(toks, p) == Ok(Parsed(e, q))
  {
    assert !IsReserved(toks, q, "+") && !IsReserved(toks, q, "-");
    assert AddRest(toks, q, e) == Ok(Parsed(e, q));
  }

  lemma RelationalOfAdd(toks: seq<Token>, p: nat, e: Node, q: nat)
    requires p <= |toks| && Add(toks, p) == Ok(Parsed(e, q)) && !OpIn(toks, q, RelationalOps)
    ensures Relational(toks, p) == Ok(Parsed(e, q))
  {
    assert !IsReserved(toks, q, "<") && !IsReserved(toks, q, "<=");
    assert !IsReserved(toks, q, ">") && !IsReserved(toks, q, ">=");
    assert RelationalRest(toks, q, e) == Ok(Parsed(e, q));
  }

  lemma ExprOfRelational(toks: seq<Token>, p: nat, e: Node, q: nat)
    requires p <= |toks| && Relational(toks, p) == Ok(Parsed(e, q)) && !OpIn(toks, q, EqualityOps)
    ensures Expr(toks, p) == Ok(Parsed(e, q))
  {
    assert !IsReserved(toks, q, "==");
    assert !IsReserved(toks, q, "!=");
    assert EqualityRest(toks, q, e) == Ok(Parsed(e, q));
    assert Equality(toks, p) == Ok(Parsed(e, q));
  }

  /** A primary followed by a closer is a whole expression. */
  lemma ExprOfPrimary(toks: seq<Token>, p: nat, e: Node, q: nat)
    requires p <= |toks| && Primary(toks, p) == Ok(Parsed(e, q)) && Closer(toks, q)
    ensures Expr(toks, p) == Ok(Parsed(e, q))
  {
    MulOfPrimary(toks, p, e, q);
    AddOfMul(toks, p, e, q);
    RelationalOfAdd(toks, p, e, q);
    ExprOfRelational(toks, p, e, q);
  }

  lemma MulOfBinary(toks: seq<Token>, p: nat, e: Node, q: nat, q2: nat)
    requires (e.Mul? || e.Div?) && p <= |toks| && q < |toks|
    requires Primary(toks, p) == Ok(Parsed(e.lhs, q)) && IsReserved(toks, q, OpText(e))
    requires Primary(toks, q + 1) == Ok(Parsed(e.rhs, q2)) && !OpIn(toks, q2, MulOps)
    ensures MulLevel(toks, p) == Ok(Parsed(e, q2))
  {
    UnaryOfPrimary(toks, p);
    UnaryOfPrimary(toks, q + 1);
    assert !IsReserved(toks, q2, "*") && !IsReserved(toks, q2, "/");
    assert MulRest(toks, q2, e) == Ok(Parsed(e, q2));
    assert MulRest(toks, q, e.lhs) == MulRest(toks, q2, e);
  }

  lemma AddOfBinary(toks: seq<Token>, p: nat, e: Node, q: nat, q2: nat)
    requires (e.Sum? || e.Sub?) && p <= |toks| && q < |toks|
    requires MulLevel(toks, p) == Ok(Parsed(e.lhs, q)) && IsReserved(toks, q, OpText(e))
    requires MulLevel(toks, q + 1) == Ok(Parsed(e.rhs, q2)) && !OpIn(toks, q2, AddOps)
    ensures Add(toks, p) == Ok(Parsed(e, q2))
  {
    assert !IsReserved(toks, q2, "+") && !IsReserved(toks, q2, "-");
    assert AddRest(toks, q2, e) == Ok(Parsed(e, q2));
    assert AddRest(toks, q, e.lhs) == AddRest(toks, q2, e);
  }

  lemma RelationalOfBinary(toks: seq<Token>, p: nat, e: Node, q: nat, q2: nat)
    requires (e.LT? || e.LE?) && p <= |toks| && q < |toks|
    requires Add(toks, p) == Ok(Parsed(e.lhs, q)) && IsReserved(toks, q, OpText(e))
    requires Add(toks, q + 1) == Ok(Parsed(e.rhs, q2)) && !OpIn(toks, q2, RelationalOps)
    ensures Relational(toks, p) == Ok(Parsed(e, q2))
  {
    assert !IsReserved(toks, q2, "<") && !IsReserved(toks, q2, "<=");
    assert !IsReserved(toks, q2, ">") && !IsReserved(toks, q2, ">=");
    assert RelationalRest(toks, q2, e) == Ok(Parsed(e, q2));
    assert RelationalRest(toks, q, e.lhs) == RelationalRest(toks, q2, e);
  }

  lemma EqualityOfBinary(toks: seq<Token>, p: nat, e: Node, q: nat, q2: nat)
    requires (e.Equal? || e.NotEqual?) && p <= |toks| && q < |toks|
    requires Relational(toks, p) == Ok(Parsed(e.lhs, q)) && IsReserved(toks, q, OpText(e))
    requires Relational(toks, q + 1) == Ok(Parsed(e.rhs, q2)) && !OpIn(toks, q2, EqualityOps)
    ensures Expr(toks, p) == Ok(Parsed(e, q2))
  {
    assert !IsReserved(toks, q2, "==") && !IsReserved(toks, q2, "!=");
    assert EqualityRest(toks, q2, e) == Ok(Parsed(e, q2));
    assert EqualityRest(toks, q, e.lhs) == EqualityRest(toks, q2, e);
    assert Equality(toks, p) == Ok(Parsed(e, q2));
  }

  /** Two primaries joined by the operator token of a binary node, then a closer, parse as that node. */
  lemma ExprOfBinary(toks: seq<Token>, p: nat, e: Node, q: nat, q2: nat)
    requires e.IsBinary() && p <= |toks| && q < |toks|
    requires Primary(toks, p) == Ok(Parsed(e.lhs, q))
    requires IsReserved(toks, q, OpText(e))
    requires Primary(toks, q + 1) == Ok(Parsed(e.rhs, q2))
    requires Closer(toks, q2)
    ensures Expr(toks, p) == Ok(Parsed(e, q2))
  {
    if e.Mul? || e.Div? {
      MulOfBinary(toks, p, e, q, q2);
      AddOfMul(toks, p, e, q2);
      RelationalOfAdd(toks, p, e, q2);
      ExprOfRelational(toks, p, e, q2);
    } else {
      MulOfPrimary(toks, p, e.lhs, q);
      MulOfPrimary(toks, q + 1, e.rhs, q2);
      ExprOfLooserBinary(toks, p, e, q, q2);
    }
  }

  lemma ExprOfLooserBinary(toks: seq<Token>, p: nat, e: Node, q: nat, q2: nat)
    requires e.IsBinary() && !e.Mul? && !e.Div? && p <= |toks| && q < |toks|
    requires MulLevel(toks, p) == Ok(Parsed(e.lhs, q))
    requires IsReserved(toks, q, OpText(e))
    requires MulLevel(toks, q + 1) == Ok(Parsed(e.rhs, q2))
    requires Closer(toks, q2)
    ensures Expr(toks, p) == Ok(Parsed(e, q2))
  {
    if e.Sum? || e.Sub? {
      AddOfBinary(toks, p, e, q, q2);
      RelationalOfAdd(toks, p, e, q2);
      ExprOfRelational(toks, p, e, q2);
    } else {
      AddOfMul(toks, p, e.lhs, q);
      AddOfMul(toks, q + 1, e.rhs, q2);
      if e.LT? || e.LE? {
        RelationalOfBinary(toks, p, e, q, q2);
        ExprOfRelational(toks, p, e, q2);
      } else {
        RelationalOfAdd(toks, p, e.lhs, q);
        RelationalOfAdd(toks, q + 1, e.rhs, q2);
        EqualityOfBinary(toks, p, e, q, q2);
      }
    }
  }

  // ---------------------------------------------------------------------
  // Parsing the printout

  lemma AtParenthesised(toks: seq<Token>, p: nat, l: seq<Token>, op: string, r: seq<Token>)
    requires At(toks, p, Parenthesised(l, op, r))
    ensures IsReserved(toks, p, "(") && At(toks, p + 1, l)
    ensures IsReserved(toks, p + 1 + |l|, op) && At(toks, p + 2 + |l|, r)
    ensures IsReserved(toks, p + 2 + |l| + |r|, ")")
  {
    ParenthesisedShape(l, op, r);
    AtCons(toks, p, Res("("), l, [Res(op)] + r + [Res(")")]);
    AtCons(toks, p + 1 + |l|, Res(op), r, [Res(")")]);
    AtFirst(toks, p + 2 + |l| + |r|, [Res(")")]);
  }

  lemma ParenthesisedShape(l: seq<Token>, op: string, r: seq<Token>)
    ensures Parenthesised(l, op, r) == [Res("(")] + l + ([Res(op)] + r + [Res(")")])
  {
  }

  /** A printed `, arg` list and its `)`, taken apart. */
  lemma AtMoreArgs(toks: seq<Token>, p: nat, more: seq<Node>)
    requires AllPrintable(more) && At(toks, p, RenderMoreArgs(more) + [Res(")")])
    ensures |more| == 0 ==> IsReserved(toks, p, ")")
    ensures |more| > 0 ==>
      && IsReserved(toks, p, ",")
      && Printable(more[0]) && AllPrintable(more[1..])
      && At(toks, p + 1, Render(more[0]))
      && At(toks, p + 1 + |Render(more[0])|, RenderMoreArgs(more[1..]) + [Res(")")])
      && Closer(toks, p + 1 + |Render(more[0])|)
      && !IsReserved(toks, p + 1 + |Render(more[0])|, "(")
  {
    if |more| == 0 {
      AtArgEnd(toks, p, more);
    } else {
      AtMoreArgsCons(toks, p, more);
      AtArgEnd(toks, p + 1 + |Render(more[0])|, more[1..]);
    }
  }

  lemma AtMoreArgsCons(toks: seq<Token>, p: nat, more: seq<Node>)
    requires AllPrintable(more) && |more| > 0 && At(toks, p, RenderMoreArgs(more) + [Res(")")])
    ensures IsReserved(toks, p, ",") && Printable(more[0]) && AllPrintable(more[1..])
    ensures At(toks, p + 1, Render(more[0]))
    ensures At(toks, p + 1 + |Render(more[0])|, RenderMoreArgs(more[1..]) + [Res(")")])
  {
    MoreArgsShape(more);
    AtCons(toks, p, Res(","), Render(more[0]), RenderMoreArgs(more[1..]) + [Res(")")]);
  }

  /** The token after an argument: `,` before a further one, `)` after the last. */
  lemma AtArgEnd(toks: seq<Token>, p: nat, more: seq<Node>)
    requires AllPrintable(more) && At(toks, p, RenderMoreArgs(more) + [Res(")")])
    ensures Closer(toks, p) && !IsReserved(toks, p, "(")
    ensures |more| == 0 ==> IsReserved(toks, p, ")")
    ensures |more| > 0 ==> IsReserved(toks, p, ",")
  {
    MoreArgsFirst(more);
    AtFirst(toks, p, RenderMoreArgs(more) + [Res(")")]);
  }

  lemma MoreArgsShape(more: seq<Node>)
    requires AllPrintable(more) && |more| > 0
    ensures Printable(more[0]) && AllPrintable(more[1..])
    ensures RenderMoreArgs(more) + [Res(")")] == [Res(",")] + Render(more[0]) + (RenderMoreArgs(more[1..]) + [Res(")")])
  {
  }

  /** What follows an argument: `,` before a further one, `)` after the last. */
  lemma MoreArgsFirst(more: seq<Node>)
    requires AllPrintable(more)
    ensures (RenderMoreArgs(more) + [Res(")")])[0] == Res(if |more| == 0 then ")" else ",")
  {
  }

  /** A printed argument list and its `)`, taken apart. */
  lemma AtArgs(toks: seq<Token>, p: nat, args: seq<Node>)
    requires AllPrintable(args) && At(toks, p, RenderArgs(args) + [Res(")")])
    ensures |args| == 0 ==> IsReserved(toks, p, ")")
    ensures |args| > 0 ==>
      && Printable(args[0]) && AllPrintable(args[1..])
      && At(toks, p, Render(args[0]))
      && At(toks, p + |Render(args[0])|, RenderMoreArgs(args[1..]) + [Res(")")])
      && Closer(toks, p + |Render(args[0])|)
      && !IsReserved(toks, p + |Render(args[0])|, "(")
  {
    if |args| == 0 {
      assert RenderArgs(args) + [Res(")")] == [Res(")")];
      AtFirst(toks, p, [Res(")")]);
    } else {
      ArgsShape(args);
      AtSplit(toks, p, Render(args[0]), RenderMoreArgs(args[1..]) + [Res(")")]);
      AtArgEnd(toks, p + |Render(args[0])|, args[1..]);
    }
  }

  lemma ArgsShape(args: seq<Node>)
    requires AllPrintable(args) && |args| > 0
    ensures Printable(args[0]) && AllPrintable(args[1..])
    ensures RenderArgs(args) + [Res(")")] == Render(args[0]) + (RenderMoreArgs(args[1..]) + [Res(")")])
  {
  }

  /** The first token of a printout or of what follows it. */
  lemma AtFirst(toks: seq<Token>, p: nat, w: seq<Token>)
    requires At(toks, p, w) && |w| >= 1
    ensures toks[p] == w[0]
  {
    assert toks[p + 0] == w[0];
  }

  /** The printout of an expression starts with `(`, an identifier or a number. */
  lemma RenderStart(e: Node)
    requires Printable(e)
    ensures Render(e)[0] == Res("(") || Render(e)[0].kind in {Identifier, Number}
  {
  }

  /** The printout of `e`, not followed by `(`, is read back by `primary` as `e`. */
  lemma {:induction false} PrimaryOfRender(toks: seq<Token>, p: nat, e: Node)
    requires Printable(e) && At(toks, p, Render(e))
    requires p + |Render(e)| < |toks| && !IsReserved(toks, p + |Render(e)|, "(")
    ensures Primary(toks, p) == Ok(Parsed(e, p + |Render(e)|))
    decreases e, 3
  {
    AtFirst(toks, p, Render(e));
    if e.IsBinary() {
      PrimaryOfRenderBinary(toks, p, e);
    } else if e.FunctionCall? {
      PrimaryOfRenderCall(toks, p, e);
    }
  }

  lemma {:induction false} PrimaryOfRenderCall(toks: seq<Token>, p: nat, e: Node)
    requires e.FunctionCall? && Printable(e) && At(toks, p, Render(e))
    ensures Primary(toks, p) == Ok(Parsed(e, p + |Render(e)|))
    decreases e, 1
  {
    var inner := RenderArgs(e.args) + [Res(")")];
    CallShape(e);
    AtCons(toks, p, Ident(e.name), [Res("(")], inner);
    AtFirst(toks, p + 1, [Res("(")]);
    ArgsOfRender(toks, p + 2, e.args);
  }

  lemma CallShape(e: Node)
    requires e.FunctionCall? && Printable(e)
    ensures e.name != "" && AllPrintable(e.args)
    ensures Render(e) == [Ident(e.name)] + [Res("(")] + (RenderArgs(e.args) + [Res(")")])
  {
  }

  /** `primary` on a parenthesised expression. */
  lemma PrimaryOfParens(toks: seq<Token>, p: nat, e: Node, q: nat)
    requires p < |toks| && IsReserved(toks, p, "(")
    requires Expr(toks, p + 1) == Ok(Parsed(e, q)) && IsReserved(toks, q, ")")
    ensures Primary(toks, p) == Ok(Parsed(e, q + 1))
  {
  }

  /** What the printer makes of a binary node. */
  lemma RenderBinary(e: Node)
    requires e.IsBinary() && Printable(e)
    ensures Printable(e.lhs) && Printable(e.rhs)
    ensures OpText(e) != "(" && Render(e) == Parenthesised(Render(e.lhs), OpText(e), Render(e.rhs))
    ensures |Render(e)| == |Render(e.lhs)| + |Render(e.rhs)| + 3
  {
  }

  lemma {:induction false} PrimaryOfRenderBinary(toks: seq<Token>, p: nat, e: Node)
    requires e.IsBinary() && Printable(e) && At(toks, p, Render(e))
    ensures Primary(toks, p) == Ok(Parsed(e, p + |Render(e)|))
    decreases e, 2
  {
    RenderBinary(e);
    var q2 := p + |Render(e)| - 1;
    AtParenthesised(toks, p, Render(e.lhs), OpText(e), Render(e.rhs));
    ExprInsideRenderBinary(toks, p, e);
    PrimaryOfParens(toks, p, e, q2);
  }

  /** Inside the parentheses of a printed binary node is the node itself. */
  lemma {:induction false} ExprInsideRenderBinary(toks: seq<Token>, p: nat, e: Node)
    requires e.IsBinary() && Printable(e) && At(toks, p, Render(e))
    ensures Expr(toks, p + 1) == Ok(Parsed(e, p + |Render(e)| - 1))
    decreases e, 1
  {
    var q := p + 1 + |Render(e.lhs)|;
    PrimaryOfRenderLhs(toks, p, e);
    PrimaryOfRenderRhs(toks, p, e, q + 1);
    ExprOfBinary(toks, p + 1, e, q, p + |Render(e)| - 1);
  }

  /** The left operand of a printed binary node is followed by the operator token. */
  lemma {:induction false} PrimaryOfRenderLhs(toks: seq<Token>, p: nat, e: Node)
    requires e.IsBinary() && Printable(e) && At(toks, p, Render(e))
    ensures Printable(e.lhs)
    ensures p + 1 + |Render(e.lhs)| < |toks| && IsReserved(toks, p + 1 + |Render(e.lhs)|, OpText(e))
    ensures Primary(toks, p + 1) == Ok(Parsed(e.lhs, p + 1 + |Render(e.lhs)|))
    decreases e, 0
  {
    RenderBinary(e);
    AtParenthesised(toks, p, Render(e.lhs), OpText(e), Render(e.rhs));
    PrimaryOfRender(toks, p + 1, e.lhs);
  }

  /** The right operand of a printed binary node is followed by `)`, the last token of the printout. */
  lemma {:induction false} PrimaryOfRenderRhs(toks: seq<Token>, p: nat, e: Node, q: nat)
    requires e.IsBinary() && Printable(e) && At(toks, p, Render(e))
    requires Printable(e.lhs) && q == p + 2 + |Render(e.lhs)|
    ensures Printable(e.rhs)
    ensures q + |Render(e.rhs)| == p + |Render(e)| - 1 && Closer(toks, p + |Render(e)| - 1)
    ensures Primary(toks, q) == Ok(Parsed(e.rhs, q + |Render(e.rhs)|))
    decreases e, 0
  {
    RenderBinary(e);
    var r := Render(e.rhs);
    AtParenthesised(toks, p, Render(e.lhs), OpText(e), r);
    assert At(toks, q, r) && IsReserved(toks, q + |r|, ")");
    PrimaryOfRender(toks, q, e.rhs);
  }

  /** `args` reads back a printed argument list and its closing `)`. */
  lemma {:induction false} ArgsOfRender(toks: seq<Token>, p: nat, args: seq<Node>)
    requires AllPrintable(args) && At(toks, p, RenderArgs(args) + [Res(")")])
    ensures Args(toks, p) == Ok(Parsed(args, p + |RenderArgs(args)| + 1))
    decreases args, 1
  {
    AtArgs(toks, p, args);
    if |args| > 0 {
      var q := p + |Render(args[0])|;
      ExprOfFirstArg(toks, p, args);
      ArgsStep(toks, p, args[0], q);
      ArgsRestOfRender(toks, q, args[1..], [args[0]]);
      assert [args[0]] + args[1..] == args;
    }
  }

  /** The first printed argument, read as a whole expression. */
  lemma ExprOfFirstArg(toks: seq<Token>, p: nat, args: seq<Node>)
    requires AllPrintable(args) && |args| > 0 && At(toks, p, RenderArgs(args) + [Res(")")])
    ensures p < |toks| && !IsReserved(toks, p, ")")
    ensures Expr(toks, p) == Ok(Parsed(args[0], p + |Render(args[0])|))
    decreases args, 0
  {
    AtArgs(toks, p, args);
    AtFirst(toks, p, Render(args[0]));
    RenderStart(args[0]);
    PrimaryOfRender(toks, p, args[0]);
    ExprOfPrimary(toks, p, args[0], p + |Render(args[0])|);
  }

  /** `args` on a first argument that is not `)`. */
  lemma ArgsStep(toks: seq<Token>, p: nat, a: Node, q: nat)
    requires p < |toks| && !IsReserved(toks, p, ")") && Expr(toks, p) == Ok(Parsed(a, q))
    ensures Args(toks, p) == ArgsRest(toks, q, [a])
  {
  }

  /** The loop of `args` reads back the `, arg` pairs and the closing `)`. */
  lemma {:induction false} ArgsRestOfRender(toks: seq<Token>, p: nat, more: seq<Node>, acc: seq<Node>)
    requires AllPrintable(more) && At(toks, p, RenderMoreArgs(more) + [Res(")")])
    ensures ArgsRest(toks, p, acc) == Ok(Parsed(acc + more, p + |RenderMoreArgs(more)| + 1))
    decreases more, 1
  {
    AtMoreArgs(toks, p, more);
    if |more| > 0 {
      var q := p + 1 + |Render(more[0])|;
      ExprOfRenderArg(toks, p, more);
      ArgsRestStep(toks, p, more[0], q, acc);
      ArgsRestOfRender(toks, q, more[1..], acc + [more[0]]);
      assert (acc + [more[0]]) + more[1..] == acc + more;
    } else {
      assert acc + more == acc;
    }
  }

  /** A printed `, arg` pair: the comma, then the argument as a whole expression. */
  lemma ExprOfRenderArg(toks: seq<Token>, p: nat, more: seq<Node>)
    requires AllPrintable(more) && |more| > 0 && At(toks, p, RenderMoreArgs(more) + [Res(")")])
    ensures IsReserved(toks, p, ",")
    ensures Expr(toks, p + 1) == Ok(Parsed(more[0], p + 1 + |Render(more[0])|))
    decreases more, 0
  {
    AtMoreArgs(toks, p, more);
    PrimaryOfRender(toks, p + 1, more[0]);
    ExprOfPrimary(toks, p + 1, more[0], p + 1 + |Render(more[0])|);
  }

  /** One round of the loop of `args`. */
  lemma ArgsRestStep(toks: seq<Token>, p: nat, a: Node, q: nat, acc: seq<Node>)
    requires p < |toks| && IsReserved(toks, p, ",") && Expr(toks, p + 1) == Ok(Parsed(a, q))
    ensures ArgsRest(toks, p, acc) == ArgsRest(toks, q, acc + [a])
  {
  }

  /** Parsing the printout of an expression, followed by `;`, gives the expression back. */
  lemma ExprOfRender(e: Node)
    requires Printable(e)
    ensures Expr(Render(e) + [Res(";")], 0) == Ok(Parsed(e, |Render(e)|))
  {
    var toks := Render(e) + [Res(";")];
    AtTwo(toks, Render(e), [Res(";")]);
    AtFirst(toks, |Render(e)|, [Res(";")]);
    PrimaryOfRender(toks, 0, e);
    ExprOfPrimary(toks, 0, e, |Render(e)|);
  }

  lemma AtTwo(toks: seq<Token>, a: seq<Token>, b: seq<Token>)
    requires toks == a + b
    ensures At(toks, 0, a) && At(toks, |a|, b)
  {
    forall i | 0 <= i < |a| + |b| ensures toks[0 + i] == (a + b)[i] {
    }
    AtSplit(toks, 0, a, b);
  }

  /** The printout of an expression, followed by `;`, is one expression statement. */
  lemma StmtOfRender(e: Node)
    requires Printable(e)
    ensures Stmt(Render(e) + [Res(";")], 0) == Ok(Parsed(e, |Render(e)| + 1))
  {
    var toks := Render(e) + [Res(";")];
    ExprOfRender(e);
    StmtTokens(toks, e);
    StmtOfExpression(toks, e, |Render(e)|);
  }

  /** A printed expression statement starts with no keyword and ends with `;`. */
  lemma StmtTokens(toks: seq<Token>, e: Node)
    requires Printable(e) && toks == Render(e) + [Res(";")]
    ensures 0 < |toks| && (toks[0].kind in {Identifier, Number} || IsReserved(toks, 0, "("))
    ensures IsReserved(toks, |Render(e)|, ";")
  {
    RenderStart(e);
    AtTwo(toks, Render(e), [Res(";")]);
    AtFirst(toks, 0, Render(e));
    AtFirst(toks, |Render(e)|, [Res(";")]);
  }

  // ---------------------------------------------------------------------
  // Operator chains fold to the left

  /** The four operator loops, loosest first. */
  function LevelOps(level: nat): set<string>
    requires level < 4
  {
    if level == 0 then EqualityOps
    else if level == 1 then RelationalOps
    else if level == 2 then AddOps
    else MulOps
  }

  /** The node an operator loop builds from the tree so far and the next operand. */
  function Combine(op: string, acc: Node, rhs: Node): (n: Node)
    requires op in EqualityOps + RelationalOps + AddOps + MulOps
    ensures n.IsBinary()
    ensures op in {">", ">="} ==> n.lhs == rhs && n.rhs == acc
    ensures op !in {">", ">="} ==> n.lhs == acc && n.rhs == rhs && OpText(n) == op
  {
    if op == "==" then Equal(acc, rhs)
    else if op == "!=" then NotEqual(acc, rhs)
    else if op == "<" then LT(acc, rhs)
    else if op == "<=" then LE(acc, rhs)
    else if op == ">" then LT(rhs, acc)
    else if op == ">=" then LE(rhs, acc)
    else if op == "+" then Sum(acc, rhs)
    else if op == "-" then Sub(acc, rhs)
    else if op == "*" then Mul(acc, rhs)
    else Div(acc, rhs)
  }

  /** An operator chain on one level: each operator with the operand after it. */
  predicate ChainOn(level: nat, chain: seq<(string, Node)>)
    requires level < 4
    decreases |chain|
  {
    |chain| == 0 || (chain[0].0 in LevelOps(level) && Printable(chain[0].1) && ChainOn(level, chain[1..]))
  }

  /** The tree of `acc` followed by `chain`, combined from the left. */
  function Fold(level: nat, acc: Node, chain: seq<(string, Node)>): Node
    requires level < 4 && ChainOn(level, chain)
    decreases |chain|
  {
    if |chain| == 0 then acc
    else Fold(level, Combine(chain[0].0, acc, chain[0].1), chain[1..])
  }

  function RenderChain(level: nat, chain: seq<(string, Node)>): seq<Token>
    requires level < 4 && ChainOn(level, chain)
    decreases |chain|
  {
    if |chain| == 0 then []
    else [Res(chain[0].0)] + Render(chain[0].1) + RenderChain(level, chain[1..])
  }

  /** The operand rule of each operator loop. */
  function OperandAt(level: nat, toks: seq<Token>, p: nat): Result<Parsed<Node>>
    requires level < 4 && p <= |toks|
  {
    if level == 0 then Relational(toks, p)
    else if level == 1 then Add(toks, p)
    else if level == 2 then MulLevel(toks, p)
    else Unary(toks, p)
  }

  /** The operator loop of each level. */
  function RestAt(level: nat, toks: seq<Token>, p: nat, acc: Node): Result<Parsed<Node>>
    requires level < 4 && p <= |toks|
  {
    if level == 0 then EqualityRest(toks, p, acc)
    else if level == 1 then RelationalRest(toks, p, acc)
    else if level == 2 then AddRest(toks, p, acc)
    else MulRest(toks, p, acc)
  }

  /** The rule of each level: an operand, then the loop. */
  function LevelAt(level: nat, toks: seq<Token>, p: nat): Result<Parsed<Node>>
    requires level < 4 && p <= |toks|
  {
    if level == 0 then Equality(toks, p)
    else if level == 1 then Relational(toks, p)
    else if level == 2 then Add(toks, p)
    else MulLevel(toks, p)
  }

  lemma LevelIsOperandThenRest(level: nat, toks: seq<Token>, p: nat, e: Node, q: nat)
    requires level < 4 && p <= |toks| && OperandAt(level, toks, p) == Ok(Parsed(e, q))
    ensures LevelAt(level, toks, p) == RestAt(level, toks, q, e)
  {
  }

  /** Each loop stops at a closer without touching the tree. */
  lemma RestStops(level: nat, toks: seq<Token>, p: nat, acc: Node)
    requires level < 4 && p <= |toks| && Closer(toks, p)
    ensures RestAt(level, toks, p, acc) == Ok(Parsed(acc, p))
  {
    if level == 0 {
      assert !IsReserved(toks, p, "==") && !IsReserved(toks, p, "!=");
    } else if level == 1 {
      assert !IsReserved(toks, p, "<") && !IsReserved(toks, p, "<=");
      assert !IsReserved(toks, p, ">") && !IsReserved(toks, p, ">=");
    } else if level == 2 {
      assert !IsReserved(toks, p, "+") && !IsReserved(toks, p, "-");
    } else {
      assert !IsReserved(toks, p, "*") && !IsReserved(toks, p, "/");
    }
  }

  lemma EqualityRestStep(toks: seq<Token>, p: nat, op: string, a: Node, q: nat, acc: Node)
    requires p < |toks| && op in EqualityOps && IsReserved(toks, p, op)
    requires Relational(toks, p + 1) == Ok(Parsed(a, q))
    ensures EqualityRest(toks, p, acc) == EqualityRest(toks, q, Combine(op, acc, a))
  {
  }

  lemma RelationalRestStep(toks: seq<Token>, p: nat, op: string, a: Node, q: nat, acc: Node)
    requires p < |toks| && op in RelationalOps && IsReserved(toks, p, op)
    requires Add(toks, p + 1) == Ok(Parsed(a, q))
    ensures RelationalRest(toks, p, acc) == RelationalRest(toks, q, Combine(op, acc, a))
  {
  }

  lemma AddRestStep(toks: seq<Token>, p: nat, op: string, a: Node, q: nat, acc: Node)
    requires p < |toks| && op in AddOps && IsReserved(toks, p, op)
    requires MulLevel(toks, p + 1) == Ok(Parsed(a, q))
    ensures AddRest(toks, p, acc) == AddRest(toks, q, Combine(op, acc, a))
  {
  }

  lemma MulRestStep(toks: seq<Token>, p: nat, op: string, a: Node, q: nat, acc: Node)
    requires p < |toks| && op in MulOps && IsReserved(toks, p, op)
    requires Unary(toks, p + 1) == Ok(Parsed(a, q))
    ensures MulRest(toks, p, acc) == MulRest(toks, q, Combine(op, acc, a))
  {
  }

  /** One round of an operator loop: the operator, the operand, and the combined tree. */
  lemma RestStep(level: nat, toks: seq<Token>, p: nat, op: string, a: Node, q: nat, acc: Node)
    requires level < 4 && p < |toks| && op in LevelOps(level) && IsReserved(toks, p, op)
    requires OperandAt(level, toks, p + 1) == Ok(Parsed(a, q))
    ensures RestAt(level, toks, p, acc) == RestAt(level, toks, q, Combine(op, acc, a))
  {
    if level == 0 {
      EqualityRestStep(toks, p, op, a, q, acc);
    } else if level == 1 {
      RelationalRestStep(toks, p, op, a, q, acc);
    } else if level == 2 {
      AddRestStep(toks, p, op, a, q, acc);
    } else {
      MulRestStep(toks, p, op, a, q, acc);
    }
  }

  /** A token that may follow an operand of a chain on `level`: the next operator or a closer. */
  predicate EndsOperand(level: nat, toks: seq<Token>, q: nat)
    requires level < 4
  {
    Closer(toks, q) || OpIn(toks, q, LevelOps(level))
  }

  /** A primary ending where a chain operand may end is also an operand of that level. */
  lemma OperandOfPrimary(level: nat, toks: seq<Token>, p: nat, e: Node, q: nat)
    requires level < 4 && p <= |toks| && Primary(toks, p) == Ok(Parsed(e, q))
    requires EndsOperand(level, toks, q)
    ensures OperandAt(level, toks, p) == Ok(Parsed(e, q))
  {
    UnaryOfPrimary(toks, p);
    if level < 3 {
      MulOfPrimary(toks, p, e, q);
      if level < 2 {
        AddOfMul(toks, p, e, q);
        if level < 1 {
          RelationalOfAdd(toks, p, e, q);
        }
      }
    }
  }

  /** A printed chain, after a tree `acc` and before a closer, is folded onto `acc` by the loop. */
  lemma {:induction false} RestOfChain(level: nat, toks: seq<Token>, p: nat, acc: Node, chain: seq<(string, Node)>)
    requires level < 4 && ChainOn(level, chain)
    requires At(toks, p, RenderChain(level, chain)) && Closer(toks, p + |RenderChain(level, chain)|)
    ensures RestAt(level, toks, p, acc) == Ok(Parsed(Fold(level, acc, chain), p + |RenderChain(level, chain)|))
    decreases |chain|
  {
    if |chain| == 0 {
      RestStops(level, toks, p, acc);
    } else {
      var q, next := ChainStep(level, toks, p, acc, chain);
      RestOfChain(level, toks, q, next, chain[1..]);
    }
  }

  /** One round of the loop over a printed chain: where it leaves the cursor and the tree. */
  lemma ChainStep(level: nat, toks: seq<Token>, p: nat, acc: Node, chain: seq<(string, Node)>) returns (q: nat, next: Node)
    requires level < 4 && ChainOn(level, chain) && |chain| > 0
    requires At(toks, p, RenderChain(level, chain)) && Closer(toks, p + |RenderChain(level, chain)|)
    ensures ChainOn(level, chain[1..]) && q <= |toks|
    ensures RestAt(level, toks, p, acc) == RestAt(level, toks, q, next)
    ensures At(toks, q, RenderChain(level, chain[1..]))
    ensures q + |RenderChain(level, chain[1..])| == p + |RenderChain(level, chain)|
    ensures Fold(level, acc, chain) == Fold(level, next, chain[1..])
  {
    var (op, a) := chain[0];
    q, next := p + 1 + |Render(a)|, Combine(op, acc, a);
    ChainOperand(level, toks, p, chain);
    RestStep(level, toks, p, op, a, q, acc);
  }

  /** The first operator of a printed chain and the operand after it. */
  lemma ChainOperand(level: nat, toks: seq<Token>, p: nat, chain: seq<(string, Node)>)
    requires level < 4 && ChainOn(level, chain) && |chain| > 0
    requires At(toks, p, RenderChain(level, chain)) && Closer(toks, p + |RenderChain(level, chain)|)
    ensures IsReserved(toks, p, chain[0].0)
    ensures OperandAt(level, toks, p + 1) == Ok(Parsed(chain[0].1, p + 1 + |Render(chain[0].1)|))
    ensures At(toks, p + 1 + |Render(chain[0].1)|, RenderChain(level, chain[1..]))
    ensures Closer(toks, p + 1 + |Render(chain[0].1)| + |RenderChain(level, chain[1..])|)
  {
    var a := chain[0].1;
    var q := p + 1 + |Render(a)|;
    ChainTokens(level, toks, p, chain);
    assert !IsReserved(toks, q, "(");
    PrimaryOfRender(toks, p + 1, a);
    OperandOfPrimary(level, toks, p + 1, a, q);
  }

  /** A printed chain taken apart: operator, operand, and what ends the operand. */
  lemma ChainTokens(level: nat, toks: seq<Token>, p: nat, chain: seq<(string, Node)>)
    requires level < 4 && ChainOn(level, chain) && |chain| > 0
    requires At(toks, p, RenderChain(level, chain)) && Closer(toks, p + |RenderChain(level, chain)|)
    ensures IsReserved(toks, p, chain[0].0) && Printable(chain[0].1)
    ensures At(toks, p + 1, Render(chain[0].1))
    ensures EndsOperand(level, toks, p + 1 + |Render(chain[0].1)|)
    ensures At(toks, p + 1 + |Render(chain[0].1)|, RenderChain(level, chain[1..]))
    ensures Closer(toks, p + 1 + |Render(chain[0].1)| + |RenderChain(level, chain[1..])|)
  {
    var w, rest := Render(chain[0].1), RenderChain(level, chain[1..]);
    ChainShape(level, chain);
    AtCons(toks, p, Res(chain[0].0), w, rest);
    var q := p + 1 + |w|;
    if |chain| > 1 {
      RenderChainFirst(level, chain[1..]);
      AtFirst(toks, q, rest);
    } else {
      assert |rest| == 0;
    }
  }

  lemma ChainShape(level: nat, chain: seq<(string, Node)>)
    requires level < 4 && ChainOn(level, chain) && |chain| > 0
    ensures Printable(chain[0].1) && ChainOn(level, chain[1..])
    ensures RenderChain(level, chain) == [Res(chain[0].0)] + Render(chain[0].1) + RenderChain(level, chain[1..])
  {
  }

  /** A token, then two words, taken apart. */
  lemma AtCons(toks: seq<Token>, p: nat, t: Token, w: seq<Token>, rest: seq<Token>)
    requires At(toks, p, [t] + w + rest)
    ensures p < |toks| && toks[p] == t && At(toks, p + 1, w) && At(toks, p + 1 + |w|, rest)
  {
    assert [t] + w + rest == [t] + (w + rest);
    AtSplit(toks, p, [t], w + rest);
    AtSplit(toks, p + 1, w, rest);
    AtFirst(toks, p, [t]);
  }

  /** The rule of any level, followed by a closer, is a whole expression. */
  lemma ExprOfLevel(level: nat, toks: seq<Token>, p: nat, e: Node, q: nat)
    requires level < 4 && p <= |toks| && LevelAt(level, toks, p) == Ok(Parsed(e, q)) && Closer(toks, q)
    ensures Expr(toks, p) == Ok(Parsed(e, q))
  {
    if level == 3 {
      AddOfMul(toks, p, e, q);
    }
    if level >= 2 {
      RelationalOfAdd(toks, p, e, q);
    }
    if level >= 1 {
      ExprOfRelational(toks, p, e, q);
    }
  }

  /** The tokens of a printed chain expression, taken apart. */
  lemma ChainStart(level: nat, toks: seq<Token>, first: Node, chain: seq<(string, Node)>)
    requires level < 4 && Printable(first) && ChainOn(level, chain)
    requires toks == Render(first) + RenderChain(level, chain) + [Res(";")]
    ensures At(toks, 0, Render(first)) && EndsOperand(level, toks, |Render(first)|)
    ensures At(toks, |Render(first)|, RenderChain(level, chain)) && Closer(toks, |toks| - 1)
  {
    StatementWords(toks, Render(first), RenderChain(level, chain));
    if |chain| > 0 {
      RenderChainFirst(level, chain);
    }
  }

  /** Two words and a `;`, taken apart. */
  lemma StatementWords(toks: seq<Token>, a: seq<Token>, b: seq<Token>)
    requires toks == a + b + [Res(";")]
    ensures At(toks, 0, a) && At(toks, |a|, b) && Closer(toks, |a| + |b|)
    ensures |b| == 0 ==> Closer(toks, |a|)
    ensures |b| > 0 ==> toks[|a|] == b[0]
  {
    AtThree(toks, a, b, [Res(";")]);
    AtFirst(toks, |a| + |b|, [Res(";")]);
    if |b| > 0 {
      AtFirst(toks, |a|, b);
    }
  }

  lemma RenderChainFirst(level: nat, chain: seq<(string, Node)>)
    requires level < 4 && ChainOn(level, chain) && |chain| > 0
    ensures |RenderChain(level, chain)| > 0 && RenderChain(level, chain)[0] == Res(chain[0].0)
    ensures chain[0].0 in LevelOps(level)
  {
  }

  lemma AtThree(toks: seq<Token>, a: seq<Token>, b: seq<Token>, c: seq<Token>)
    requires toks == a + b + c
    ensures At(toks, 0, a) && At(toks, |a|, b) && At(toks, |a| + |b|, c)
  {
    AtTwo(toks, a + b, c);
    AtSplit(toks, 0, a, b);
  }

  /** The first operand of a printed chain expression, and the loop after it. */
  lemma ChainHead(level: nat, toks: seq<Token>, first: Node, q: nat)
    requires level < 4 && Printable(first) && At(toks, 0, Render(first))
    requires q == |Render(first)| && EndsOperand(level, toks, q)
    ensures LevelAt(level, toks, 0) == RestAt(level, toks, q, first)
  {
    ChainFirstOperand(level, toks, first, q);
    LevelIsOperandThenRest(level, toks, 0, first, q);
  }

  lemma ChainFirstOperand(level: nat, toks: seq<Token>, first: Node, q: nat)
    requires level < 4 && Printable(first) && At(toks, 0, Render(first))
    requires q == |Render(first)| && EndsOperand(level, toks, q)
    ensures OperandAt(level, toks, 0) == Ok(Parsed(first, q))
  {
    assert !IsReserved(toks, q, "(");
    PrimaryOfRender(toks, 0, first);
    OperandOfPrimary(level, toks, 0, first, q);
  }

  /**
   * An operator chain on one precedence level, `first op1 a1 op2 a2 ...;`,
   * parses as the left fold of its operators: `a-b-c` is `(a-b)-c`, and
   * `a>b` is `b<a`.
   */
  lemma ExprOfChain(level: nat, first: Node, chain: seq<(string, Node)>)
    requires level < 4 && Printable(first) && ChainOn(level, chain)
    ensures var toks := Render(first) + RenderChain(level, chain) + [Res(";")];
      Expr(toks, 0) == Ok(Parsed(Fold(level, first, chain), |toks| - 1))
  {
    var toks := Render(first) + RenderChain(level, chain) + [Res(";")];
    ChainExpr(level, toks, first, chain, Fold(level, first, chain), |toks| - 1);
  }

  lemma ChainExpr(level: nat, toks: seq<Token>, first: Node, chain: seq<(string, Node)>, folded: Node, n: nat)
    requires level < 4 && Printable(first) && ChainOn(level, chain)
    requires toks == Render(first) + RenderChain(level, chain) + [Res(";")]
    requires folded == Fold(level, first, chain) && n == |toks| - 1
    ensures Expr(toks, 0) == Ok(Parsed(folded, n))
  {
    ChainStart(level, toks, first, chain);
    LevelOfChain(level, toks, first, chain, folded, |Render(first)|, n);
    ExprOfLevel(level, toks, 0, folded, n);
  }

  /** The rule of the chain's own level reads the whole chain, up to the `;`. */
  lemma LevelOfChain(level: nat, toks: seq<Token>, first: Node, chain: seq<(string, Node)>, folded: Node, q: nat, n: nat)
    requires level < 4 && Printable(first) && ChainOn(level, chain)
    requires folded == Fold(level, first, chain) && q == |Render(first)| && n == q + |RenderChain(level, chain)|
    requires At(toks, 0, Render(first)) && EndsOperand(level, toks, q)
    requires At(toks, q, RenderChain(level, chain)) && Closer(toks, n)
    ensures LevelAt(level, toks, 0) == Ok(Parsed(folded, n))
  {
    ChainHead(level, toks, first, q);
    RestOfChain(level, toks, q, first, chain);
  }

  // ---------------------------------------------------------------------
  // Unary operators and statements

  /** Unary minus is subtraction from zero. */
  lemma UnaryMinus(toks: seq<Token>, p: nat, e: Node, q: nat)
    requires p < |toks| && IsReserved(toks, p, "-") && Primary(toks, p + 1) == Ok(Parsed(e, q))
    ensures Unary(toks, p) == Ok(Parsed(Sub(Num(0), e), q))
  {
  }

  /** Unary plus leaves its operand as it is. */
  lemma UnaryPlus(toks: seq<Token>, p: nat)
    requires p < |toks| && IsReserved(toks, p, "+")
    ensures Unary(toks, p) == Primary(toks, p + 1)
  {
  }

  /** An expression statement and the keyword statements are told apart by the first token. */
  lemma StmtOfExpression(toks: seq<Token>, e: Node, q: nat)
    requires 0 < |toks| && (toks[0].kind in {Identifier, Number} || IsReserved(toks, 0, "("))
    requires Expr(toks, 0) == Ok(Parsed(e, q)) && IsReserved(toks, q, ";")
    ensures Stmt(toks, 0) == Ok(Parsed(e, q + 1))
  {
    StmtOfNonKeyword(toks, 0);
    ExprStmtOfExpr(toks, 0, e, q);
  }

  /** An expression and `;` make an expression statement. */
  lemma ExprStmtOfExpr(toks: seq<Token>, p: nat, e: Node, q: nat)
    requires p <= |toks| && Expr(toks, p) == Ok(Parsed(e, q)) && IsReserved(toks, q, ";")
    ensures ExprStmt(toks, p) == Ok(Parsed(e, q + 1))
  {
    assert !IsReserved(toks, q, "=");
    assert Parser.Assign(toks, p) == Ok(Parsed(e, q));
  }

  /** A statement that starts with `(`, an identifier or a number is an expression statement. */
  lemma StmtOfNonKeyword(toks: seq<Token>, pos: nat)
    requires pos < |toks| && (toks[pos].kind in {Identifier, Number} || IsReserved(toks, pos, "("))
    ensures Stmt(toks, pos) == ExprStmt(toks, pos)
  {
  }

  // ---------------------------------------------------------------------
  // Statements

  /** `var` selects the declaration statement. */
  lemma StmtOfVar(toks: seq<Token>, p: nat)
    requires p < |toks| && IsReserved(toks, p, "var")
    ensures Stmt(toks, p) == VarStmt(toks, p + 1)
  {
    assert !IsReserved(toks, p, "fnc") && !IsReserved(toks, p, "return") && !IsReserved(toks, p, "if");
    assert !IsReserved(toks, p, "for") && !IsReserved(toks, p, "break") && !IsReserved(toks, p, "{");
  }

  /** `var e = r;` is an Alloc of `r` to `e`. */
  lemma StmtOfVarInit(toks: seq<Token>, p: nat, e: Node, q: nat, r: Node, q2: nat)
    requires p < |toks| && IsReserved(toks, p, "var")
    requires Expr(toks, p + 1) == Ok(Parsed(e, q)) && IsReserved(toks, q, "=")
    requires Expr(toks, q + 1) == Ok(Parsed(r, q2)) && IsReserved(toks, q2, ";")
    ensures Stmt(toks, p) == Ok(Parsed(Alloc(e, r), q2 + 1))
  {
    StmtOfVar(toks, p);
  }

  /** `var e;` is the expression `e` itself, with nothing allocated. */
  lemma StmtOfVarBare(toks: seq<Token>, p: nat, e: Node, q: nat)
    requires p < |toks| && IsReserved(toks, p, "var")
    requires Expr(toks, p + 1) == Ok(Parsed(e, q)) && IsReserved(toks, q, ";")
    ensures Stmt(toks, p) == Ok(Parsed(e, q + 1))
  {
    StmtOfVar(toks, p);
    assert !IsReserved(toks, q, "=");
  }

  /** `l = r;` is an Assign of `r` to `l`. */
  lemma StmtOfAssignment(toks: seq<Token>, p: nat, l: Node, q: nat, r: Node, q2: nat)
    requires p < |toks| && (toks[p].kind in {Identifier, Number} || IsReserved(toks, p, "("))
    requires Expr(toks, p) == Ok(Parsed(l, q)) && IsReserved(toks, q, "=")
    requires Expr(toks, q + 1) == Ok(Parsed(r, q2)) && IsReserved(toks, q2, ";")
    ensures Stmt(toks, p) == Ok(Parsed(Node.Assign(l, r), q2 + 1))
  {
    StmtOfNonKeyword(toks, p);
    assert Parser.Assign(toks, p) == Ok(Parsed(Node.Assign(l, r), q2));
  }

  /** `{ s }` is a block of the one statement `s`. */
  lemma StmtOfBlockOfOne(toks: seq<Token>, p: nat, st: Node, q: nat)
    requires p < |toks| && IsReserved(toks, p, "{")
    requires Stmt(toks, p + 1) == Ok(Parsed(st, q)) && IsReserved(toks, q, "}")
    ensures Stmt(toks, p) == Ok(Parsed(Block([st]), q + 1))
  {
    assert !IsReserved(toks, p, "fnc") && !IsReserved(toks, p, "return") && !IsReserved(toks, p, "if");
    assert !IsReserved(toks, p, "for") && !IsReserved(toks, p, "break");
    if IsReserved(toks, p + 1, "}") {
      CloseBraceIsNoStatement(toks, p + 1);
    }
    assert BlockRest(toks, q, [st]) == Ok(Parsed([st], q + 1));
    assert [] + [st] == [st];
    assert BlockRest(toks, p + 1, []) == Ok(Parsed([st], q + 1));
  }

  /** `}` starts no statement: it is neither a keyword nor the start of an expression. */
  lemma CloseBraceIsNoStatement(toks: seq<Token>, p: nat)
    requires p < |toks| && IsReserved(toks, p, "}")
    ensures Stmt(toks, p).Err?
  {
    assert Primary(toks, p).Err?;
    assert Unary(toks, p).Err?;
    assert MulLevel(toks, p).Err?;
    assert Add(toks, p).Err?;
    assert Relational(toks, p).Err?;
    assert Expr(toks, p).Err?;
    assert ExprStmt(toks, p).Err?;
  }

  /** `var x = ;`: the right side is no expression, and `primary` fails where it wants a number. */
  lemma VarWithoutInitialiserFails()
    ensures Stmt([Res("var"), Ident("x"), Res("="), Res(";")], 0) == Err(ParseError("number", 3))
  {
    var toks := [Res("var"), Ident("x"), Res("="), Res(";")];
    StmtOfVar(toks, 0);
    assert Primary(toks, 1) == Ok(Parsed(LVar("x"), 2));
    ExprOfPrimary(toks, 1, LVar("x"), 2);
    assert Primary(toks, 3) == Err(ParseError("number", 3));
    assert Unary(toks, 3) == Err(ParseError("number", 3));
    assert MulLevel(toks, 3) == Err(ParseError("number", 3));
    assert Relational(toks, 3) == Err(ParseError("number", 3));
  }

  // ---------------------------------------------------------------------
  // Instances

  /** `a-b-c;` is `(a-b)-c`. */
  lemma SubtractionFoldsLeft()
    ensures Expr([Ident("a"), Res("-"), Ident("b"), Res("-"), Ident("c"), Res(";")], 0)
      == Ok(Parsed(Sub(Sub(LVar("a"), LVar("b")), LVar("c")), 5))
  {
    var chain := [("-", LVar("b")), ("-", LVar("c"))];
    assert ChainOn(2, chain[1..]);
    assert RenderChain(2, chain[1..]) == [Res("-"), Ident("c")];
    assert RenderChain(2, chain) == [Res("-"), Ident("b"), Res("-"), Ident("c")];
    ChainExpr(2, [Ident("a"), Res("-"), Ident("b"), Res("-"), Ident("c"), Res(";")], LVar("a"), chain,
      Sub(Sub(LVar("a"), LVar("b")), LVar("c")), 5);
  }

  /** `a<b<c;` is `(a<b)<c`. */
  lemma LessThanFoldsLeft()
    ensures Expr([Ident("a"), Res("<"), Ident("b"), Res("<"), Ident("c"), Res(";")], 0)
      == Ok(Parsed(LT(LT(LVar("a"), LVar("b")), LVar("c")), 5))
  {
    var chain := [("<", LVar("b")), ("<", LVar("c"))];
    assert ChainOn(1, chain[1..]);
    assert RenderChain(1, chain[1..]) == [Res("<"), Ident("c")];
    assert RenderChain(1, chain) == [Res("<"), Ident("b"), Res("<"), Ident("c")];
    ChainExpr(1, [Ident("a"), Res("<"), Ident("b"), Res("<"), Ident("c"), Res(";")], LVar("a"), chain,
      LT(LT(LVar("a"), LVar("b")), LVar("c")), 5);
  }

  /** `a>b;` is `b<a`. */
  lemma GreaterSwapsOperands()
    ensures Expr([Ident("a"), Res(">"), Ident("b"), Res(";")], 0) == Ok(Parsed(LT(LVar("b"), LVar("a")), 3))
  {
    var chain := [(">", LVar("b"))];
    assert RenderChain(1, chain) == [Res(">"), Ident("b")];
    ChainExpr(1, [Ident("a"), Res(">"), Ident("b"), Res(";")], LVar("a"), chain, LT(LVar("b"), LVar("a")), 3);
  }

  /** `a>=b;` is `b<=a`. */
  lemma GreaterEqualSwapsOperands()
    ensures Expr([Ident("a"), Res(">="), Ident("b"), Res(";")], 0) == Ok(Parsed(LE(LVar("b"), LVar("a")), 3))
  {
    var chain := [(">=", LVar("b"))];
    assert RenderChain(1, chain) == [Res(">="), Ident("b")];
    ChainExpr(1, [Ident("a"), Res(">="), Ident("b"), Res(";")], LVar("a"), chain, LE(LVar("b"), LVar("a")), 3);
  }

  /** `a+b*c;` is `a+(b*c)`: the multiplicative level binds tighter. */
  lemma ProductBindsTighter()
    ensures Expr([Ident("a"), Res("+"), Ident("b"), Res("*"), Ident("c"), Res(";")], 0)
      == Ok(Parsed(Sum(LVar("a"), Mul(LVar("b"), LVar("c"))), 5))
  {
    var toks := [Ident("a"), Res("+"), Ident("b"), Res("*"), Ident("c"), Res(";")];
    var a, b, c := LVar("a"), LVar("b"), LVar("c");
    ProductOperands(toks);
    MulOfPrimary(toks, 0, a, 1);
    MulOfBinary(toks, 2, Mul(b, c), 3, 5);
    AddOfBinary(toks, 0, Sum(a, Mul(b, c)), 1, 5);
    RelationalOfAdd(toks, 0, Sum(a, Mul(b, c)), 5);
    ExprOfRelational(toks, 0, Sum(a, Mul(b, c)), 5);
  }

  lemma ProductOperands(toks: seq<Token>)
    requires toks == [Ident("a"), Res("+"), Ident("b"), Res("*"), Ident("c"), Res(";")]
    ensures Primary(toks, 0) == Ok(Parsed(LVar("a"), 1))
    ensures Primary(toks, 2) == Ok(Parsed(LVar("b"), 3))
    ensures Primary(toks, 4) == Ok(Parsed(LVar("c"), 5))
  {
  }
}
