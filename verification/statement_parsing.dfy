/**
 * What the statement rules of the parser build (parser.go:55-138 and
 * 290-307): a program is its statements in source order up to the first
 * Eof token, a block its statements up to `}`, and each keyword statement
 * the node of its kind made of the parts that follow the keyword.
 *
 * A run of statements is described by the cursors between them:
 * `StmtsFrom(toks, ps, ss)` says that the i-th statement `ss[i]` is parsed
 * from cursor `ps[i]` and ends at `ps[i + 1]`.
 */
module StatementParsing {
  import opened Common
  import opened Lexer
  import opened Ast
  import opened Parser
  import opened ParserProperties

  /** The statements `ss` follow one another; the i-th runs from `ps[i]` to `ps[i + 1]`. */
  predicate StmtsFrom(toks: seq<Token>, ps: seq<nat>, ss: seq<Node>) {
    && |ps| == |ss| + 1
    && (forall i :: 0 <= i < |ps| ==> ps[i] <= |toks|)
    && (forall i :: 0 <= i < |ss| ==> Stmt(toks, ps[i]) == Ok(Parsed(ss[i], ps[i + 1])))
  }

  /** The current token is the Eof token. */
  predicate EofAt(toks: seq<Token>, p: nat) {
    p < |toks| && toks[p].kind == Eof
  }

  /** A run of statements preceded by one more. */
  lemma StmtsCons(toks: seq<Token>, p: nat, s: Node, ps: seq<nat>, ss: seq<Node>)
    requires p <= |toks| && StmtsFrom(toks, ps, ss) && Stmt(toks, p) == Ok(Parsed(s, ps[0]))
    ensures StmtsFrom(toks, [p] + ps, [s] + ss)
  {
    var ps', ss' := [p] + ps, [s] + ss;
    forall i | 0 < i < |ss'|
      ensures Stmt(toks, ps'[i]) == Ok(Parsed(ss'[i], ps'[i + 1]))
    {
      assert ps'[i] == ps[i - 1] && ss'[i] == ss[i - 1] && ps'[i + 1] == ps[i];
    }
  }

  /** No statement starts at the Eof token: it is neither a keyword nor the start of an expression. */
  lemma EofIsNoStatement(toks: seq<Token>, p: nat)
    requires EofAt(toks, p)
    ensures Stmt(toks, p).Err?
  {
    assert Primary(toks, p).Err?;
    assert Unary(toks, p).Err?;
    assert MulLevel(toks, p).Err?;
    assert Add(toks, p).Err?;
    assert Relational(toks, p).Err?;
    assert Expr(toks, p).Err?;
    assert ExprStmt(toks, p).Err?;
  }

  // ---------------------------------------------------------------------
  // `program` (parser.go:55-66)

  /** From the k-th statement on, the loop of `program` collects the rest and stops at the Eof token. */
  lemma {:induction false} ProgramRestOfStmts(toks: seq<Token>, ps: seq<nat>, ss: seq<Node>, k: nat)
    requires StmtsFrom(toks, ps, ss) && 0 < k <= |ss| && EofAt(toks, ps[|ss|])
    ensures ProgramRest(toks, ps[k], ss[..k]) == Ok(ss)
    decreases |ss| - k
  {
    if k == |ss| {
      assert ss[..k] == ss;
    } else {
      if EofAt(toks, ps[k]) {
        EofIsNoStatement(toks, ps[k]);
      }
      ProgramRestOfStmts(toks, ps, ss, k + 1);
      assert ss[..k] + [ss[k]] == ss[..k + 1];
    }
  }

  /**
   * A program that is one or more statements, parsed one after another
   * from the first token and followed by the Eof token, is exactly those
   * statements in source order.
   */
  lemma ProgramOfStmts(toks: seq<Token>, ps: seq<nat>, ss: seq<Node>)
    requires StmtsFrom(toks, ps, ss) && |ss| >= 1 && ps[0] == 0 && EofAt(toks, ps[|ss|])
    ensures Program(toks) == Ok(ss)
  {
    ProgramRestOfStmts(toks, ps, ss, 1);
    assert ss[..1] == [ss[0]];
  }

  /** What the loop of `program` returns is what it was given, then statements that run up to an Eof token. */
  lemma {:induction false} ProgramRestParts(toks: seq<Token>, pos: nat, acc: seq<Node>, ss: seq<Node>) returns (ps: seq<nat>)
    requires pos <= |toks| && ProgramRest(toks, pos, acc) == Ok(ss)
    ensures |acc| <= |ss| && ss[..|acc|] == acc
    ensures StmtsFrom(toks, ps, ss[|acc|..]) && ps[0] == pos && EofAt(toks, ps[|ss| - |acc|])
    decreases |toks| - pos
  {
    if toks[pos].kind == Eof {
      ps := [pos];
      assert ss[|acc|..] == [];
    } else {
      var s := Stmt(toks, pos).value;
      var rest := ProgramRestParts(toks, s.next, acc + [s.val], ss);
      assert ss[|acc|] == (acc + [s.val])[|acc|] == s.val by {
        assert ss[..|acc| + 1] == acc + [s.val];
      }
      assert ss[|acc|..] == [s.val] + ss[|acc| + 1..];
      StmtsCons(toks, pos, s.val, rest, ss[|acc| + 1..]);
      ps := [pos] + rest;
    }
  }

  /**
   * Conversely, a program the parser accepts is one or more statements,
   * parsed one after another from the first token, with the Eof token
   * right after the last: parsing stops at the first Eof token.
   */
  lemma ProgramParts(toks: seq<Token>, ss: seq<Node>) returns (ps: seq<nat>)
    requires Program(toks) == Ok(ss)
    ensures |ss| >= 1 && StmtsFrom(toks, ps, ss) && ps[0] == 0 && EofAt(toks, ps[|ss|])
  {
    var first := Stmt(toks, 0).value;
    var rest := ProgramRestParts(toks, first.next, [first.val], ss);
    assert ss[0] == first.val by {
      assert ss[..1] == [first.val];
    }
    assert ss == [first.val] + ss[1..];
    StmtsCons(toks, 0, first.val, rest, ss[1..]);
    ps := [0] + rest;
  }

  /** The loop of `program` never succeeds on tokens without an Eof token. */
  lemma {:induction false} ProgramRestNeedsEof(toks: seq<Token>, pos: nat, acc: seq<Node>)
    requires pos <= |toks| && forall j :: pos <= j < |toks| ==> toks[j].kind != Eof
    ensures ProgramRest(toks, pos, acc).Err?
    decreases |toks| - pos
  {
    if pos < |toks| && Stmt(toks, pos).Ok? {
      var s := Stmt(toks, pos).value;
      ProgramRestNeedsEof(toks, s.next, acc + [s.val]);
    }
  }

  /** A token sequence without an Eof token is never a program. */
  lemma ProgramNeedsEof(toks: seq<Token>)
    requires forall j :: 0 <= j < |toks| ==> toks[j].kind != Eof
    ensures Program(toks).Err?
  {
    if Stmt(toks, 0).Ok? {
      var s := Stmt(toks, 0).value;
      ProgramRestNeedsEof(toks, s.next, [s.val]);
    }
  }

  /** From the k-th statement on, the loop of `program` runs off the end when the last statement ends the tokens. */
  lemma {:induction false} ProgramRestRunsOffEnd(toks: seq<Token>, ps: seq<nat>, ss: seq<Node>, k: nat)
    requires StmtsFrom(toks, ps, ss) && 0 < k <= |ss| && ps[|ss|] == |toks|
    ensures ProgramRest(toks, ps[k], ss[..k]) == Err(UnexpectedEnd(|toks|))
    decreases |ss| - k
  {
    if k < |ss| {
      if EofAt(toks, ps[k]) {
        EofIsNoStatement(toks, ps[k]);
      }
      ProgramRestRunsOffEnd(toks, ps, ss, k + 1);
      assert ss[..k] + [ss[k]] == ss[..k + 1];
    }
  }

  /**
   * Statements that use up every token, with no Eof token after the last,
   * end in the nil `currentToken` of the source: the end of input.
   */
  lemma ProgramRunsOffEnd(toks: seq<Token>, ps: seq<nat>, ss: seq<Node>)
    requires StmtsFrom(toks, ps, ss) && |ss| >= 1 && ps[0] == 0 && ps[|ss|] == |toks|
    ensures Program(toks) == Err(UnexpectedEnd(|toks|))
  {
    ProgramRestRunsOffEnd(toks, ps, ss, 1);
    assert ss[..1] == [ss[0]];
  }

  // ---------------------------------------------------------------------
  // `{ ... }` (parser.go:105-123)

  /** From the k-th statement on, the loop of a block collects the rest and stops after `}`. */
  lemma {:induction false} BlockRestOfStmts(toks: seq<Token>, ps: seq<nat>, ss: seq<Node>, k: nat)
    requires StmtsFrom(toks, ps, ss) && k <= |ss| && IsReserved(toks, ps[|ss|], "}")
    ensures BlockRest(toks, ps[k], ss[..k]) == Ok(Parsed(ss, ps[|ss|] + 1))
    decreases |ss| - k
  {
    if k == |ss| {
      assert ss[..k] == ss;
    } else {
      if IsReserved(toks, ps[k], "}") {
        CloseBraceIsNoStatement(toks, ps[k]);
      }
      BlockRestOfStmts(toks, ps, ss, k + 1);
      assert ss[..k] + [ss[k]] == ss[..k + 1];
    }
  }

  /**
   * `{`, statements parsed one after another, then `}` is the block of
   * exactly those statements in source order; the empty block included.
   */
  lemma StmtOfBlock(toks: seq<Token>, p: nat, ps: seq<nat>, ss: seq<Node>)
    requires IsReserved(toks, p, "{") && StmtsFrom(toks, ps, ss) && ps[0] == p + 1 && IsReserved(toks, ps[|ss|], "}")
    ensures Stmt(toks, p) == Ok(Parsed(Block(ss), ps[|ss|] + 1))
  {
    assert !IsReserved(toks, p, "fnc") && !IsReserved(toks, p, "return") && !IsReserved(toks, p, "if");
    assert !IsReserved(toks, p, "for") && !IsReserved(toks, p, "break");
    BlockRestOfStmts(toks, ps, ss, 0);
    assert ss[..0] == [];
  }

  /** What the loop of a block returns is what it was given, then statements that run up to `}`. */
  lemma {:induction false} BlockRestParts(toks: seq<Token>, pos: nat, acc: seq<Node>, ss: seq<Node>, q: nat) returns (ps: seq<nat>)
    requires pos <= |toks| && BlockRest(toks, pos, acc) == Ok(Parsed(ss, q))
    ensures |acc| <= |ss| && ss[..|acc|] == acc
    ensures StmtsFrom(toks, ps, ss[|acc|..]) && ps[0] == pos
    ensures IsReserved(toks, ps[|ss| - |acc|], "}") && q == ps[|ss| - |acc|] + 1
    decreases |toks| - pos
  {
    if IsReserved(toks, pos, "}") {
      ps := [pos];
      assert ss[|acc|..] == [];
    } else {
      var s := Stmt(toks, pos).value;
      var rest := BlockRestParts(toks, s.next, acc + [s.val], ss, q);
      assert ss[|acc|] == (acc + [s.val])[|acc|] == s.val by {
        assert ss[..|acc| + 1] == acc + [s.val];
      }
      assert ss[|acc|..] == [s.val] + ss[|acc| + 1..];
      StmtsCons(toks, pos, s.val, rest, ss[|acc| + 1..]);
      ps := [pos] + rest;
    }
  }

  /** Conversely, a block the parser accepts is its statements, parsed one after another, up to the first `}` between them. */
  lemma BlockParts(toks: seq<Token>, p: nat, ss: seq<Node>, q: nat) returns (ps: seq<nat>)
    requires IsReserved(toks, p, "{") && Stmt(toks, p) == Ok(Parsed(Block(ss), q))
    ensures StmtsFrom(toks, ps, ss) && ps[0] == p + 1 && IsReserved(toks, ps[|ss|], "}") && q == ps[|ss|] + 1
  {
    assert !IsReserved(toks, p, "fnc") && !IsReserved(toks, p, "return") && !IsReserved(toks, p, "if");
    assert !IsReserved(toks, p, "for") && !IsReserved(toks, p, "break");
    ps := BlockRestParts(toks, p + 1, [], ss, q);
    assert ss[0..] == ss;
  }

  // ---------------------------------------------------------------------
  // `argDefs` (parser.go:290-307)

  /** `, x1 , x2 ... )`: each name preceded by a comma, then the closing parenthesis. */
  predicate MoreNamesAt(toks: seq<Token>, p: nat, names: seq<string>)
    decreases |names|
  {
    if |names| == 0 then IsReserved(toks, p, ")")
    else
      && IsReserved(toks, p, ",") && p + 1 < |toks|
      && toks[p + 1].kind == Identifier && toks[p + 1].text == names[0]
      && MoreNamesAt(toks, p + 2, names[1..])
  }

  /** `x0 , x1 ... )`, or just `)` when there are no names. */
  predicate NamesAt(toks: seq<Token>, p: nat, names: seq<string>) {
    if |names| == 0 then IsReserved(toks, p, ")")
    else p < |toks| && toks[p].kind == Identifier && toks[p].text == names[0] && MoreNamesAt(toks, p + 1, names[1..])
  }

  /** The cursor after a parameter list of `n` names. */
  function NamesEnd(p: nat, n: nat): nat {
    if n == 0 then p + 1 else p + 2 * n
  }

  /** The comma loop of `argDefs` appends the names in order and stops after `)`. */
  lemma {:induction false} MoreNamesOfRender(toks: seq<Token>, p: nat, acc: seq<string>, names: seq<string>)
    requires p <= |toks| && MoreNamesAt(toks, p, names)
    ensures ArgDefsRest(toks, p, acc) == Ok(Parsed(acc + names, p + 2 * |names| + 1))
    decreases |names|
  {
    if |names| == 0 {
      assert acc + names == acc;
    } else {
      MoreNamesOfRender(toks, p + 2, acc + [names[0]], names[1..]);
      assert acc + [names[0]] + names[1..] == acc + names;
    }
  }

  /** `argDefs` returns the parameter names in source order, up to and past `)`. */
  lemma ArgDefsOfNames(toks: seq<Token>, p: nat, names: seq<string>)
    requires p <= |toks| && NamesAt(toks, p, names)
    ensures ArgDefs(toks, p) == Ok(Parsed(names, NamesEnd(p, |names|)))
  {
    if |names| > 0 {
      MoreNamesOfRender(toks, p + 1, [names[0]], names[1..]);
      assert [names[0]] + names[1..] == names;
    }
  }

  // ---------------------------------------------------------------------
  // The keyword statements (parser.go:69-104)

  /** `fnc name ( params ) body` is the definition of `name` with those parameters and that body. */
  lemma StmtOfFunction(toks: seq<Token>, p: nat, name: string, params: seq<string>, body: Node, q: nat)
    requires IsReserved(toks, p, "fnc") && p + 1 < |toks| && toks[p + 1].kind == Identifier && toks[p + 1].text == name
    requires IsReserved(toks, p + 2, "(") && NamesAt(toks, p + 3, params)
    requires NamesEnd(p + 3, |params|) <= |toks| && Stmt(toks, NamesEnd(p + 3, |params|)) == Ok(Parsed(body, q))
    ensures Stmt(toks, p) == Ok(Parsed(Function(name, params, body), q))
  {
    ArgDefsOfNames(toks, p + 3, params);
  }

  /** `return e ;` returns the assignment expression `e`. */
  lemma StmtOfReturn(toks: seq<Token>, p: nat, e: Node, q: nat)
    requires IsReserved(toks, p, "return") && Parser.Assign(toks, p + 1) == Ok(Parsed(e, q)) && IsReserved(toks, q, ";")
    ensures Stmt(toks, p) == Ok(Parsed(Return(e), q + 1))
  {
    assert !IsReserved(toks, p, "fnc");
  }

  /** `if ( c ) t else e` is the if with both branches. */
  lemma StmtOfIfElse(toks: seq<Token>, p: nat, c: Node, q1: nat, t: Node, q2: nat, e: Node, q3: nat)
    requires IsReserved(toks, p, "if") && IsReserved(toks, p + 1, "(")
    requires Expr(toks, p + 2) == Ok(Parsed(c, q1)) && IsReserved(toks, q1, ")")
    requires Stmt(toks, q1 + 1) == Ok(Parsed(t, q2)) && IsReserved(toks, q2, "else")
    requires Stmt(toks, q2 + 1) == Ok(Parsed(e, q3))
    ensures Stmt(toks, p) == Ok(Parsed(If(c, t, Some(e)), q3))
  {
    assert !IsReserved(toks, p, "fnc") && !IsReserved(toks, p, "return");
  }

  /** `if ( c ) t` not followed by `else` is the if without an else branch. */
  lemma StmtOfIfThen(toks: seq<Token>, p: nat, c: Node, q1: nat, t: Node, q2: nat)
    requires IsReserved(toks, p, "if") && IsReserved(toks, p + 1, "(")
    requires Expr(toks, p + 2) == Ok(Parsed(c, q1)) && IsReserved(toks, q1, ")")
    requires Stmt(toks, q1 + 1) == Ok(Parsed(t, q2)) && !IsReserved(toks, q2, "else")
    ensures Stmt(toks, p) == Ok(Parsed(If(c, t, None), q2))
  {
    assert !IsReserved(toks, p, "fnc") && !IsReserved(toks, p, "return");
  }

  /** `for body` is the loop over that one statement. */
  lemma StmtOfFor(toks: seq<Token>, p: nat, body: Node, q: nat)
    requires IsReserved(toks, p, "for") && Stmt(toks, p + 1) == Ok(Parsed(body, q))
    ensures Stmt(toks, p) == Ok(Parsed(For(body), q))
  {
    assert !IsReserved(toks, p, "fnc") && !IsReserved(toks, p, "return") && !IsReserved(toks, p, "if");
  }

  /** `break` must be followed by `;`, and is then the Break statement. */
  lemma StmtOfBreak(toks: seq<Token>, p: nat)
    requires IsReserved(toks, p, "break")
    ensures Stmt(toks, p) ==
      if IsReserved(toks, p + 1, ";") then Ok(Parsed(Break, p + 2))
      else if p + 1 == |toks| then Err(UnexpectedEnd(p + 1))
      else Err(ParseError(";", p + 1))
  {
    assert !IsReserved(toks, p, "fnc") && !IsReserved(toks, p, "return") && !IsReserved(toks, p, "if");
    assert !IsReserved(toks, p, "for");
  }
}
