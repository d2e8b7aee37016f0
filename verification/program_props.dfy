/**
 * What `GenerateIR` guarantees of a whole program: the module always holds
 * `printValue` and `main`, `main`'s entry block stays first, and, as
 * written, `main` gets no terminator unless the program sets one.
 */
module ProgramProperties {
  import opened Common
  import opened Ast
  import opened Ir
  import opened Scopes
  import opened Lowering
  import opened LoweringFrames
  import opened LoweringProperties
  import opened StatementProperties

  /** Lowering a whole program: the state it ends in. */
  lemma ProgramFrame(program: seq<Node>)
    requires LowerStmts(InitialState(), Scope(0, None, None), program).Ok?
    ensures
      var st0, st := InitialState(), LowerStmts(InitialState(), Scope(0, None, None), program).value.1;
      Frame(st0, st, {0}, 0, 0)
  {
    LowerStmtsLowered(InitialState(), Scope(0, None, None), program);
  }

  /**
   * A module that is produced holds `printValue(value)` and `main()` as its
   * first two functions, and `main`'s unnamed entry block as block 0.
   */
  lemma GenerateShape(program: seq<Node>)
    requires Generate(program).Ok?
    ensures
      var m := Generate(program).value;
      && |m.funcs| >= 2 && |m.blocks| >= 1
      && m.funcs[PrintValueFunc].name == "printValue" && m.funcs[PrintValueFunc].params == ["value"]
      && m.funcs[MainFunc].name == "main" && m.funcs[MainFunc].params == []
      && m.blocks[0].name == "" && m.blocks[0].owner == MainFunc
  {
    var st0 := InitialState();
    ProgramFrame(program);
    var st := LowerStmts(st0, Scope(0, None, None), program).value.1;
    FrameKeepsFunc(st0, st, {0}, 0, 0, PrintValueFunc);
    FrameKeepsFunc(st0, st, {0}, 0, 0, MainFunc);
    FrameKeepsBlock(st0, st, {0}, 0, 0, 0);
  }

  /**
   * A program of straight statements only (declarations, assignments,
   * calls) produces `main` as one block with no terminator: nothing adds
   * the `ret` a function returning `i32` needs.
   */
  lemma MainNeverTerminated(program: seq<Node>)
    requires forall i :: 0 <= i < |program| ==> Straight(program[i])
    requires Generate(program).Ok?
    ensures |Generate(program).value.blocks| == 1 && Generate(program).value.blocks[0].term == None
  {
    StraightsKeepGraph(InitialState(), Scope(0, None, None), program);
  }

  /** A program whose first statement assigns to a name is rejected: nothing is declared yet. */
  lemma UndeclaredAssignmentRejected(program: seq<Node>)
    requires |program| > 0 && program[0].Assign?
    ensures Generate(program) == Err(VariableNotFound(program[0].lhs.Str()))
  {
    var st0, s0 := InitialState(), Scope(0, None, None);
    assert VarChain(st0.env, 0) == [0];
    AssignUndeclaredFails(st0, s0, program[0]);
  }

  /**
   * `var x;` parses to the bare name (`StmtOfVarBare`), an expression
   * statement that declares nothing, so `var x; x = 1;` is rejected.
   */
  lemma BareVarDeclaresNothing()
    ensures Generate([LVar("x"), Assign(LVar("x"), Num(1))]) == Err(VariableNotFound("x"))
  {
    var st0, s0 := InitialState(), Scope(0, None, None);
    var prog := [LVar("x"), Assign(LVar("x"), Num(1))];
    StmtCases(st0, s0, prog[0]);
    assert prog[1..] == [Assign(LVar("x"), Num(1))];
    UndeclaredAssignmentRejected(prog[1..]);
  }

  /** `printValue(7);` lowers to one call of `printValue` with the constant, in `main`'s block. */
  lemma PrintValueCall()
    ensures Generate([FunctionCall("printValue", [Num(7)])]) ==
      Ok(Module([Func("printValue", ["value"], []), Func("main", [], [0])],
                [BasicBlock("", MainFunc, [Call(0, PrintValueFunc, [Const(7)])], None)]))
  {
    var st0, s0 := InitialState(), Scope(0, None, None);
    var args := [Num(7)];
    assert args[..|args| - 1] == [] && args[|args| - 1] == Num(7);
    assert LowerExpr(st0, 0, Num(7)) == Ok((Const(7), st0));
    assert [] + [Const(7)] == [Const(7)];
    assert LowerArgs(st0, 0, args) == Ok(([Const(7)], st0));
    var st1 := Emit(Fresh(st0), 0, Call(0, PrintValueFunc, [Const(7)]));
    var prog := [FunctionCall("printValue", [Num(7)])];
    CallStmtCase(st0, s0, prog[0]);
    assert LowerCall(st0, s0.ctx, prog[0].name, prog[0].args) == Ok((Reg(0), st1));
    assert LowerStmt(st0, s0, prog[0]) == Ok((s0, st1));
    assert prog[1..] == [];
    assert LowerStmts(st0, s0, prog) == Ok((s0, st1));
    assert st1.funcs == st0.funcs;
    assert st0.blocks[0].insts + [Call(0, PrintValueFunc, [Const(7)])] == [Call(0, PrintValueFunc, [Const(7)])];
    assert st1.blocks == [BasicBlock("", MainFunc, [Call(0, PrintValueFunc, [Const(7)])], None)];
  }

  /** A function defined at the top level is named after `main` and gets the first block name. */
  lemma TopLevelFunctionNamed()
    ensures
      var r := Generate([Function("f", ["a"], Block([]))]);
      && r.Ok? && |r.value.funcs| == 3 && |r.value.blocks| == 2
      && r.value.funcs[2] == Func("main_f", ["a"], [1])
      && r.value.blocks[1] == BasicBlock("block-0", 2, [], Some(Ret(None)))
  {
    var st0, s0 := InitialState(), Scope(0, None, None);
    var n := Function("f", ["a"], Block([]));
    var h := FunctionHead(st0, 0, "f", ["a"]);
    FunctionHeadBlockZero();
    assert LowerStmt(h, Scope(1, None, None), Block([])) == Ok((Scope(1, None, None), h));
  }

  /** The first block name `blockName` hands out. */
  lemma FunctionHeadBlockZero()
    ensures FunctionHead(InitialState(), 0, "f", ["a"]).blocks[1] == BasicBlock("block-0", 2, [], None)
  {
  }
}
