/**
 * The lowering engine of generator.go as a pure specification: every
 * `resolve...` routine becomes a function from the generator's state (the
 * module being built, the context arena, the global block counter) to the
 * new state, and every `panic` becomes an `Err`. The class in
 * generator.dfy performs the same steps by updating fields in place and is
 * proved to agree with these functions.
 */
module Lowering {
  import opened Common
  import opened Decimal
  import opened Ast
  import opened Ir
  import opened Scopes

  /** `blockName`'s format, `block-%d` (generator.go:60-64). */
  function BlockLabel(n: nat): (name: string)
    ensures |name| > 6 && name[..6] == "block-" && Canonical(name[6..]) && DecimalValue(name[6..]) == n
  {
    ValueOfRendering(n);
    assert ("block-" + NatToString(n))[6..] == NatToString(n);
    "block-" + NatToString(n)
  }

  /**
   * Everything the lowering reads and writes: the module's functions and
   * blocks, the contexts and their maps, the global `blockIndex`, and a
   * counter that names the values instructions define.
   */
  datatype GenState = GenState(funcs: seq<Func>, blocks: seq<BasicBlock>, env: Env, blockIndex: nat, nextValue: nat)

  /** A `Scope`: its current context and the two leave blocks in force. */
  datatype Scope = Scope(ctx: nat, ifLeave: Option<nat>, forLeave: Option<nat>)

  predicate Valid(st: GenState) {
    WellFormed(st.env)
    && (forall c :: 0 <= c < |st.env.ctxs| ==> st.env.ctxs[c].block < |st.blocks|)
    && (forall b :: 0 <= b < |st.blocks| ==> st.blocks[b].owner < |st.funcs|)
  }

  /** The block a context appends to. */
  function Cur(st: GenState, c: nat): nat
    requires c < |st.env.ctxs|
  {
    st.env.ctxs[c].block
  }

  /** `ctx.Parent`: the function owning a context's block. */
  function Owner(st: GenState, c: nat): nat
    requires Valid(st) && c < |st.env.ctxs|
  {
    st.blocks[Cur(st, c)].owner
  }

  // ---------------------------------------------------------------------
  // Primitive steps: the `llir` builders and the counters

  /** Append `inst` to block `b` (`NewAdd`, `NewLoad`, `NewStore`, `NewCall`, ...). */
  function Emit(st: GenState, b: nat, inst: Inst): (st2: GenState)
    requires Valid(st) && b < |st.blocks|
    ensures Valid(st2)
  {
    st.(blocks := st.blocks[b := st.blocks[b].(insts := st.blocks[b].insts + [inst])])
  }

  /** Fill block `b`'s single `Term` slot, replacing whatever was there (`NewRet`, `NewBr`, `NewCondBr`). */
  function SetTerm(st: GenState, b: nat, t: Terminator): (st2: GenState)
    requires Valid(st) && b < |st.blocks|
    ensures Valid(st2)
  {
    st.(blocks := st.blocks[b := st.blocks[b].(term := Some(t))])
  }

  /** `fn.NewBlock(name)`: a new empty, unterminated block of function `fn`, numbered `|st.blocks|`. */
  function AddBlock(st: GenState, fn: nat, name: string): (st2: GenState)
    requires Valid(st) && fn < |st.funcs|
    ensures Valid(st2)
  {
    st.(blocks := st.blocks + [BasicBlock(name, fn, [], None)],
        funcs := st.funcs[fn := st.funcs[fn].(body := st.funcs[fn].body + [|st.blocks|])])
  }

  /** `module.NewFunc(name, i32, params...)`, numbered `|st.funcs|`. */
  function AddFunc(st: GenState, name: string, params: seq<string>): (st2: GenState)
    requires Valid(st)
    ensures Valid(st2)
  {
    st.(funcs := st.funcs + [Func(name, params, [])])
  }

  /** A new value number for the instruction about to be emitted. */
  function Fresh(st: GenState): GenState {
    st.(nextValue := st.nextValue + 1)
  }

  /** The increment of `blockIndex` in `blockName`. */
  function NextLabel(st: GenState): GenState {
    st.(blockIndex := st.blockIndex + 1)
  }

  /** The instruction `resolveExpr` builds for a binary node (generator.go:203-226). */
  function BinaryInst(e: Node, result: nat, l: Value, r: Value): Inst
    requires e.IsBinary()
  {
    if e.Sum? then Arith(result, OpAdd, l, r)
    else if e.Sub? then Arith(result, OpSub, l, r)
    else if e.Mul? then Arith(result, OpMul, l, r)
    else if e.Div? then Arith(result, OpSDiv, l, r)
    else if e.Equal? then ICmp(result, PredEQ, l, r)
    else if e.NotEqual? then ICmp(result, PredNE, l, r)
    else if e.LT? then ICmp(result, PredSLT, l, r)
    else ICmp(result, PredSLE, l, r)
  }

  // ---------------------------------------------------------------------
  // Expressions

  /** Lowering an expression keeps the state valid, the contexts and maps as they are, and adds no block. */
  predicate ExprKeeps(st: GenState, st2: GenState) {
    Valid(st2) && st2.env == st.env && |st2.blocks| == |st.blocks|
  }

  /** `resolveExpr` (generator.go:201-241). */
  function LowerExpr(st: GenState, c: nat, e: Node): (r: Result<(Value, GenState)>)
    requires Valid(st) && c < |st.env.ctxs|
    ensures r.Ok? ==> ExprKeeps(st, r.value.1)
    decreases e, 1
  {
    match e
    case Sum(_, _) => LowerBinary(st, c, e)
    case Sub(_, _) => LowerBinary(st, c, e)
    case Mul(_, _) => LowerBinary(st, c, e)
    case Div(_, _) => LowerBinary(st, c, e)
    case Equal(_, _) => LowerBinary(st, c, e)
    case NotEqual(_, _) => LowerBinary(st, c, e)
    case LT(_, _) => LowerBinary(st, c, e)
    case LE(_, _) => LowerBinary(st, c, e)
    case Num(n) => Ok((Const(n), st))
    case LVar(x) =>
      var v :- FindVariable(st.env, c, x);
      if v.IsSlot() then
        Ok((Reg(st.nextValue), Emit(Fresh(st), Cur(st, c), Load(st.nextValue, v))))
      else
        Ok((v, st))
    case FunctionCall(f, args) => LowerCall(st, c, f, args)
    case Return(_) => Err(InvalidNodeType)
    case Alloc(_, _) => Err(InvalidNodeType)
    case Assign(_, _) => Err(InvalidNodeType)
    case If(_, _, _) => Err(InvalidNodeType)
    case Block(_) => Err(InvalidNodeType)
    case For(_) => Err(InvalidNodeType)
    case Break => Err(InvalidNodeType)
    case Function(_, _, _) => Err(InvalidNodeType)
  }

  /** The eight binary cases: left operand, right operand, then the instruction. */
  function LowerBinary(st: GenState, c: nat, e: Node): (r: Result<(Value, GenState)>)
    requires Valid(st) && c < |st.env.ctxs| && e.IsBinary()
    ensures r.Ok? ==> ExprKeeps(st, r.value.1)
    decreases e, 0
  {
    var l :- LowerExpr(st, c, e.lhs);
    var rr :- LowerExpr(l.1, c, e.rhs);
    Ok(EmitBinary(rr.1, c, e, l.0, rr.0))
  }

  /** The instruction of a binary node appended to `c`'s block, and the value it defines. */
  function EmitBinary(st: GenState, c: nat, e: Node, l: Value, r: Value): (p: (Value, GenState))
    requires Valid(st) && c < |st.env.ctxs| && e.IsBinary()
    ensures ExprKeeps(st, p.1)
  {
    (Reg(st.nextValue), Emit(Fresh(st), Cur(st, c), BinaryInst(e, st.nextValue, l, r)))
  }

  /** `callFunction` (generator.go:243-258): arguments in order, then the lookup, then the call. */
  function LowerCall(st: GenState, c: nat, f: string, args: seq<Node>): (r: Result<(Value, GenState)>)
    requires Valid(st) && c < |st.env.ctxs|
    ensures r.Ok? ==> ExprKeeps(st, r.value.1)
    decreases args, 1
  {
    var a :- LowerArgs(st, c, args);
    var fn :- FindFunction(a.1.env, c, f);
    var st2 := a.1;
    Ok((Reg(st2.nextValue), Emit(Fresh(st2), Cur(st2, c), Call(st2.nextValue, fn, a.0))))
  }

  /** The argument loop of `callFunction`: one value per argument, left to right. */
  function LowerArgs(st: GenState, c: nat, args: seq<Node>): (r: Result<(seq<Value>, GenState)>)
    requires Valid(st) && c < |st.env.ctxs|
    ensures r.Ok? ==> ExprKeeps(st, r.value.1) && |r.value.0| == |args|
    decreases args, 0
  {
    if args == [] then Ok(([], st))
    else
      var a :- LowerArgs(st, c, args[..|args| - 1]);
      var v :- LowerExpr(a.1, c, args[|args| - 1]);
      Ok((a.0 + [v.0], v.1))
  }

  // ---------------------------------------------------------------------
  // Statements

  /**
   * Lowering a statement keeps the state valid, leaves a scope whose
   * context exists, and never removes a block or a context.
   */
  predicate StmtKeeps(st: GenState, st2: GenState, s2: Scope) {
    Valid(st2) && s2.ctx < |st2.env.ctxs| && |st.blocks| <= |st2.blocks| && |st.env.ctxs| <= |st2.env.ctxs|
  }

  /** `resolveStmt` (generator.go:113-199). */
  function LowerStmt(st: GenState, s: Scope, n: Node): (r: Result<(Scope, GenState)>)
    requires Valid(st) && s.ctx < |st.env.ctxs|
    ensures r.Ok? ==> StmtKeeps(st, r.value.1, r.value.0)
    decreases n, 2
  {
    match n
    case Return(e) =>
      var v :- LowerExpr(st, s.ctx, e);
      Ok((s, SetTerm(v.1, Cur(st, s.ctx), Ret(Some(v.0)))))
    case If(_, _, _) => LowerIf(st, s, n)
    case Function(_, _, _) => LowerFunction(st, s, n)
    case FunctionCall(f, args) =>
      var v :- LowerCall(st, s.ctx, f, args);
      Ok((s, v.1))
    case Assign(lhs, rhs) =>
      var slot :- FindVariable(st.env, s.ctx, lhs.Str());
      var v :- LowerExpr(st, s.ctx, rhs);
      Ok((s, Emit(v.1, Cur(st, s.ctx), Store(v.0, slot))))
    case Alloc(lhs, rhs) => LowerAlloc(st, s, lhs.Str(), rhs)
    case For(_) => LowerFor(st, s, n)
    case Break => Ok((s, SetTerm(st, Cur(st, s.ctx), Br(s.forLeave))))
    case Block(ss) => LowerStmts(st, s, ss)
    case Sum(_, _) => Ok((s, st))
    case Sub(_, _) => Ok((s, st))
    case Mul(_, _) => Ok((s, st))
    case Div(_, _) => Ok((s, st))
    case Equal(_, _) => Ok((s, st))
    case NotEqual(_, _) => Ok((s, st))
    case LT(_, _) => Ok((s, st))
    case LE(_, _) => Ok((s, st))
    case LVar(_) => Ok((s, st))
    case Num(_) => Ok((s, st))
  }

  /** The `var` case (generator.go:169-173): the slot, the initial value, the store, then the binding. */
  function LowerAlloc(st: GenState, s: Scope, name: string, rhs: Node): (r: Result<(Scope, GenState)>)
    requires Valid(st) && s.ctx < |st.env.ctxs|
    ensures r.Ok? ==> StmtKeeps(st, r.value.1, r.value.0)
  {
    var slot := Slot(st.nextValue);
    var st1 := Emit(Fresh(st), Cur(st, s.ctx), Alloca(st.nextValue));
    var v :- LowerExpr(st1, s.ctx, rhs);
    var st2 := Emit(v.1, Cur(st, s.ctx), Store(v.0, slot));
    Ok((s, st2.(env := BindVariable(st2.env, s.ctx, name, slot))))
  }

  /** `resolveStmts` and the loop of the block case: one statement after another, threading the scope. */
  function LowerStmts(st: GenState, s: Scope, ss: seq<Node>): (r: Result<(Scope, GenState)>)
    requires Valid(st) && s.ctx < |st.env.ctxs|
    ensures r.Ok? ==> StmtKeeps(st, r.value.1, r.value.0)
    decreases ss, 0
  {
    if ss == [] then Ok((s, st))
    else
      var first :- LowerStmt(st, s, ss[0]);
      LowerStmts(first.1, first.0, ss[1..])
  }

  /**
   * The blocks the `if` case adds to function `fn` after taking a name from
   * `blockName`: `-then` and `-leave`, and `-else` when there is an else
   * branch, numbered in that order from `|st.blocks|`.
   */
  function IfBlocks(st: GenState, fn: nat, tag: string, hasElse: bool): (st2: GenState)
    requires Valid(st) && fn < |st.funcs|
    ensures Valid(st2) && st2.env == st.env && |st2.blocks| == |st.blocks| + if hasElse then 3 else 2
  {
    var st1 := AddBlock(AddBlock(NextLabel(st), fn, tag + "-then"), fn, tag + "-leave");
    if hasElse then AddBlock(st1, fn, tag + "-else") else st1
  }

  /**
   * One branch of an `if`: a child context of the scope's context on block
   * `b`, a child scope whose `ifLeaveBlock` is `leaveB`, and the branch
   * lowered there. The branch's final scope is dropped.
   */
  function LowerBranch(st: GenState, s: Scope, b: nat, leaveB: nat, branch: Node): (r: Result<GenState>)
    requires Valid(st) && s.ctx < |st.env.ctxs| && b < |st.blocks|
    ensures r.Ok? ==> Valid(r.value) && |st.blocks| <= |r.value.blocks| && |st.env.ctxs| < |r.value.env.ctxs|
    decreases branch, 3
  {
    var p :- LowerStmt(st.(env := NewChildContext(st.env, s.ctx, b)),
                       Scope(|st.env.ctxs|, Some(leaveB), s.forLeave), branch);
    Ok(p.1)
  }

  /**
   * The start of the `if` case: the new blocks, the condition lowered in
   * the scope's context, and `CondBr` from the current block to the then
   * block and to the else block, or to the leave block when there is none.
   */
  function IfHead(st: GenState, c: nat, cond: Node, hasElse: bool): (r: Result<GenState>)
    requires Valid(st) && c < |st.env.ctxs|
    ensures r.Ok? ==> Valid(r.value) && r.value.env == st.env
    ensures r.Ok? ==> |r.value.blocks| == |st.blocks| + if hasElse then 3 else 2
  {
    var thenB := |st.blocks|;
    var st1 := IfBlocks(st, Owner(st, c), BlockLabel(st.blockIndex), hasElse);
    var v :- LowerExpr(st1, c, cond);
    Ok(SetTerm(v.1, Cur(st, c), CondBr(v.0, thenB, if hasElse then thenB + 2 else thenB + 1)))
  }

  /** The then block falls through to the leave block only if its branch left it unterminated. */
  function CloseThen(st: GenState, thenB: nat, leaveB: nat): (st2: GenState)
    requires Valid(st) && thenB < |st.blocks|
    ensures Valid(st2) && st2.env == st.env && |st2.blocks| == |st.blocks|
  {
    if st.blocks[thenB].term.None? then SetTerm(st, thenB, Br(Some(leaveB))) else st
  }

  /** The `if` case (generator.go:118-143). */
  function LowerIf(st: GenState, s: Scope, n: Node): (r: Result<(Scope, GenState)>)
    requires Valid(st) && s.ctx < |st.env.ctxs| && n.If?
    ensures r.Ok? ==> StmtKeeps(st, r.value.1, r.value.0)
    decreases n, 1
  {
    var thenB := |st.blocks|;
    var st2 :- IfHead(st, s.ctx, n.cond, n.elseBranch.Some?);
    var st5 :- IfBranches(st2, s, thenB, n);
    Ok(LeaveInto(st5, s, thenB + 1))
  }

  /**
   * The branches of the `if` case, once its blocks exist: the then branch
   * on `thenB`, the fall-through from the then block to the leave block
   * `thenB + 1`, and the else branch on `thenB + 2` when there is one.
   */
  function IfBranches(st: GenState, s: Scope, thenB: nat, n: Node): (r: Result<GenState>)
    requires Valid(st) && s.ctx < |st.env.ctxs| && n.If?
    requires thenB + (if n.elseBranch.Some? then 2 else 1) < |st.blocks|
    ensures r.Ok? ==> Valid(r.value) && |st.blocks| <= |r.value.blocks| && |st.env.ctxs| < |r.value.env.ctxs|
    decreases n, 0
  {
    var st3 :- LowerBranch(st, s, thenB, thenB + 1, n.thenBranch);
    var st4 := CloseThen(st3, thenB, thenB + 1);
    if n.elseBranch.None? then Ok(st4) else LowerBranch(st4, s, thenB + 2, thenB + 1, n.elseBranch.value)
  }

  /**
   * The end of the `if` case: the scope's context becomes a copy of itself
   * on the leave block, and the leave block branches to the enclosing
   * `ifLeaveBlock` when there is one.
   */
  function LeaveInto(st: GenState, s: Scope, leaveB: nat): (r: (Scope, GenState))
    requires Valid(st) && s.ctx < |st.env.ctxs| && leaveB < |st.blocks|
    ensures StmtKeeps(st, r.1, r.0)
  {
    var st2 := st.(env := CopyContext(st.env, s.ctx, leaveB));
    (s.(ctx := |st.env.ctxs|), if s.ifLeave.Some? then SetTerm(st2, leaveB, Br(s.ifLeave)) else st2)
  }

  /**
   * The body of a `for`: a child context on the loop block, a child scope
   * whose `forLeaveBlock` is `leaveB` (and no `ifLeaveBlock`), the body
   * lowered there, and a branch back to the loop block put on whatever
   * block the body ended in.
   */
  function LowerLoopBody(st: GenState, s: Scope, loopB: nat, leaveB: nat, body: Node): (r: Result<GenState>)
    requires Valid(st) && s.ctx < |st.env.ctxs| && loopB < |st.blocks|
    ensures r.Ok? ==> Valid(r.value) && |st.blocks| <= |r.value.blocks| && |st.env.ctxs| < |r.value.env.ctxs|
    decreases body, 3
  {
    var p :- LowerStmt(st.(env := NewChildContext(st.env, s.ctx, loopB)),
                       Scope(|st.env.ctxs|, None, Some(leaveB)), body);
    Ok(SetTerm(p.1, Cur(p.1, p.0.ctx), Br(Some(loopB))))
  }

  /**
   * The start of the `for` case: `-for` and `-leave-for` blocks named after
   * one `blockName` value, and a branch from the current block into the
   * loop block.
   */
  function ForHead(st: GenState, c: nat): (st2: GenState)
    requires Valid(st) && c < |st.env.ctxs|
    ensures Valid(st2) && st2.env == st.env && |st2.blocks| == |st.blocks| + 2
  {
    var fn := Owner(st, c);
    var tag := BlockLabel(st.blockIndex);
    var st1 := AddBlock(AddBlock(NextLabel(st), fn, tag + "-for"), fn, tag + "-leave-for");
    SetTerm(st1, Cur(st, c), Br(Some(|st.blocks|)))
  }

  /** The `for` case (generator.go:174-184). */
  function LowerFor(st: GenState, s: Scope, n: Node): (r: Result<(Scope, GenState)>)
    requires Valid(st) && s.ctx < |st.env.ctxs| && n.For?
    ensures r.Ok? ==> StmtKeeps(st, r.value.1, r.value.0)
    decreases n, 1
  {
    var loopB := |st.blocks|;
    var st3 :- LowerLoopBody(ForHead(st, s.ctx), s, loopB, loopB + 1, n.body);
    Ok((s.(ctx := |st3.env.ctxs|), st3.(env := CopyContext(st3.env, s.ctx, loopB + 1))))
  }

  /**
   * The parameter loop of the function case (generator.go:155-157): name
   * `params[i]` is bound to parameter `i` of function `fn`, in order, so a
   * repeated name ends up bound to its last position.
   */
  function BindParams(env: Env, c: nat, params: seq<string>, fn: nat, i: nat): (env2: Env)
    requires WellFormed(env) && c < |env.ctxs| && i <= |params|
    ensures WellFormed(env2) && env2.ctxs == env.ctxs && env2.funcTables == env.funcTables
    ensures |env2.varTables| == |env.varTables|
    ensures forall t :: 0 <= t < |env.varTables| && t != env.ctxs[c].vars ==> env2.varTables[t] == env.varTables[t]
    decreases |params| - i
  {
    if i == |params| then env
    else BindParams(BindVariable(env, c, params[i], Param(fn, i)), c, params, fn, i + 1)
  }

  /**
   * The start of the function-definition case: the function, named after
   * the enclosing function, with its entry block named by `blockName`; a
   * function context on the entry block whose function parent is the
   * scope's context; the registration in the scope's context; the
   * parameters bound in the new context. The new context is the last one.
   */
  function FunctionHead(st: GenState, c: nat, name: string, params: seq<string>): (st2: GenState)
    requires Valid(st) && c < |st.env.ctxs|
    ensures Valid(st2) && |st2.blocks| == |st.blocks| + 1 && |st2.env.ctxs| == |st.env.ctxs| + 1
  {
    var fn := |st.funcs|;
    var st1 := AddFunc(st, st.funcs[Owner(st, c)].name + "_" + name, params);
    var st2 := AddBlock(NextLabel(st1), fn, BlockLabel(st1.blockIndex));
    var env3 := NewFunctionContext(st2.env, c, |st.blocks|);
    var env4 := RegisterFunction(env3, c, name, fn);
    st2.(env := BindParams(env4, |st.env.ctxs|, params, fn, 0))
  }

  /** The function-definition case (generator.go:144-162). */
  function LowerFunction(st: GenState, s: Scope, n: Node): (r: Result<(Scope, GenState)>)
    requires Valid(st) && s.ctx < |st.env.ctxs| && n.Function?
    ensures r.Ok? ==> StmtKeeps(st, r.value.1, r.value.0)
    decreases n, 1
  {
    var entry := |st.blocks|;
    var body :- LowerStmt(FunctionHead(st, s.ctx, n.name, n.params), Scope(|st.env.ctxs|, None, None), n.body);
    var st2 := body.1;
    Ok((s, if st2.blocks[entry].term.None? then SetTerm(st2, entry, Ret(None)) else st2))
  }

  // ---------------------------------------------------------------------
  // The whole program

  /** `printValue`'s index: it is the one function registered before lowering (generator.go:96-99). */
  const PrintValueFunc: nat := 0
  /** `main`'s index; its one block, named "", is block 0. */
  const MainFunc: nat := 1

  /**
   * The state `GenerateIR` starts lowering from (generator.go:67-76):
   * `printValue` registered in the global map, `main` with its block, and
   * main's context using the global map, fresh variables and no parents.
   */
  function InitialState(): (st: GenState)
    ensures Valid(st) && |st.env.ctxs| == 1
  {
    GenState([Func("printValue", ["value"], []), Func("main", [], [0])],
             [BasicBlock("", MainFunc, [], None)],
             Env([Context(0, None, None, 0, 0)], [map[]], [map["printValue" := PrintValueFunc]]),
             0, 0)
  }

  /** `GenerateIR` (generator.go:66-80), up to the textual form of the module. */
  function Generate(program: seq<Node>): (r: Result<Module>)
    ensures r.Ok? ==> |r.value.blocks| >= 1
    ensures r.Ok? ==> forall b :: 0 <= b < |r.value.blocks| ==> r.value.blocks[b].owner < |r.value.funcs|
  {
    var p :- LowerStmts(InitialState(), Scope(0, None, None), program);
    Ok(Module(p.1.funcs, p.1.blocks))
  }
}
