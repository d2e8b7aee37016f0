/**
 * What the straight-line cases of `resolveStmt` and `resolveExpr`
 * guarantee: what a `var` declaration binds and emits, when an assignment
 * or a call is rejected, how `return` fills the terminator slot, and that
 * what an `if` or a `for` declares inside does not outlive it.
 */
module StatementProperties {
  import opened Common
  import opened Ast
  import opened Ir
  import opened Scopes
  import opened Lowering
  import opened LoweringFrames
  import opened LoweringProperties

  // ---------------------------------------------------------------------
  // `var x = e;` (generator.go:169-173)

  /**
   * A declaration binds `x`, in the scope's own map, to a fresh slot; it
   * emits the `alloca` of that slot, then the code of `e`, and last a store
   * of `e`'s value into the slot, all into the current block. No other
   * name changes meaning and nothing else in the graph changes.
   */
  lemma AllocBinds(st: GenState, s: Scope, x: string, e: Node, y: string)
    requires Valid(st) && s.ctx < |st.env.ctxs| && LowerAlloc(st, s, x, e).Ok?
    ensures
      var (s2, st2) := LowerAlloc(st, s, x, e).value;
      var id, b := st.nextValue, Cur(st, s.ctx);
      var old_, new_ := st.blocks[b].insts, st2.blocks[b].insts;
      && s2 == s
      && FindVariable(st2.env, s.ctx, x) == Ok(Slot(id))
      && (y != x ==> FindVariable(st2.env, s.ctx, y) == FindVariable(st.env, s.ctx, y))
      && FindFunction(st2.env, s.ctx, y) == FindFunction(st.env, s.ctx, y)
      && |old_| + 2 <= |new_| && new_[..|old_|] == old_ && new_[|old_|] == Alloca(id)
      && new_[|new_| - 1].Store? && new_[|new_| - 1].dst == Slot(id)
      && SameGraph(st, st2)
  {
    var c, id, b := s.ctx, st.nextValue, Cur(st, s.ctx);
    var st1 := Emit(Fresh(st), b, Alloca(id));
    DefineFrame(st, c, Alloca(id));
    LowerExprFrame(st1, c, e);
    var v := LowerExpr(st1, c, e).value;
    var st2 := Emit(v.1, b, Store(v.0, Slot(id)));
    StoreFrame(v.1, c, Store(v.0, Slot(id)));
    ExprFrameTrans(st, st1, v.1, c);
    ExprFrameTrans(st, v.1, st2, c);
    ExprKeepsGraph(st, c, st2);
    var env3 := BindVariable(st2.env, c, x, Slot(id));
    assert x in Vars(env3, c);
    if y != x {
      BindingLeavesOtherNames(st2.env, c, x, Slot(id), c, y);
    }
    FuncLookupIgnoresVars(st2.env, env3, c, y);
    var i1, i2 := st.blocks[b].insts, st1.blocks[b].insts;
    assert i2 == i1 + [Alloca(id)];
    assert st2.blocks[b].insts[..|i2|] == i2;
    assert st2.blocks[b].insts[..|i1|] == i2[..|i1|];
  }

  /** `findFunction` reads only the contexts and the function maps. */
  lemma {:induction false} FuncLookupIgnoresVars(env: Env, env2: Env, c: nat, f: string)
    requires WellFormed(env) && WellFormed(env2) && c < |env.ctxs|
    requires env2.ctxs == env.ctxs && env2.funcTables == env.funcTables
    ensures FindFunction(env2, c, f) == FindFunction(env, c, f)
    decreases c
  {
    if f !in Funcs(env, c) && env.ctxs[c].funcParent.Some? {
      FuncLookupIgnoresVars(env, env2, env.ctxs[c].funcParent.value, f);
    }
  }

  /**
   * The initial value is lowered before the name is bound, so `var x = x;`
   * reads the `x` of an enclosing declaration, and fails when there is none.
   */
  lemma AllocReadsOuterName(st: GenState, s: Scope, x: string)
    requires Valid(st) && s.ctx < |st.env.ctxs|
    requires VarUnbound(st.env, VarChain(st.env, s.ctx), x)
    ensures LowerAlloc(st, s, x, LVar(x)) == Err(VariableNotFound(x))
  {
    var st1 := Emit(Fresh(st), Cur(st, s.ctx), Alloca(st.nextValue));
    FindVariableFails(st.env, s.ctx, x);
    assert st1.env == st.env;
  }

  /** After `var x = e;`, reading `x` loads from the declared slot. */
  lemma ReadAfterAlloc(st: GenState, s: Scope, x: string, e: Node)
    requires Valid(st) && s.ctx < |st.env.ctxs| && LowerAlloc(st, s, x, e).Ok?
    ensures
      var (s2, st2) := LowerAlloc(st, s, x, e).value;
      var r := LowerExpr(st2, s2.ctx, LVar(x));
      && r.Ok? && r.value.0 == Reg(st2.nextValue)
      && var insts := r.value.1.blocks[Cur(st, s.ctx)].insts;
      |insts| > 0 && insts[|insts| - 1] == Load(st2.nextValue, Slot(st.nextValue))
  {
    AllocBinds(st, s, x, e, x);
    var (s2, st2) := LowerAlloc(st, s, x, e).value;
    assert Cur(st2, s.ctx) == Cur(st, s.ctx);
    SlotReadLoads(st2, s2.ctx, x, st.nextValue);
  }

  /** A variable bound to a slot is read through a `load` appended to the current block (generator.go:229-233). */
  lemma SlotReadLoads(st: GenState, c: nat, x: string, id: nat)
    requires Valid(st) && c < |st.env.ctxs| && FindVariable(st.env, c, x) == Ok(Slot(id))
    ensures LowerExpr(st, c, LVar(x)) == Ok((Reg(st.nextValue), Emit(Fresh(st), Cur(st, c), Load(st.nextValue, Slot(id)))))
  {
  }

  // ---------------------------------------------------------------------
  // `x = e;` (generator.go:165-168)

  /**
   * An assignment succeeds exactly when its target resolves and its value
   * lowers; it then stores the value into what the target resolved to, at
   * the end of the current block, and binds nothing.
   */
  lemma AssignStores(st: GenState, s: Scope, n: Node)
    requires Valid(st) && s.ctx < |st.env.ctxs| && n.Assign?
    ensures LowerStmt(st, s, n).Ok? <==>
      FindVariable(st.env, s.ctx, n.lhs.Str()).Ok? && LowerExpr(st, s.ctx, n.rhs).Ok?
    ensures LowerStmt(st, s, n).Ok? ==>
      var (s2, st2) := LowerStmt(st, s, n).value;
      var insts := st2.blocks[Cur(st, s.ctx)].insts;
      && s2 == s && st2.env == st.env
      && |insts| > 0
      && insts[|insts| - 1] == Store(LowerExpr(st, s.ctx, n.rhs).value.0, FindVariable(st.env, s.ctx, n.lhs.Str()).value)
  {
  }

  /**
   * Assigning to a name no context on the variable chain declares is
   * rejected, whatever the right-hand side: the target is looked up first.
   */
  lemma AssignUndeclaredFails(st: GenState, s: Scope, n: Node)
    requires Valid(st) && s.ctx < |st.env.ctxs| && n.Assign?
    requires VarUnbound(st.env, VarChain(st.env, s.ctx), n.lhs.Str())
    ensures LowerStmt(st, s, n) == Err(VariableNotFound(n.lhs.Str()))
  {
    FindVariableFails(st.env, s.ctx, n.lhs.Str());
  }

  // ---------------------------------------------------------------------
  // Binary operators (generator.go:203-226)

  /**
   * A binary node lowers its left operand, then its right operand from the
   * state the left one left, then appends the operator's instruction on
   * the two values to the current block and yields that instruction's
   * register. An error of the left operand wins over one of the right.
   */
  lemma BinaryEmits(st: GenState, c: nat, e: Node)
    requires Valid(st) && c < |st.env.ctxs| && e.IsBinary()
    ensures LowerExpr(st, c, e).Ok? <==>
      LowerExpr(st, c, e.lhs).Ok? && LowerExpr(LowerExpr(st, c, e.lhs).value.1, c, e.rhs).Ok?
    ensures LowerExpr(st, c, e.lhs).Err? ==> LowerExpr(st, c, e) == Err(LowerExpr(st, c, e.lhs).error)
    ensures LowerExpr(st, c, e.lhs).Ok? && LowerExpr(LowerExpr(st, c, e.lhs).value.1, c, e.rhs).Err? ==>
      LowerExpr(st, c, e) == Err(LowerExpr(LowerExpr(st, c, e.lhs).value.1, c, e.rhs).error)
    ensures LowerExpr(st, c, e).Ok? ==>
      var (v, st2) := LowerExpr(st, c, e).value;
      var l := LowerExpr(st, c, e.lhs).value;
      var r := LowerExpr(l.1, c, e.rhs).value;
      var b := Cur(st, c);
      && v == Reg(r.1.nextValue) && st2.nextValue == r.1.nextValue + 1
      && st.blocks[b].insts <= l.1.blocks[b].insts <= r.1.blocks[b].insts
      && st2.blocks[b].insts == r.1.blocks[b].insts + [BinaryInst(e, r.1.nextValue, l.0, r.0)]
  {
    var l := LowerExpr(st, c, e.lhs);
    LowerExprFrame(st, c, e.lhs);
    if l.Ok? {
      LowerExprFrame(l.value.1, c, e.rhs);
    }
  }

  /** A statement node in expression position is rejected (the `default` panic of `resolveExpr`). */
  lemma StatementIsNoExpression(st: GenState, c: nat, e: Node)
    requires Valid(st) && c < |st.env.ctxs|
    requires e.Return? || e.Alloc? || e.Assign? || e.If? || e.Block? || e.For? || e.Break? || e.Function?
    ensures LowerExpr(st, c, e) == Err(InvalidNodeType)
  {
  }

  /** `return x = 1;` is rejected: an assignment is no value. */
  lemma ReturnOfAssignmentRejected(st: GenState, s: Scope, l: Node, r: Node)
    requires Valid(st) && s.ctx < |st.env.ctxs|
    ensures LowerStmt(st, s, Return(Assign(l, r))) == Err(InvalidNodeType)
  {
    StatementIsNoExpression(st, s.ctx, Assign(l, r));
  }

  // ---------------------------------------------------------------------
  // Calls (generator.go:243-258)

  /**
   * A call succeeds exactly when its arguments lower and its name
   * resolves; it then appends one `call` of the function the name resolves
   * to, with one value per argument, and yields that call's value.
   */
  lemma CallEmits(st: GenState, c: nat, f: string, args: seq<Node>)
    requires Valid(st) && c < |st.env.ctxs|
    ensures LowerCall(st, c, f, args).Ok? <==> LowerArgs(st, c, args).Ok? && FindFunction(st.env, c, f).Ok?
    ensures LowerCall(st, c, f, args).Ok? ==>
      var (v, st2) := LowerCall(st, c, f, args).value;
      var a := LowerArgs(st, c, args).value;
      var insts := st2.blocks[Cur(st, c)].insts;
      && v == Reg(a.1.nextValue) && st2.nextValue == a.1.nextValue + 1
      && |insts| > 0 && insts[|insts| - 1] == Call(a.1.nextValue, FindFunction(st.env, c, f).value, a.0)
      && |a.0| == |args|
  {
  }

  /** Calling a name no context on the function chain registers is rejected once the arguments lower. */
  lemma UnknownFunctionFails(st: GenState, c: nat, f: string, args: seq<Node>)
    requires Valid(st) && c < |st.env.ctxs| && LowerArgs(st, c, args).Ok?
    requires FuncUnbound(st.env, FuncChain(st.env, c), f)
    ensures LowerCall(st, c, f, args) == Err(FunctionNotFound(f))
  {
    FindFunctionFails(st.env, c, f);
  }

  /** The arguments are lowered before the name is looked up: a failing argument's error wins. */
  lemma ArgumentErrorFirst(st: GenState, c: nat, f: string, args: seq<Node>)
    requires Valid(st) && c < |st.env.ctxs| && LowerArgs(st, c, args).Err?
    ensures LowerCall(st, c, f, args) == Err(LowerArgs(st, c, args).error)
  {
  }

  // ---------------------------------------------------------------------
  // `return e;` (generator.go:114-117)

  /**
   * A `return` succeeds exactly when its value lowers; it then sets the
   * current block's terminator to return that value, replacing any
   * terminator already there, and adds no block.
   */
  lemma ReturnTerminates(st: GenState, s: Scope, n: Node)
    requires Valid(st) && s.ctx < |st.env.ctxs| && n.Return?
    ensures LowerStmt(st, s, n).Ok? <==> LowerExpr(st, s.ctx, n.lhs).Ok?
    ensures LowerStmt(st, s, n).Ok? ==>
      var (s2, st2) := LowerStmt(st, s, n).value;
      && s2 == s && st2.env == st.env && |st2.blocks| == |st.blocks|
      && st2.blocks[Cur(st, s.ctx)].term == Some(Ret(Some(LowerExpr(st, s.ctx, n.lhs).value.0)))
  {
  }

  /** A non-empty statement list: the first statement, then the rest from where it left off. */
  lemma StmtsStep(st: GenState, s: Scope, ss: seq<Node>)
    requires Valid(st) && s.ctx < |st.env.ctxs| && ss != [] && LowerStmts(st, s, ss).Ok?
    ensures LowerStmt(st, s, ss[0]).Ok?
    ensures var (s1, st1) := LowerStmt(st, s, ss[0]).value;
      LowerStmts(st, s, ss) == LowerStmts(st1, s1, ss[1..])
  {
  }

  /**
   * Statements after a `return` still lower into the same block, and the
   * last terminator set wins: of two returns in a row, the block returns
   * the second one's value.
   */
  lemma LaterReturnWins(st: GenState, s: Scope, ss: seq<Node>)
    requires Valid(st) && s.ctx < |st.env.ctxs| && |ss| == 2 && ss[0].Return? && ss[1].Return?
    requires LowerStmts(st, s, ss).Ok?
    ensures LowerStmt(st, s, ss[0]).Ok?
    ensures
      var st1 := LowerStmt(st, s, ss[0]).value.1;
      && LowerExpr(st1, s.ctx, ss[1].lhs).Ok?
      && LowerStmts(st, s, ss).value.1.blocks[Cur(st, s.ctx)].term
           == Some(Ret(Some(LowerExpr(st1, s.ctx, ss[1].lhs).value.0)))
  {
    StmtsStep(st, s, ss);
    ReturnTerminates(st, s, ss[0]);
    var st1 := LowerStmt(st, s, ss[0]).value.1;
    var rest := ss[1..];
    StmtsStep(st1, s, rest);
    ReturnTerminates(st1, s, rest[0]);
    var st2 := LowerStmt(st1, s, rest[0]).value.1;
    assert rest[1..] == [];
    assert LowerStmts(st2, s, rest[1..]) == Ok((s, st2));
    assert Cur(st1, s.ctx) == Cur(st, s.ctx);
  }

  // ---------------------------------------------------------------------
  // Scoping of `if` and `for`

  /**
   * What the branches of an `if` declare is not visible after it: in the
   * context lowering continues in, every name resolves as it did before.
   */
  lemma IfKeepsOuterBindings(st: GenState, s: Scope, n: Node, x: string)
    requires Valid(st) && s.ctx < |st.env.ctxs| && n.If? && LowerIf(st, s, n).Ok?
    ensures
      var (s2, st6) := LowerIf(st, s, n).value;
      && FindVariable(st6.env, s2.ctx, x) == FindVariable(st.env, s.ctx, x)
      && FindFunction(st6.env, s2.ctx, x) == FindFunction(st.env, s.ctx, x)
  {
    IfOkSteps(st, s, n);
    var st2 := IfHead(st, s.ctx, n.cond, n.elseBranch.Some?).value;
    var st5 := IfBranches(st2, s, |st.blocks|, n).value;
    IfResult(st, s, n, st2, st5);
    IfKeepsOuterSteps(st, s, n, st2, st5, x);
  }

  lemma IfKeepsOuterSteps(st: GenState, s: Scope, n: Node, st2: GenState, st5: GenState, x: string)
    requires Valid(st) && s.ctx < |st.env.ctxs| && n.If?
    requires IfHead(st, s.ctx, n.cond, n.elseBranch.Some?) == Ok(st2)
    requires Valid(st2) && s.ctx < |st2.env.ctxs| && |st.blocks| + (if n.elseBranch.Some? then 2 else 1) < |st2.blocks|
    requires IfBranches(st2, s, |st.blocks|, n) == Ok(st5)
    requires Valid(st5) && |st.blocks| + 1 < |st5.blocks| && s.ctx < |st5.env.ctxs|
    ensures
      var (s2, st6) := LeaveInto(st5, s, |st.blocks| + 1);
      && FindVariable(st6.env, s2.ctx, x) == FindVariable(st.env, s.ctx, x)
      && FindFunction(st6.env, s2.ctx, x) == FindFunction(st.env, s.ctx, x)
  {
    var T := |st.blocks|;
    IfBranchesFrame(st2, s, T, n);
    FrameGrows(st2, st5, {T, T + 2});
    LookupsSurviveGrowth(st2.env, st5.env, s.ctx, x);
    LeaveIntoResolvesAlike(st5, s, T + 1, x);
  }

  /** The copy `LeaveInto` continues in resolves every name as the scope's context does. */
  lemma LeaveIntoResolvesAlike(st: GenState, s: Scope, leaveB: nat, x: string)
    requires Valid(st) && s.ctx < |st.env.ctxs| && leaveB < |st.blocks|
    ensures
      var (s2, st2) := LeaveInto(st, s, leaveB);
      && FindVariable(st2.env, s2.ctx, x) == FindVariable(st.env, s.ctx, x)
      && FindFunction(st2.env, s2.ctx, x) == FindFunction(st.env, s.ctx, x)
  {
    CopyResolvesAlike(st.env, s.ctx, leaveB, x);
    assert LeaveInto(st, s, leaveB).1.env == CopyContext(st.env, s.ctx, leaveB);
  }

  /** What the body of a `for` declares is not visible after it. */
  lemma ForKeepsOuterBindings(st: GenState, s: Scope, n: Node, x: string)
    requires Valid(st) && s.ctx < |st.env.ctxs| && n.For? && LowerFor(st, s, n).Ok?
    ensures
      var (s2, st4) := LowerFor(st, s, n).value;
      && FindVariable(st4.env, s2.ctx, x) == FindVariable(st.env, s.ctx, x)
      && FindFunction(st4.env, s2.ctx, x) == FindFunction(st.env, s.ctx, x)
  {
    var T := |st.blocks|;
    var st2 := ForHead(st, s.ctx);
    ForOkSteps(st, s, n);
    var st3 := LowerLoopBody(st2, s, T, T + 1, n.body).value;
    ForResult(st, s, n, st3);
    LowerLoopBodyFrame(st2, s, T, T + 1, n.body);
    FrameGrows(st2, st3, {T});
    LookupsSurviveGrowth(st2.env, st3.env, s.ctx, x);
    CopyResolvesAlike(st3.env, s.ctx, T + 1, x);
  }

  /** The copy `copyContext` makes resolves every name as the original does. */
  lemma CopyResolvesAlike(env: Env, c: nat, block: nat, x: string)
    requires WellFormed(env) && c < |env.ctxs|
    ensures FindVariable(CopyContext(env, c, block), |env.ctxs|, x) == FindVariable(env, c, x)
    ensures FindFunction(CopyContext(env, c, block), |env.ctxs|, x) == FindFunction(env, c, x)
  {
    var env2 := CopyContext(env, c, block);
    LookupsSurviveGrowth(env, env2, c, x);
    SharedTablesResolveAlike(env2, c, |env.ctxs|, x);
  }
}
