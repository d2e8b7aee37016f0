/**
 * The generator of generator.go as it runs: a `Generator` object whose
 * fields are the module being built (functions and blocks), the context
 * arena with its maps, the global `blockIndex` and the value counter. Its
 * methods perform the steps of `resolveStmt`, `resolveExpr` and
 * `callFunction` by updating those fields in place, with the source's
 * loops as loops, and each is proved to agree with its specification
 * function in lowering.dfy: the same error, or the same result and state.
 */
module Generator {
  import opened Common
  import opened Decimal
  import opened Ast
  import opened Ir
  import opened Scopes
  import opened Lowering
  import opened LoweringProperties

  /** A step's outcome against its specification: the same error, or the same value and the same new state. */
  predicate Agrees<T(==)>(r: Result<T>, spec: Result<(T, GenState)>, st: GenState) {
    match r
    case Ok(v) => spec == Ok((v, st))
    case Err(e) => spec == Err(e)
  }

  /** The same, for a step whose specification yields only the new state. */
  predicate Reaches(r: Result<()>, spec: Result<GenState>, st: GenState) {
    match r
    case Ok(_) => spec == Ok(st)
    case Err(e) => spec == Err(e)
  }

  /**
   * When the arguments before position `k` already fail, so does the whole
   * argument list, with the same error: the loop of `callFunction` may stop
   * at the first failing argument.
   */
  lemma {:induction false} ArgsPrefixFails(st: GenState, c: nat, args: seq<Node>, k: nat)
    requires Valid(st) && c < |st.env.ctxs| && k <= |args| && LowerArgs(st, c, args[..k]).Err?
    ensures LowerArgs(st, c, args) == LowerArgs(st, c, args[..k])
    decreases |args|
  {
    if k < |args| {
      var init := args[..|args| - 1];
      assert init[..k] == args[..k];
      ArgsPrefixFails(st, c, init, k);
    } else {
      assert args[..k] == args;
    }
  }

  class Generator {
    var funcs: seq<Func>
    var blocks: seq<BasicBlock>
    var ctxs: seq<Context>
    var varTables: seq<map<string, Value>>
    var funcTables: seq<map<string, nat>>
    var blockIndex: nat
    var nextValue: nat

    /** The generator's fields as a specification state. */
    function State(): GenState
      reads this
    {
      GenState(funcs, blocks, Env(ctxs, varTables, funcTables), blockIndex, nextValue)
    }

    predicate Valid()
      reads this
    {
      Lowering.Valid(State())
    }

    /** The generator `GenerateIR` sets up (generator.go:67-76), with the map of `registerGlobalFuncs` (generator.go:96-99). */
    constructor ()
      ensures State() == InitialState() && Valid()
    {
      funcs := [Func("printValue", ["value"], []), Func("main", [], [0])];
      blocks := [BasicBlock("", MainFunc, [], None)];
      ctxs := [Context(0, None, None, 0, 0)];
      varTables := [map[]];
      funcTables := [map["printValue" := PrintValueFunc]];
      blockIndex := 0;
      nextValue := 0;
    }

    // -------------------------------------------------------------------
    // Primitive steps

    /** `blockName` (generator.go:60-64): the current label, then the counter moves on. */
    method BlockName() returns (name: string)
      modifies this
      ensures name == BlockLabel(old(blockIndex)) && State() == NextLabel(old(State()))
    {
      name := BlockLabel(blockIndex);
      blockIndex := blockIndex + 1;
    }

    /** `fn.NewBlock(name)`. */
    method NewBlock(fn: nat, name: string) returns (b: nat)
      requires Valid() && fn < |funcs|
      modifies this
      ensures b == |old(blocks)| && State() == AddBlock(old(State()), fn, name)
    {
      b := |blocks|;
      blocks := blocks + [BasicBlock(name, fn, [], None)];
      funcs := funcs[fn := funcs[fn].(body := funcs[fn].body + [b])];
    }

    /** `module.NewFunc(name, i32, params...)`. */
    method NewFunc(name: string, params: seq<string>) returns (fn: nat)
      requires Valid()
      modifies this
      ensures fn == |old(funcs)| && State() == AddFunc(old(State()), name, params)
    {
      fn := |funcs|;
      funcs := funcs + [Func(name, params, [])];
    }

    /** The number of the value the next instruction defines. */
    method NewValue() returns (id: nat)
      modifies this
      ensures id == old(nextValue) && State() == Fresh(old(State()))
    {
      id := nextValue;
      nextValue := nextValue + 1;
    }

    /** Append an instruction to block `b`. */
    method Append(b: nat, inst: Inst)
      requires Valid() && b < |blocks|
      modifies this
      ensures State() == Emit(old(State()), b, inst)
    {
      blocks := blocks[b := blocks[b].(insts := blocks[b].insts + [inst])];
    }

    /** Fill block `b`'s terminator slot (`NewRet`, `NewBr`, `NewCondBr`). */
    method Terminate(b: nat, t: Terminator)
      requires Valid() && b < |blocks|
      modifies this
      ensures State() == SetTerm(old(State()), b, t)
    {
      blocks := blocks[b := blocks[b].(term := Some(t))];
    }

    /** `newFunctionContext` (generator.go:38-42). */
    method AddFunctionContext(parent: nat, block: nat) returns (c: nat)
      requires WellFormed(State().env) && parent < |ctxs|
      modifies this
      ensures c == |old(ctxs)|
      ensures State() == old(State()).(env := NewFunctionContext(old(State()).env, parent, block))
    {
      c := |ctxs|;
      ctxs := ctxs + [Context(block, None, Some(parent), |varTables|, |funcTables|)];
      varTables := varTables + [map[]];
      funcTables := funcTables + [map[]];
    }

    /** `newChildContext` (generator.go:44-49). */
    method AddChildContext(parent: nat, block: nat) returns (c: nat)
      requires WellFormed(State().env) && parent < |ctxs|
      modifies this
      ensures c == |old(ctxs)|
      ensures State() == old(State()).(env := NewChildContext(old(State()).env, parent, block))
    {
      c := |ctxs|;
      ctxs := ctxs + [Context(block, Some(parent), Some(parent), |varTables|, |funcTables|)];
      varTables := varTables + [map[]];
      funcTables := funcTables + [map[]];
    }

    /** `copyContext` (generator.go:51-56). */
    method AddCopyContext(orig: nat, block: nat) returns (c: nat)
      requires WellFormed(State().env) && orig < |ctxs|
      modifies this
      ensures c == |old(ctxs)|
      ensures State() == old(State()).(env := CopyContext(old(State()).env, orig, block))
    {
      c := |ctxs|;
      var x := ctxs[orig];
      ctxs := ctxs + [Context(block, x.varParent, x.funcParent, x.vars, x.funcs)];
    }

    /** `ctx.vars[name] = v`. */
    method Bind(c: nat, name: string, v: Value)
      requires WellFormed(State().env) && c < |ctxs|
      modifies this
      ensures State() == old(State()).(env := BindVariable(old(State()).env, c, name, v))
    {
      var t := ctxs[c].vars;
      varTables := varTables[t := varTables[t][name := v]];
    }

    /** `ctx.functions[name] = &FunctionContext{target: fn}`. */
    method Register(c: nat, name: string, fn: nat)
      requires WellFormed(State().env) && c < |ctxs|
      modifies this
      ensures State() == old(State()).(env := RegisterFunction(old(State()).env, c, name, fn))
    {
      var t := ctxs[c].funcs;
      var m: map<string, nat> := funcTables[t][name := fn];
      funcTables := funcTables[t := m];
    }

    // -------------------------------------------------------------------
    // Expressions

    /** `resolveExpr` (generator.go:201-241). */
    method ResolveExpr(c: nat, e: Node) returns (r: Result<Value>)
      requires Valid() && c < |ctxs|
      modifies this
      ensures Agrees(r, LowerExpr(old(State()), c, e), State())
      decreases e, 1
    {
      match e
      case Sum(_, _) => r := ResolveBinary(c, e);
      case Sub(_, _) => r := ResolveBinary(c, e);
      case Mul(_, _) => r := ResolveBinary(c, e);
      case Div(_, _) => r := ResolveBinary(c, e);
      case Equal(_, _) => r := ResolveBinary(c, e);
      case NotEqual(_, _) => r := ResolveBinary(c, e);
      case LT(_, _) => r := ResolveBinary(c, e);
      case LE(_, _) => r := ResolveBinary(c, e);
      case Num(n) => r := Ok(Const(n));
      case LVar(x) =>
        var v := FindVariable(State().env, c, x);
        if v.Err? {
          return Err(v.error);
        }
        if v.value.IsSlot() {
          var id := NewValue();
          Append(ctxs[c].block, Load(id, v.value));
          r := Ok(Reg(id));
        } else {
          r := Ok(v.value);
        }
      case FunctionCall(f, args) => r := CallFunction(c, f, args);
      case Return(_) => r := Err(InvalidNodeType);
      case Alloc(_, _) => r := Err(InvalidNodeType);
      case Assign(_, _) => r := Err(InvalidNodeType);
      case If(_, _, _) => r := Err(InvalidNodeType);
      case Block(_) => r := Err(InvalidNodeType);
      case For(_) => r := Err(InvalidNodeType);
      case Break => r := Err(InvalidNodeType);
      case Function(_, _, _) => r := Err(InvalidNodeType);
    }

    /** The eight binary cases (generator.go:203-226). */
    method ResolveBinary(c: nat, e: Node) returns (r: Result<Value>)
      requires Valid() && c < |ctxs| && e.IsBinary()
      modifies this
      ensures Agrees(r, LowerBinary(old(State()), c, e), State())
      decreases e, 0
    {
      var l := ResolveExpr(c, e.lhs);
      if l.Err? {
        return Err(l.error);
      }
      var rr := ResolveExpr(c, e.rhs);
      if rr.Err? {
        return Err(rr.error);
      }
      var id := NewValue();
      Append(ctxs[c].block, BinaryInst(e, id, l.value, rr.value));
      r := Ok(Reg(id));
    }

    /** `callFunction` (generator.go:243-258): the argument loop, the lookup, the call. */
    method CallFunction(c: nat, f: string, args: seq<Node>) returns (r: Result<Value>)
      requires Valid() && c < |ctxs|
      modifies this
      ensures Agrees(r, LowerCall(old(State()), c, f, args), State())
      decreases args, 1
    {
      var vals: seq<Value> := [];
      var i := 0;
      while i < |args|
        invariant 0 <= i <= |args| && Valid() && c < |ctxs|
        invariant LowerArgs(old(State()), c, args[..i]) == Ok((vals, State()))
        decreases |args| - i
      {
        ghost var before := State();
        var v := ResolveExpr(c, args[i]);
        assert args[..i + 1][..i] == args[..i];
        if v.Err? {
          ArgsPrefixFails(old(State()), c, args, i + 1);
          return Err(v.error);
        }
        vals := vals + [v.value];
        i := i + 1;
      }
      assert args[..i] == args;
      var fn := FindFunction(State().env, c, f);
      if fn.Err? {
        return Err(fn.error);
      }
      var id := NewValue();
      Append(ctxs[c].block, Call(id, fn.value, vals));
      r := Ok(Reg(id));
    }

    // -------------------------------------------------------------------
    // Statements

    /** `resolveStmt` (generator.go:113-199); the scope's context after the statement is returned. */
    method ResolveStmt(s: Scope, n: Node) returns (r: Result<Scope>)
      requires Valid() && s.ctx < |ctxs|
      modifies this
      ensures Agrees(r, LowerStmt(old(State()), s, n), State())
      decreases n, 2
    {
      StmtCases(old(State()), s, n);
      match n
      case Return(_) => r := ResolveReturn(s, n);
      case If(_, _, _) => r := ResolveIf(s, n);
      case Function(_, _, _) => r := ResolveFunction(s, n);
      case FunctionCall(_, _) => r := ResolveCallStmt(s, n);
      case Assign(_, _) => r := ResolveAssign(s, n);
      case Alloc(lhs, rhs) => r := ResolveAlloc(s, lhs.Str(), rhs);
      case For(_) => r := ResolveFor(s, n);
      case Break =>
        Terminate(ctxs[s.ctx].block, Br(s.forLeave));
        r := Ok(s);
      case Block(ss) => r := ResolveStmts(s, ss);
      case Sum(_, _) => r := Ok(s);
      case Sub(_, _) => r := Ok(s);
      case Mul(_, _) => r := Ok(s);
      case Div(_, _) => r := Ok(s);
      case Equal(_, _) => r := Ok(s);
      case NotEqual(_, _) => r := Ok(s);
      case LT(_, _) => r := Ok(s);
      case LE(_, _) => r := Ok(s);
      case LVar(_) => r := Ok(s);
      case Num(_) => r := Ok(s);
    }

    /** The `return` case (generator.go:115-117). */
    method ResolveReturn(s: Scope, n: Node) returns (r: Result<Scope>)
      requires Valid() && s.ctx < |ctxs| && n.Return?
      modifies this
      ensures Agrees(r, LowerStmt(old(State()), s, n), State())
      decreases n, 1
    {
      var v := ResolveExpr(s.ctx, n.lhs);
      if v.Err? {
        return Err(v.error);
      }
      Terminate(ctxs[s.ctx].block, Ret(Some(v.value)));
      r := Ok(s);
    }

    /** The call statement (generator.go:163-164): the call for its effect. */
    method ResolveCallStmt(s: Scope, n: Node) returns (r: Result<Scope>)
      requires Valid() && s.ctx < |ctxs| && n.FunctionCall?
      modifies this
      ensures Agrees(r, LowerStmt(old(State()), s, n), State())
      decreases n, 1
    {
      CallStmtCase(State(), s, n);
      var v := CallFunction(s.ctx, n.name, n.args);
      if v.Err? {
        return Err(v.error);
      }
      r := Ok(s);
    }

    /** The assignment case (generator.go:165-168). */
    method ResolveAssign(s: Scope, n: Node) returns (r: Result<Scope>)
      requires Valid() && s.ctx < |ctxs| && n.Assign?
      modifies this
      ensures Agrees(r, LowerStmt(old(State()), s, n), State())
      decreases n, 1
    {
      var slot := FindVariable(State().env, s.ctx, n.lhs.Str());
      if slot.Err? {
        return Err(slot.error);
      }
      var v := ResolveExpr(s.ctx, n.rhs);
      if v.Err? {
        return Err(v.error);
      }
      Append(ctxs[s.ctx].block, Store(v.value, slot.value));
      r := Ok(s);
    }

    /** `resolveStmts` (generator.go:102-111), also the loop of the block case (generator.go:187-195). */
    method ResolveStmts(s: Scope, ss: seq<Node>) returns (r: Result<Scope>)
      requires Valid() && s.ctx < |ctxs|
      modifies this
      ensures Agrees(r, LowerStmts(old(State()), s, ss), State())
      decreases ss, 0
    {
      var cur := s;
      var i := 0;
      while i < |ss|
        invariant 0 <= i <= |ss| && Valid() && cur.ctx < |ctxs|
        invariant LowerStmts(old(State()), s, ss) == LowerStmts(State(), cur, ss[i..])
        decreases |ss| - i
      {
        var x := ResolveStmt(cur, ss[i]);
        assert ss[i..][0] == ss[i] && ss[i..][1..] == ss[i + 1..];
        if x.Err? {
          return Err(x.error);
        }
        cur := x.value;
        i := i + 1;
      }
      r := Ok(cur);
    }

    /** The `var` case (generator.go:169-173). */
    method ResolveAlloc(s: Scope, name: string, rhs: Node) returns (r: Result<Scope>)
      requires Valid() && s.ctx < |ctxs|
      modifies this
      ensures Agrees(r, LowerAlloc(old(State()), s, name, rhs), State())
      decreases rhs, 2
    {
      var b := ctxs[s.ctx].block;
      var id := NewValue();
      Append(b, Alloca(id));
      var v := ResolveExpr(s.ctx, rhs);
      if v.Err? {
        return Err(v.error);
      }
      Append(b, Store(v.value, Slot(id)));
      Bind(s.ctx, name, Slot(id));
      r := Ok(s);
    }

    /** The `if` case (generator.go:118-143). */
    method ResolveIf(s: Scope, n: Node) returns (r: Result<Scope>)
      requires Valid() && s.ctx < |ctxs| && n.If?
      modifies this
      ensures Agrees(r, LowerIf(old(State()), s, n), State())
      decreases n, 1
    {
      var thenB := |blocks|;
      var h := StartIf(s.ctx, n.cond, n.elseBranch.Some?);
      if h.Err? {
        return Err(h.error);
      }
      var b := ResolveBranches(s, thenB, n);
      if b.Err? {
        return Err(b.error);
      }
      var s2 := LeaveIf(s, thenB + 1);
      r := Ok(s2);
    }

    /** The new blocks of an `if`, its condition and the conditional branch (generator.go:119-126). */
    method StartIf(c: nat, cond: Node, hasElse: bool) returns (r: Result<()>)
      requires Valid() && c < |ctxs|
      modifies this
      ensures Reaches(r, IfHead(old(State()), c, cond, hasElse), State())
      decreases cond, 2
    {
      var cur := ctxs[c].block;
      var thenB := |blocks|;
      IfBlocksOf(blocks[cur].owner, hasElse);
      var v := ResolveExpr(c, cond);
      if v.Err? {
        return Err(v.error);
      }
      Terminate(cur, CondBr(v.value, thenB, if hasElse then thenB + 2 else thenB + 1));
      r := Ok(());
    }

    /** The block name and the blocks of an `if` (generator.go:119-123). */
    method IfBlocksOf(fn: nat, hasElse: bool)
      requires Valid() && fn < |funcs|
      modifies this
      ensures State() == IfBlocks(old(State()), fn, BlockLabel(old(blockIndex)), hasElse)
    {
      var tag := BlockName();
      var thenB := NewBlock(fn, tag + "-then");
      var leaveB := NewBlock(fn, tag + "-leave");
      if hasElse {
        var elseB := NewBlock(fn, tag + "-else");
      }
    }

    /** The two branches of an `if` and the then block's fall-through (generator.go:127-139). */
    method ResolveBranches(s: Scope, thenB: nat, n: Node) returns (r: Result<()>)
      requires Valid() && s.ctx < |ctxs| && n.If?
      requires thenB + (if n.elseBranch.Some? then 2 else 1) < |blocks|
      modifies this
      ensures Reaches(r, IfBranches(old(State()), s, thenB, n), State())
      decreases n, 0
    {
      var t := ResolveBranch(s, thenB, thenB + 1, n.thenBranch);
      if t.Err? {
        return Err(t.error);
      }
      if blocks[thenB].term.None? {
        Terminate(thenB, Br(Some(thenB + 1)));
      }
      if n.elseBranch.Some? {
        r := ResolveBranch(s, thenB + 2, thenB + 1, n.elseBranch.value);
      } else {
        r := Ok(());
      }
    }

    /** One branch of an `if`: a child context and scope on block `b`, then the branch. */
    method ResolveBranch(s: Scope, b: nat, leaveB: nat, branch: Node) returns (r: Result<()>)
      requires Valid() && s.ctx < |ctxs| && b < |blocks|
      modifies this
      ensures Reaches(r, LowerBranch(old(State()), s, b, leaveB, branch), State())
      decreases branch, 3
    {
      var c := AddChildContext(s.ctx, b);
      var p := ResolveStmt(Scope(c, Some(leaveB), s.forLeave), branch);
      if p.Err? {
        return Err(p.error);
      }
      r := Ok(());
    }

    /** The end of an `if` (generator.go:140-143). */
    method LeaveIf(s: Scope, leaveB: nat) returns (s2: Scope)
      requires Valid() && s.ctx < |ctxs| && leaveB < |blocks|
      modifies this
      ensures (s2, State()) == LeaveInto(old(State()), s, leaveB)
    {
      var c := AddCopyContext(s.ctx, leaveB);
      s2 := s.(ctx := c);
      if s.ifLeave.Some? {
        Terminate(leaveB, Br(s.ifLeave));
      }
    }

    /** The `for` case (generator.go:174-184). */
    method ResolveFor(s: Scope, n: Node) returns (r: Result<Scope>)
      requires Valid() && s.ctx < |ctxs| && n.For?
      modifies this
      ensures Agrees(r, LowerFor(old(State()), s, n), State())
      decreases n, 1
    {
      var loopB := |blocks|;
      StartFor(s.ctx);
      var body := ResolveLoopBody(s, loopB, loopB + 1, n.body);
      if body.Err? {
        return Err(body.error);
      }
      var c := AddCopyContext(s.ctx, loopB + 1);
      r := Ok(s.(ctx := c));
    }

    /** The blocks of a `for` and the branch into the loop (generator.go:175-178). */
    method StartFor(c: nat)
      requires Valid() && c < |ctxs|
      modifies this
      ensures State() == ForHead(old(State()), c)
    {
      var cur := ctxs[c].block;
      var fn := blocks[cur].owner;
      var tag := BlockName();
      var loopB := NewBlock(fn, tag + "-for");
      var leaveB := NewBlock(fn, tag + "-leave-for");
      Terminate(cur, Br(Some(loopB)));
    }

    /** The body of a `for` in its own context and scope, then the back edge (generator.go:179-183). */
    method ResolveLoopBody(s: Scope, loopB: nat, leaveB: nat, body: Node) returns (r: Result<()>)
      requires Valid() && s.ctx < |ctxs| && loopB < |blocks|
      modifies this
      ensures Reaches(r, LowerLoopBody(old(State()), s, loopB, leaveB, body), State())
      decreases body, 3
    {
      var c := AddChildContext(s.ctx, loopB);
      var p := ResolveStmt(Scope(c, None, Some(leaveB)), body);
      if p.Err? {
        return Err(p.error);
      }
      Terminate(ctxs[p.value.ctx].block, Br(Some(loopB)));
      r := Ok(());
    }

    /** The function-definition case (generator.go:144-162). */
    method ResolveFunction(s: Scope, n: Node) returns (r: Result<Scope>)
      requires Valid() && s.ctx < |ctxs| && n.Function?
      modifies this
      ensures Agrees(r, LowerFunction(old(State()), s, n), State())
      decreases n, 1
    {
      var entry := |blocks|;
      var fc := |ctxs|;
      StartFunction(s.ctx, n.name, n.params);
      var body := ResolveStmt(Scope(fc, None, None), n.body);
      if body.Err? {
        return Err(body.error);
      }
      if blocks[entry].term.None? {
        Terminate(entry, Ret(None));
      }
      r := Ok(s);
    }

    /** The function, its entry block, its context, its registration and its parameters (generator.go:145-158). */
    method StartFunction(c: nat, name: string, params: seq<string>)
      requires Valid() && c < |ctxs|
      modifies this
      ensures State() == FunctionHead(old(State()), c, name, params)
    {
      var fn := NewFunc(funcs[blocks[ctxs[c].block].owner].name + "_" + name, params);
      var entryName := BlockName();
      var entry := NewBlock(fn, entryName);
      var fc := AddFunctionContext(c, entry);
      Register(c, name, fn);
      BindParameters(fc, params, fn);
    }

    /** The parameter loop (generator.go:156-158). */
    method BindParameters(c: nat, params: seq<string>, fn: nat)
      requires WellFormed(State().env) && c < |ctxs|
      modifies this
      ensures State() == old(State()).(env := BindParams(old(State()).env, c, params, fn, 0))
    {
      var i := 0;
      while i < |params|
        invariant 0 <= i <= |params| && WellFormed(State().env) && c < |ctxs|
        invariant BindParams(old(State()).env, c, params, fn, 0) == BindParams(State().env, c, params, fn, i)
        invariant State() == old(State()).(env := State().env)
        decreases |params| - i
      {
        Bind(c, params[i], Param(fn, i));
        i := i + 1;
      }
    }
  }

  /** `GenerateIR` (generator.go:66-80), up to the textual form of the module. */
  method GenerateIR(program: seq<Node>) returns (r: Result<Module>)
    ensures r == Generate(program)
  {
    var g := new Generator();
    var res := g.ResolveStmts(Scope(0, None, None), program);
    if res.Err? {
      return Err(res.error);
    }
    r := Ok(Module(g.funcs, g.blocks));
  }
}
