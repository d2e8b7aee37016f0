/**
 * What the function-definition case of `resolveStmt` guarantees: the new
 * function's name and parameters, its entry block, what its body can see
 * (its parameters, and every function visible where it is defined,
 * itself included), and the implicit `ret void` of a body that falls off
 * its end.
 */
module FunctionProperties {
  import opened Common
  import opened Decimal
  import opened Ast
  import opened Ir
  import opened Scopes
  import opened Lowering
  import opened LoweringFrames
  import opened LoweringProperties

  /** The last position of `x` in `ps`: the parameter a repeated name ends up bound to. */
  function LastIndex(ps: seq<string>, x: string): (i: nat)
    requires x in ps
    ensures i < |ps| && ps[i] == x && forall j :: i < j < |ps| ==> ps[j] != x
  {
    if ps[|ps| - 1] == x then |ps| - 1 else LastIndex(ps[..|ps| - 1], x)
  }

  /**
   * Binding `ps[i..]` in context `c`: each of those names maps to its last
   * position, and every other name keeps what it had.
   */
  lemma {:induction false} BindParamsVars(env: Env, c: nat, ps: seq<string>, fn: nat, i: nat, x: string)
    requires WellFormed(env) && c < |env.ctxs| && i <= |ps|
    ensures var m, m2 := Vars(env, c), Vars(BindParams(env, c, ps, fn, i), c);
      && (x in m2 <==> x in m || x in ps[i..])
      && (x in ps[i..] ==> m2[x] == Param(fn, LastIndex(ps, x)))
      && (x !in ps[i..] && x in m ==> m2[x] == m[x])
    decreases |ps| - i
  {
    if i < |ps| {
      var env1 := BindVariable(env, c, ps[i], Param(fn, i));
      BindParamsVars(env1, c, ps, fn, i + 1, x);
      assert ps[i..] == [ps[i]] + ps[i + 1..];
    }
  }

  /**
   * The start of the function case: function `|st.funcs|`, named after the
   * enclosing function, with the given parameters and one entry block,
   * named by `blockName` and empty; a function context on that block whose
   * only parent is the scope's context, with maps of its own; and the name
   * registered in the scope's function map.
   */
  lemma FunctionHeadShape(st: GenState, c: nat, name: string, params: seq<string>)
    requires Valid(st) && c < |st.env.ctxs|
    ensures
      var h, fn, entry := FunctionHead(st, c, name, params), |st.funcs|, |st.blocks|;
      && |h.funcs| == fn + 1
      && h.funcs[fn] == Func(st.funcs[Owner(st, c)].name + "_" + name, params, [entry])
      && h.blocks[entry] == BasicBlock(BlockLabel(st.blockIndex), fn, [], None)
      && h.blockIndex == st.blockIndex + 1
      && h.env.ctxs[|st.env.ctxs|] == Context(entry, None, Some(c), |st.env.varTables|, |st.env.funcTables|)
      && Funcs(h.env, c) == Funcs(st.env, c)[name := fn]
  {
  }

  /**
   * Inside the new function, a variable is one of its parameters (bound to
   * its last position) or nothing: enclosing variables are out of reach.
   * Functions resolve as they do in the defining scope, where the new
   * function is already registered, so the body can call itself.
   */
  lemma FunctionScope(st: GenState, c: nat, name: string, params: seq<string>, x: string)
    requires Valid(st) && c < |st.env.ctxs|
    ensures
      var h, fc, fn := FunctionHead(st, c, name, params), |st.env.ctxs|, |st.funcs|;
      && FindVariable(h.env, fc, x) == (if x in params then Ok(Param(fn, LastIndex(params, x))) else Err(VariableNotFound(x)))
      && FindFunction(h.env, fc, x) == FindFunction(h.env, c, x)
      && FindFunction(h.env, fc, name) == Ok(fn)
  {
    var fn := |st.funcs|;
    var st1 := AddFunc(st, st.funcs[Owner(st, c)].name + "_" + name, params);
    var st2 := AddBlock(NextLabel(st1), fn, BlockLabel(st1.blockIndex));
    var env3 := NewFunctionContext(st2.env, c, |st.blocks|);
    var env4 := RegisterFunction(env3, c, name, fn);
    var fc := |st.env.ctxs|;
    assert Vars(env4, fc) == map[];
    BindParamsVars(env4, fc, params, fn, 0, x);
    assert params[0..] == params;
    FunctionHeadShape(st, c, name, params);
  }

  /**
   * A variable bound to a parameter is read directly (generator.go:229-235):
   * the read is the parameter itself, with no `load` emitted and the state
   * unchanged. Only a slot bound by `var` is loaded.
   */
  lemma ParamReadIsDirect(st: GenState, c: nat, x: string, f: nat, i: nat)
    requires Valid(st) && c < |st.env.ctxs| && FindVariable(st.env, c, x) == Ok(Param(f, i))
    ensures LowerExpr(st, c, LVar(x)) == Ok((Param(f, i), st))
  {
  }

  /**
   * In a new function's body, reading a parameter name yields the
   * function's parameter at the name's last position and emits nothing;
   * reading any other name fails, however the enclosing code declared it.
   */
  lemma ParamReadInBody(st: GenState, c: nat, name: string, params: seq<string>, x: string)
    requires Valid(st) && c < |st.env.ctxs|
    ensures
      var h := FunctionHead(st, c, name, params);
      LowerExpr(h, |st.env.ctxs|, LVar(x)) ==
        if x in params then Ok((Param(|st.funcs|, LastIndex(params, x)), h)) else Err(VariableNotFound(x))
  {
    FunctionScope(st, c, name, params, x);
    if x in params {
      ParamReadIsDirect(FunctionHead(st, c, name, params), |st.env.ctxs|, x, |st.funcs|, LastIndex(params, x));
    }
  }

  lemma FunctionOkSteps(st: GenState, s: Scope, n: Node)
    requires Valid(st) && s.ctx < |st.env.ctxs| && n.Function? && LowerFunction(st, s, n).Ok?
    ensures LowerStmt(FunctionHead(st, s.ctx, n.name, n.params), Scope(|st.env.ctxs|, None, None), n.body).Ok?
  {
  }

  /** `LowerFunction` as its steps: the head, the body in the function's own scope, the implicit return. */
  lemma FunctionResult(st: GenState, s: Scope, n: Node, s3: Scope, st3: GenState)
    requires Valid(st) && s.ctx < |st.env.ctxs| && n.Function?
    requires LowerStmt(FunctionHead(st, s.ctx, n.name, n.params), Scope(|st.env.ctxs|, None, None), n.body) == Ok((s3, st3))
    requires Valid(st3) && |st.blocks| < |st3.blocks|
    ensures LowerFunction(st, s, n) ==
      Ok((s, if st3.blocks[|st.blocks|].term.None? then SetTerm(st3, |st.blocks|, Ret(None)) else st3))
  {
  }

  lemma FunctionDefinitionSteps(st: GenState, s: Scope, n: Node, s3: Scope, st3: GenState)
    requires Valid(st) && s.ctx < |st.env.ctxs| && n.Function?
    requires LowerStmt(FunctionHead(st, s.ctx, n.name, n.params), Scope(|st.env.ctxs|, None, None), n.body) == Ok((s3, st3))
    requires Valid(st3) && |st.blocks| < |st3.blocks|
    ensures
      var st4 := if st3.blocks[|st.blocks|].term.None? then SetTerm(st3, |st.blocks|, Ret(None)) else st3;
      var fn, entry := |st.funcs|, |st.blocks|;
      && fn < |st4.funcs|
      && st4.funcs[fn].name == st.funcs[Owner(st, s.ctx)].name + "_" + n.name && st4.funcs[fn].params == n.params
      && st4.blocks[entry].name == BlockLabel(st.blockIndex) && st4.blocks[entry].owner == fn
      && st4.blocks[entry].term.Some?
      && st4.blocks[Cur(st, s.ctx)] == st.blocks[Cur(st, s.ctx)]
      && s.ctx < |st4.env.ctxs| && FindFunction(st4.env, s.ctx, n.name) == Ok(fn)
      && (Straight(n.body) ==> st4.blocks[entry].term == Some(Ret(None)))
      && (n.body == Break ==> st4.blocks[entry].term == Some(Br(None)))
  {
    var fn, entry, fc := |st.funcs|, |st.blocks|, |st.env.ctxs|;
    var h := FunctionHead(st, s.ctx, n.name, n.params);
    var fs := Scope(fc, None, None);
    FunctionHeadShape(st, s.ctx, n.name, n.params);
    FunctionHeadFrame(st, s.ctx, n.name, n.params);
    FrameKeepsBlock(st, h, {}, |st.env.varTables|, st.env.ctxs[s.ctx].funcs, Cur(st, s.ctx));
    LowerStmtLowered(h, fs, n.body);
    var x := h.env.ctxs[fc];
    FrameKeepsFunc(h, st3, {x.block}, x.vars, x.funcs, fn);
    FrameKeepsBlock(h, st3, {x.block}, x.vars, x.funcs, entry);
    FrameKeepsBlock(h, st3, {x.block}, x.vars, x.funcs, Cur(st, s.ctx));
    FrameKeepsContext(h, st3, {x.block}, x.vars, x.funcs, s.ctx);
    assert h.env.ctxs[s.ctx] == st.env.ctxs[s.ctx];
    assert Funcs(st3.env, s.ctx) == Funcs(h.env, s.ctx);
    if Straight(n.body) {
      StraightKeepsGraph(h, fs, n.body);
    }
    if n.body == Break {
      StmtCases(h, fs, n.body);
    }
  }

  /**
   * A function definition leaves the scope as it was and the current
   * block untouched; it adds the function, named after the enclosing
   * function, whose entry block always ends up terminated: a body that
   * sets no terminator there gets `ret void`, and a body that is just
   * `break` keeps its branch to no block. From then on the name resolves
   * to the new function in the defining scope.
   */
  lemma FunctionDefinition(st: GenState, s: Scope, n: Node)
    requires Valid(st) && s.ctx < |st.env.ctxs| && n.Function? && LowerFunction(st, s, n).Ok?
    ensures
      var (s2, st4) := LowerFunction(st, s, n).value;
      var fn, entry := |st.funcs|, |st.blocks|;
      && s2 == s && fn < |st4.funcs| && entry < |st4.blocks|
      && st4.funcs[fn].name == st.funcs[Owner(st, s.ctx)].name + "_" + n.name && st4.funcs[fn].params == n.params
      && st4.blocks[entry].name == BlockLabel(st.blockIndex) && st4.blocks[entry].owner == fn
      && st4.blocks[entry].term.Some?
      && st4.blocks[Cur(st, s.ctx)] == st.blocks[Cur(st, s.ctx)]
      && FindFunction(st4.env, s.ctx, n.name) == Ok(fn)
      && (Straight(n.body) ==> st4.blocks[entry].term == Some(Ret(None)))
      && (n.body == Break ==> st4.blocks[entry].term == Some(Br(None)))
  {
    FunctionOkSteps(st, s, n);
    var p := LowerStmt(FunctionHead(st, s.ctx, n.name, n.params), Scope(|st.env.ctxs|, None, None), n.body).value;
    FunctionResult(st, s, n, p.0, p.1);
    FunctionDefinitionSteps(st, s, n, p.0, p.1);
  }
}
