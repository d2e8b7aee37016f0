/**
 * The scope machinery of generator.go: `BlockContext` records, their two
 * parent chains, and the `findVariable` / `findFunction` walks.
 *
 * A `BlockContext` is a heap record that other records point to, and
 * `copyContext` makes two records share one `vars` map and one `functions`
 * map. Both are modelled with arenas: a context is an index into `ctxs`,
 * and a context names its maps by index into `varTables` / `funcTables`,
 * so sharing a map is holding the same index. Parents are always created
 * before their children, so a parent index is smaller than its child's.
 */
module Scopes {
  import opened Common
  import opened Ir

  /** A `BlockContext`: its current block, its two parents, and its two maps. */
  datatype Context = Context(block: nat, varParent: Option<nat>, funcParent: Option<nat>, vars: nat, funcs: nat)

  /** Every context and every map the lowering has made; a function map yields a function index. */
  datatype Env = Env(ctxs: seq<Context>, varTables: seq<map<string, Value>>, funcTables: seq<map<string, nat>>)

  /** Every context names existing maps, and its parents were made before it. */
  predicate WellFormed(env: Env) {
    forall c :: 0 <= c < |env.ctxs| ==>
      env.ctxs[c].vars < |env.varTables| && env.ctxs[c].funcs < |env.funcTables|
      && (env.ctxs[c].varParent.Some? ==> env.ctxs[c].varParent.value < c)
      && (env.ctxs[c].funcParent.Some? ==> env.ctxs[c].funcParent.value < c)
  }

  /** Two contexts that differ at most in their current block: what `copyContext` produces. */
  predicate SharesTables(a: Context, b: Context) {
    a.vars == b.vars && a.funcs == b.funcs && a.varParent == b.varParent && a.funcParent == b.funcParent
  }

  function Vars(env: Env, c: nat): map<string, Value>
    requires WellFormed(env) && c < |env.ctxs|
  {
    env.varTables[env.ctxs[c].vars]
  }

  function Funcs(env: Env, c: nat): map<string, nat>
    requires WellFormed(env) && c < |env.ctxs|
  {
    env.funcTables[env.ctxs[c].funcs]
  }

  /** `findVariable` (generator.go:260-268). */
  function FindVariable(env: Env, c: nat, name: string): (r: Result<Value>)
    requires WellFormed(env) && c < |env.ctxs|
    ensures r.Err? ==> r.error == VariableNotFound(name)
    decreases c
  {
    if name in Vars(env, c) then Ok(Vars(env, c)[name])
    else match env.ctxs[c].varParent
      case Some(p) => FindVariable(env, p, name)
      case None => Err(VariableNotFound(name))
  }

  /** `findFunction` (generator.go:270-278). */
  function FindFunction(env: Env, c: nat, name: string): (r: Result<nat>)
    requires WellFormed(env) && c < |env.ctxs|
    ensures r.Err? ==> r.error == FunctionNotFound(name)
    decreases c
  {
    if name in Funcs(env, c) then Ok(Funcs(env, c)[name])
    else match env.ctxs[c].funcParent
      case Some(p) => FindFunction(env, p, name)
      case None => Err(FunctionNotFound(name))
  }

  /** The contexts `findVariable` visits from `c`, nearest first. */
  function VarChain(env: Env, c: nat): (chain: seq<nat>)
    requires WellFormed(env) && c < |env.ctxs|
    ensures |chain| >= 1 && chain[0] == c
    ensures forall k :: 0 <= k < |chain| ==> chain[k] <= c
    decreases c
  {
    match env.ctxs[c].varParent
    case None => [c]
    case Some(p) => [c] + VarChain(env, p)
  }

  /** The contexts `findFunction` visits from `c`, nearest first. */
  function FuncChain(env: Env, c: nat): (chain: seq<nat>)
    requires WellFormed(env) && c < |env.ctxs|
    ensures |chain| >= 1 && chain[0] == c
    ensures forall k :: 0 <= k < |chain| ==> chain[k] <= c
    decreases c
  {
    match env.ctxs[c].funcParent
    case None => [c]
    case Some(p) => [c] + FuncChain(env, p)
  }

  /** `newFunctionContext` (generator.go:38-42): fresh maps, only a function parent. */
  function NewFunctionContext(env: Env, parent: nat, block: nat): (env2: Env)
    requires WellFormed(env) && parent < |env.ctxs|
    ensures WellFormed(env2) && env.ctxs <= env2.ctxs && |env2.ctxs| == |env.ctxs| + 1
  {
    Env(env.ctxs + [Context(block, None, Some(parent), |env.varTables|, |env.funcTables|)],
        env.varTables + [map[]], env.funcTables + [map[]])
  }

  /** `newChildContext` (generator.go:44-49): fresh maps, both parents the enclosing context. */
  function NewChildContext(env: Env, parent: nat, block: nat): (env2: Env)
    requires WellFormed(env) && parent < |env.ctxs|
    ensures WellFormed(env2) && env.ctxs <= env2.ctxs && |env2.ctxs| == |env.ctxs| + 1
  {
    Env(env.ctxs + [Context(block, Some(parent), Some(parent), |env.varTables|, |env.funcTables|)],
        env.varTables + [map[]], env.funcTables + [map[]])
  }

  /** `copyContext` (generator.go:51-56): the same maps and parents, another block. */
  function CopyContext(env: Env, c: nat, block: nat): (env2: Env)
    requires WellFormed(env) && c < |env.ctxs|
    ensures WellFormed(env2) && env.ctxs <= env2.ctxs && |env2.ctxs| == |env.ctxs| + 1
    ensures SharesTables(env2.ctxs[|env.ctxs|], env.ctxs[c])
  {
    var x := env.ctxs[c];
    env.(ctxs := env.ctxs + [Context(block, x.varParent, x.funcParent, x.vars, x.funcs)])
  }

  /** `ctx.vars[name] = v`. */
  function BindVariable(env: Env, c: nat, name: string, v: Value): (env2: Env)
    requires WellFormed(env) && c < |env.ctxs|
    ensures WellFormed(env2) && env2.ctxs == env.ctxs
  {
    var t := env.ctxs[c].vars;
    env.(varTables := env.varTables[t := env.varTables[t][name := v]])
  }

  /** `ctx.functions[name] = &FunctionContext{target: fn}`. */
  function RegisterFunction(env: Env, c: nat, name: string, fn: nat): (env2: Env)
    requires WellFormed(env) && c < |env.ctxs|
    ensures WellFormed(env2) && env2.ctxs == env.ctxs
  {
    var t := env.ctxs[c].funcs;
    var m: map<string, nat> := env.funcTables[t][name := fn];
    env.(funcTables := env.funcTables[t := m])
  }

  // ---------------------------------------------------------------------
  // Lookup properties

  /** No context of `chain` binds `x` as a variable. */
  predicate VarUnbound(env: Env, chain: seq<nat>, x: string)
    requires WellFormed(env) && forall k :: 0 <= k < |chain| ==> chain[k] < |env.ctxs|
  {
    forall k :: 0 <= k < |chain| ==> x !in Vars(env, chain[k])
  }

  /** No context of `chain` registers `f` as a function. */
  predicate FuncUnbound(env: Env, chain: seq<nat>, f: string)
    requires WellFormed(env) && forall k :: 0 <= k < |chain| ==> chain[k] < |env.ctxs|
  {
    forall k :: 0 <= k < |chain| ==> f !in Funcs(env, chain[k])
  }

  /**
   * `findVariable` fails exactly when no context on the variable-parent
   * chain binds the name, and then it reports that name.
   */
  lemma {:induction false} FindVariableFails(env: Env, c: nat, x: string)
    requires WellFormed(env) && c < |env.ctxs|
    ensures FindVariable(env, c, x).Err? <==> VarUnbound(env, VarChain(env, c), x)
    ensures FindVariable(env, c, x).Err? ==> FindVariable(env, c, x) == Err(VariableNotFound(x))
    decreases c
  {
    var ch := VarChain(env, c);
    if x in Vars(env, c) {
      assert !VarUnbound(env, ch, x) by {
        assert x in Vars(env, ch[0]);
      }
    } else {
      match env.ctxs[c].varParent
      case None =>
        assert ch == [c];
      case Some(p) =>
        FindVariableFails(env, p, x);
        var tail := VarChain(env, p);
        assert ch == [c] + tail;
        assert VarUnbound(env, ch, x) <==> VarUnbound(env, tail, x) by {
          if VarUnbound(env, tail, x) {
            forall k | 0 <= k < |ch| ensures x !in Vars(env, ch[k]) {
              if k > 0 {
                assert ch[k] == tail[k - 1];
              }
            }
          }
          if VarUnbound(env, ch, x) {
            forall k | 0 <= k < |tail| ensures x !in Vars(env, tail[k]) {
              assert ch[k + 1] == tail[k];
            }
          }
        }
    }
  }

  /**
   * When the `k`-th context of the chain is the nearest one binding the
   * name, `findVariable` returns that context's binding.
   */
  lemma {:induction false} FindVariableNearest(env: Env, c: nat, x: string, k: nat)
    requires WellFormed(env) && c < |env.ctxs|
    requires k < |VarChain(env, c)| && x in Vars(env, VarChain(env, c)[k])
    requires forall j :: 0 <= j < k ==> x !in Vars(env, VarChain(env, c)[j])
    ensures FindVariable(env, c, x) == Ok(Vars(env, VarChain(env, c)[k])[x])
    decreases c
  {
    var ch := VarChain(env, c);
    if k == 0 {
      assert ch[0] == c && x in Vars(env, c);
    } else {
      assert x !in Vars(env, ch[0]);
      match env.ctxs[c].varParent
      case None =>
        assert false;
      case Some(p) =>
        var tail := VarChain(env, p);
        assert ch == [c] + tail;
        forall j | 0 <= j < k - 1 ensures x !in Vars(env, tail[j]) {
          assert tail[j] == ch[j + 1];
        }
        assert tail[k - 1] == ch[k];
        FindVariableNearest(env, p, x, k - 1);
    }
  }

  /** `findFunction` fails exactly when no context on the function-parent chain registers the name. */
  lemma {:induction false} FindFunctionFails(env: Env, c: nat, f: string)
    requires WellFormed(env) && c < |env.ctxs|
    ensures FindFunction(env, c, f).Err? <==> FuncUnbound(env, FuncChain(env, c), f)
    ensures FindFunction(env, c, f).Err? ==> FindFunction(env, c, f) == Err(FunctionNotFound(f))
    decreases c
  {
    var ch := FuncChain(env, c);
    if f in Funcs(env, c) {
      assert !FuncUnbound(env, ch, f) by {
        assert f in Funcs(env, ch[0]);
      }
    } else {
      match env.ctxs[c].funcParent
      case None =>
        assert ch == [c];
      case Some(p) =>
        FindFunctionFails(env, p, f);
        var tail := FuncChain(env, p);
        assert ch == [c] + tail;
        assert FuncUnbound(env, ch, f) <==> FuncUnbound(env, tail, f) by {
          if FuncUnbound(env, tail, f) {
            forall k | 0 <= k < |ch| ensures f !in Funcs(env, ch[k]) {
              if k > 0 {
                assert ch[k] == tail[k - 1];
              }
            }
          }
          if FuncUnbound(env, ch, f) {
            forall k | 0 <= k < |tail| ensures f !in Funcs(env, tail[k]) {
              assert ch[k + 1] == tail[k];
            }
          }
        }
    }
  }

  /** `findFunction` returns the registration of the nearest context on the function-parent chain. */
  lemma {:induction false} FindFunctionNearest(env: Env, c: nat, f: string, k: nat)
    requires WellFormed(env) && c < |env.ctxs|
    requires k < |FuncChain(env, c)| && f in Funcs(env, FuncChain(env, c)[k])
    requires forall j :: 0 <= j < k ==> f !in Funcs(env, FuncChain(env, c)[j])
    ensures FindFunction(env, c, f) == Ok(Funcs(env, FuncChain(env, c)[k])[f])
    decreases c
  {
    var ch := FuncChain(env, c);
    if k == 0 {
      assert ch[0] == c && f in Funcs(env, c);
    } else {
      assert f !in Funcs(env, ch[0]);
      match env.ctxs[c].funcParent
      case None =>
        assert false;
      case Some(p) =>
        var tail := FuncChain(env, p);
        assert ch == [c] + tail;
        forall j | 0 <= j < k - 1 ensures f !in Funcs(env, tail[j]) {
          assert tail[j] == ch[j + 1];
        }
        assert tail[k - 1] == ch[k];
        FindFunctionNearest(env, p, f, k - 1);
    }
  }

  /** Environments that only added contexts and maps, and changed no old map. */
  predicate Grown(env: Env, env2: Env) {
    env.ctxs <= env2.ctxs
    && |env.varTables| <= |env2.varTables| && |env.funcTables| <= |env2.funcTables|
    && (forall t :: 0 <= t < |env.varTables| ==> env2.varTables[t] == env.varTables[t])
    && (forall t :: 0 <= t < |env.funcTables| ==> env2.funcTables[t] == env.funcTables[t])
  }

  /** Binding `x` changes no lookup of another name, from any context. */
  lemma {:induction false} BindingLeavesOtherNames(env: Env, c: nat, x: string, v: Value, d: nat, y: string)
    requires WellFormed(env) && c < |env.ctxs| && d < |env.ctxs| && y != x
    ensures FindVariable(BindVariable(env, c, x, v), d, y) == FindVariable(env, d, y)
    decreases d
  {
    var env2 := BindVariable(env, c, x, v);
    assert y in Vars(env2, d) <==> y in Vars(env, d);
    if y !in Vars(env, d) && env.ctxs[d].varParent.Some? {
      BindingLeavesOtherNames(env, c, x, v, env.ctxs[d].varParent.value, y);
    }
  }

  /** Lookups from an old context do not change while the environment only grows. */
  lemma {:induction false} LookupsSurviveGrowth(env: Env, env2: Env, c: nat, x: string)
    requires WellFormed(env) && WellFormed(env2) && Grown(env, env2) && c < |env.ctxs|
    ensures FindVariable(env2, c, x) == FindVariable(env, c, x)
    ensures FindFunction(env2, c, x) == FindFunction(env, c, x)
    decreases c
  {
    assert env2.ctxs[c] == env.ctxs[c];
    match env.ctxs[c].varParent {
      case None =>
      case Some(p) => LookupsSurviveGrowth(env, env2, p, x);
    }
    match env.ctxs[c].funcParent {
      case None =>
      case Some(p) => LookupsSurviveGrowth(env, env2, p, x);
    }
  }

  /** Two contexts sharing their maps and parents resolve every name alike. */
  lemma SharedTablesResolveAlike(env: Env, c: nat, d: nat, x: string)
    requires WellFormed(env) && c < |env.ctxs| && d < |env.ctxs|
    requires SharesTables(env.ctxs[c], env.ctxs[d])
    ensures FindVariable(env, c, x) == FindVariable(env, d, x)
    ensures FindFunction(env, c, x) == FindFunction(env, d, x)
  {
  }

  /**
   * A function context cannot see any enclosing variable, but resolves
   * every function its creator resolves.
   */
  lemma FunctionContextIsolation(env: Env, parent: nat, block: nat, x: string)
    requires WellFormed(env) && parent < |env.ctxs|
    ensures var env2 := NewFunctionContext(env, parent, block);
      FindVariable(env2, |env.ctxs|, x) == Err(VariableNotFound(x))
      && FindFunction(env2, |env.ctxs|, x) == FindFunction(env, parent, x)
  {
    var env2 := NewFunctionContext(env, parent, block);
    LookupsSurviveGrowth(env, env2, parent, x);
  }

  /**
   * A fresh child context resolves everything through its parent; a
   * binding made in the child shadows the parent's without changing what
   * the parent resolves.
   */
  lemma ChildBindingShadows(env: Env, parent: nat, block: nat, x: string, v: Value, y: string)
    requires WellFormed(env) && parent < |env.ctxs|
    ensures var env2 := NewChildContext(env, parent, block);
      FindVariable(env2, |env.ctxs|, y) == FindVariable(env, parent, y)
      && FindFunction(env2, |env.ctxs|, y) == FindFunction(env, parent, y)
    ensures var env3 := BindVariable(NewChildContext(env, parent, block), |env.ctxs|, x, v);
      FindVariable(env3, |env.ctxs|, y) == (if y == x then Ok(v) else FindVariable(env, parent, y))
      && FindVariable(env3, parent, y) == FindVariable(env, parent, y)
  {
    var env2 := NewChildContext(env, parent, block);
    var env3 := BindVariable(env2, |env.ctxs|, x, v);
    LookupsSurviveGrowth(env, env2, parent, y);
    LookupsSurviveGrowth(env, env3, parent, y);
  }

  /**
   * A copied context resolves what the original does, and a binding made
   * through the copy is seen through the original: the maps are shared.
   */
  lemma CopySharesBindings(env: Env, c: nat, block: nat, x: string, v: Value, y: string)
    requires WellFormed(env) && c < |env.ctxs|
    ensures var env2 := CopyContext(env, c, block);
      FindVariable(env2, |env.ctxs|, y) == FindVariable(env, c, y)
    ensures var env3 := BindVariable(CopyContext(env, c, block), |env.ctxs|, x, v);
      FindVariable(env3, c, x) == Ok(v) && FindVariable(env3, c, y) == FindVariable(env3, |env.ctxs|, y)
  {
    var env2 := CopyContext(env, c, block);
    LookupsSurviveGrowth(env, env2, c, y);
    var env3 := BindVariable(env2, |env.ctxs|, x, v);
    SharedTablesResolveAlike(env3, c, |env.ctxs|, y);
  }
}
