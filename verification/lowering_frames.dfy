/**
 * What each lowering step of generator.go may change and what it leaves
 * alone. These frame facts are what the wiring properties in
 * lowering_props.dfy stand on: an expression only appends to its
 * context's block; a statement changes, of everything that existed
 * before it, only the current block and the two maps of its scope's
 * context.
 */
module LoweringFrames {
  import opened Common
  import opened Ast
  import opened Ir
  import opened Scopes
  import opened Lowering

  /**
   * All that lowering an expression in context `c` may change: it appends
   * instructions to `c`'s block and numbers new values. The contexts, the
   * maps, the functions, the other blocks and every terminator stay.
   */
  predicate ExprFrame(st: GenState, c: nat, st2: GenState)
    requires Valid(st) && c < |st.env.ctxs|
  {
    var b := Cur(st, c);
    st2.env == st.env && st2.funcs == st.funcs && st2.blockIndex == st.blockIndex
    && st.nextValue <= st2.nextValue && |st2.blocks| == |st.blocks|
    && (forall d :: 0 <= d < |st.blocks| && d != b ==> st2.blocks[d] == st.blocks[d])
    && st2.blocks[b].name == st.blocks[b].name && st2.blocks[b].owner == st.blocks[b].owner
    && st2.blocks[b].term == st.blocks[b].term
    && st.blocks[b].insts <= st2.blocks[b].insts
  }

  lemma ExprFrameTrans(st1: GenState, st2: GenState, st3: GenState, c: nat)
    requires Valid(st1) && Valid(st2) && c < |st1.env.ctxs|
    requires ExprFrame(st1, c, st2) && ExprFrame(st2, c, st3)
    ensures ExprFrame(st1, c, st3)
  {
    var b := Cur(st1, c);
    assert Cur(st2, c) == b;
    var i1, i2, i3 := st1.blocks[b].insts, st2.blocks[b].insts, st3.blocks[b].insts;
    assert i1 <= i3 by {
      assert i1 == i2[..|i1|] && i2 == i3[..|i2|];
      assert i3[..|i1|] == i2[..|i1|];
    }
  }

  /** Defining a new value with an instruction appended to `c`'s block. */
  lemma DefineFrame(st: GenState, c: nat, inst: Inst)
    requires Valid(st) && c < |st.env.ctxs|
    ensures ExprFrame(st, c, Emit(Fresh(st), Cur(st, c), inst))
    ensures Emit(Fresh(st), Cur(st, c), inst).blocks[Cur(st, c)].insts == st.blocks[Cur(st, c)].insts + [inst]
  {
  }

  /** Appending an instruction that defines no value (the `store`). */
  lemma StoreFrame(st: GenState, c: nat, inst: Inst)
    requires Valid(st) && c < |st.env.ctxs|
    ensures ExprFrame(st, c, Emit(st, Cur(st, c), inst))
    ensures Emit(st, Cur(st, c), inst).blocks[Cur(st, c)].insts == st.blocks[Cur(st, c)].insts + [inst]
  {
  }

  lemma {:induction false} LowerExprFrame(st: GenState, c: nat, e: Node)
    requires Valid(st) && c < |st.env.ctxs|
    ensures LowerExpr(st, c, e).Ok? ==> ExprFrame(st, c, LowerExpr(st, c, e).value.1)
    decreases e, 1
  {
    match e
    case Sum(_, _) => LowerBinaryFrame(st, c, e);
    case Sub(_, _) => LowerBinaryFrame(st, c, e);
    case Mul(_, _) => LowerBinaryFrame(st, c, e);
    case Div(_, _) => LowerBinaryFrame(st, c, e);
    case Equal(_, _) => LowerBinaryFrame(st, c, e);
    case NotEqual(_, _) => LowerBinaryFrame(st, c, e);
    case LT(_, _) => LowerBinaryFrame(st, c, e);
    case LE(_, _) => LowerBinaryFrame(st, c, e);
    case LVar(x) =>
      var v := FindVariable(st.env, c, x);
      if v.Ok? && v.value.IsSlot() {
        DefineFrame(st, c, Load(st.nextValue, v.value));
      }
    case FunctionCall(f, args) => LowerCallFrame(st, c, f, args);
    case Num(_) =>
    case Return(_) =>
    case Alloc(_, _) =>
    case Assign(_, _) =>
    case If(_, _, _) =>
    case Block(_) =>
    case For(_) =>
    case Break =>
    case Function(_, _, _) =>
  }

  lemma {:induction false} LowerBinaryFrame(st: GenState, c: nat, e: Node)
    requires Valid(st) && c < |st.env.ctxs| && e.IsBinary()
    ensures LowerBinary(st, c, e).Ok? ==> ExprFrame(st, c, LowerBinary(st, c, e).value.1)
    decreases e, 0
  {
    var l := LowerExpr(st, c, e.lhs);
    LowerExprFrame(st, c, e.lhs);
    if l.Ok? {
      var r := LowerExpr(l.value.1, c, e.rhs);
      LowerExprFrame(l.value.1, c, e.rhs);
      if r.Ok? {
        var st2 := r.value.1;
        DefineFrame(st2, c, BinaryInst(e, st2.nextValue, l.value.0, r.value.0));
        ExprFrameTrans(st, l.value.1, st2, c);
        ExprFrameTrans(st, st2, EmitBinary(st2, c, e, l.value.0, r.value.0).1, c);
      }
    }
  }

  lemma {:induction false} LowerCallFrame(st: GenState, c: nat, f: string, args: seq<Node>)
    requires Valid(st) && c < |st.env.ctxs|
    ensures LowerCall(st, c, f, args).Ok? ==> ExprFrame(st, c, LowerCall(st, c, f, args).value.1)
    decreases args, 1
  {
    var a := LowerArgs(st, c, args);
    LowerArgsFrame(st, c, args);
    if a.Ok? && FindFunction(a.value.1.env, c, f).Ok? {
      var st2 := a.value.1;
      DefineFrame(st2, c, Call(st2.nextValue, FindFunction(st2.env, c, f).value, a.value.0));
      ExprFrameTrans(st, st2, LowerCall(st, c, f, args).value.1, c);
    }
  }

  lemma {:induction false} LowerArgsFrame(st: GenState, c: nat, args: seq<Node>)
    requires Valid(st) && c < |st.env.ctxs|
    ensures LowerArgs(st, c, args).Ok? ==> ExprFrame(st, c, LowerArgs(st, c, args).value.1)
    decreases args, 0
  {
    if args != [] {
      var a := LowerArgs(st, c, args[..|args| - 1]);
      LowerArgsFrame(st, c, args[..|args| - 1]);
      if a.Ok? {
        LowerExprFrame(a.value.1, c, args[|args| - 1]);
        var v := LowerExpr(a.value.1, c, args[|args| - 1]);
        if v.Ok? {
          ExprFrameTrans(st, a.value.1, v.value.1, c);
        }
      }
    }
  }

  // ---------------------------------------------------------------------
  // Statements

  /**
   * The state only grew from `st` to `st2`: every old block and function
   * keeps its name and owner (parameters), only the old blocks in `bs`
   * may differ otherwise, and of the old maps only variable map `vt` and
   * function map `ft`. An index past the old arena names nothing old, so
   * it allows no change.
   */
  predicate Frame(st: GenState, st2: GenState, bs: set<nat>, vt: nat, ft: nat)
    requires Valid(st)
  {
    Valid(st2)
    && |st.funcs| <= |st2.funcs| && |st.blocks| <= |st2.blocks| && st.env.ctxs <= st2.env.ctxs
    && |st.env.varTables| <= |st2.env.varTables| && |st.env.funcTables| <= |st2.env.funcTables|
    && st.blockIndex <= st2.blockIndex && st.nextValue <= st2.nextValue
    && (forall k :: 0 <= k < |st.funcs| ==> st2.funcs[k].name == st.funcs[k].name && st2.funcs[k].params == st.funcs[k].params)
    && (forall b :: 0 <= b < |st.blocks| ==> st2.blocks[b].name == st.blocks[b].name && st2.blocks[b].owner == st.blocks[b].owner)
    && (forall b :: 0 <= b < |st.blocks| && b !in bs ==> st2.blocks[b] == st.blocks[b])
    && (forall t :: 0 <= t < |st.env.varTables| && t != vt ==> st2.env.varTables[t] == st.env.varTables[t])
    && (forall t :: 0 <= t < |st.env.funcTables| && t != ft ==> st2.env.funcTables[t] == st.env.funcTables[t])
  }

  /** One old block under a frame: its name and owner stay, and all of it stays unless exempted. */
  lemma FrameKeepsBlock(st: GenState, st2: GenState, bs: set<nat>, vt: nat, ft: nat, k: nat)
    requires Valid(st) && Frame(st, st2, bs, vt, ft) && k < |st.blocks|
    ensures k < |st2.blocks| && st2.blocks[k].name == st.blocks[k].name && st2.blocks[k].owner == st.blocks[k].owner
    ensures k !in bs ==> st2.blocks[k] == st.blocks[k]
  {
  }

  /** One old function under a frame keeps its name and parameters. */
  lemma FrameKeepsFunc(st: GenState, st2: GenState, bs: set<nat>, vt: nat, ft: nat, k: nat)
    requires Valid(st) && Frame(st, st2, bs, vt, ft) && k < |st.funcs|
    ensures k < |st2.funcs| && st2.funcs[k].name == st.funcs[k].name && st2.funcs[k].params == st.funcs[k].params
  {
  }

  /** One old context under a frame, and its maps unless exempted. */
  lemma FrameKeepsContext(st: GenState, st2: GenState, bs: set<nat>, vt: nat, ft: nat, c: nat)
    requires Valid(st) && Frame(st, st2, bs, vt, ft) && c < |st.env.ctxs|
    ensures c < |st2.env.ctxs| && st2.env.ctxs[c] == st.env.ctxs[c]
    ensures st.env.ctxs[c].vars != vt ==> Vars(st2.env, c) == Vars(st.env, c)
    ensures st.env.ctxs[c].funcs != ft ==> Funcs(st2.env, c) == Funcs(st.env, c)
  {
  }

  /** A frame that exempts no old map only grows the contexts and maps. */
  lemma FrameGrows(st: GenState, st2: GenState, bs: set<nat>)
    requires Valid(st) && Frame(st, st2, bs, |st.env.varTables|, |st.env.funcTables|)
    ensures Grown(st.env, st2.env)
  {
  }

  /**
   * All that lowering a statement in scope `s` may change, leaving scope
   * `s2`: of the old state only the current block and the scope's maps;
   * the leave blocks in force stay; the new context shares the old one's
   * maps and parents, and appends either to the old block or to a new
   * block of the same function.
   */
  predicate Lowered(st: GenState, s: Scope, st2: GenState, s2: Scope)
    requires Valid(st) && s.ctx < |st.env.ctxs|
  {
    var x := st.env.ctxs[s.ctx];
    Frame(st, st2, {x.block}, x.vars, x.funcs)
    && s2.ctx < |st2.env.ctxs|
    && s2.ifLeave == s.ifLeave && s2.forLeave == s.forLeave
    && SharesTables(st2.env.ctxs[s2.ctx], x)
    && (Cur(st2, s2.ctx) == x.block || Cur(st2, s2.ctx) >= |st.blocks|)
    && st2.blocks[Cur(st2, s2.ctx)].owner == st.blocks[x.block].owner
  }

  /** Two frames in a row make one, exempting what either exempts (of what existed at the start). */
  lemma FrameTrans(st1: GenState, st2: GenState, st3: GenState,
                   bs1: set<nat>, vt1: nat, ft1: nat, bs2: set<nat>, vt2: nat, ft2: nat,
                   bs: set<nat>, vt: nat, ft: nat)
    requires Valid(st1) && Valid(st2)
    requires Frame(st1, st2, bs1, vt1, ft1) && Frame(st2, st3, bs2, vt2, ft2)
    requires forall b :: b in bs1 + bs2 && b < |st1.blocks| ==> b in bs
    requires vt1 == vt || vt1 >= |st1.env.varTables|
    requires vt2 == vt || vt2 >= |st1.env.varTables|
    requires ft1 == ft || ft1 >= |st1.env.funcTables|
    requires ft2 == ft || ft2 >= |st1.env.funcTables|
    ensures Frame(st1, st3, bs, vt, ft)
  {
  }

  lemma ExprToFrame(st: GenState, c: nat, st2: GenState)
    requires Valid(st) && Valid(st2) && c < |st.env.ctxs| && ExprFrame(st, c, st2)
    ensures Frame(st, st2, {Cur(st, c)}, |st.env.varTables|, |st.env.funcTables|)
  {
  }

  lemma SetTermFrame(st: GenState, b: nat, t: Terminator)
    requires Valid(st) && b < |st.blocks|
    ensures Frame(st, SetTerm(st, b, t), {b}, |st.env.varTables|, |st.env.funcTables|)
    ensures SetTerm(st, b, t).env == st.env
  {
  }

  lemma {:induction false} LowerStmtLowered(st: GenState, s: Scope, n: Node)
    requires Valid(st) && s.ctx < |st.env.ctxs|
    ensures LowerStmt(st, s, n).Ok? ==> Lowered(st, s, LowerStmt(st, s, n).value.1, LowerStmt(st, s, n).value.0)
    decreases n, 2
  {
    var r := LowerStmt(st, s, n);
    if n.If? {
      assert r == LowerIf(st, s, n);
      LowerIfLowered(st, s, n);
    } else if n.Function? {
      assert r == LowerFunction(st, s, n);
      LowerFunctionLowered(st, s, n);
    } else if n.For? {
      assert r == LowerFor(st, s, n);
      LowerForLowered(st, s, n);
    } else if n.Block? {
      assert r == LowerStmts(st, s, n.stmts);
      LowerStmtsLowered(st, s, n.stmts);
    } else {
      OtherLowered(st, s, n);
    }
  }

  lemma OtherLowered(st: GenState, s: Scope, n: Node)
    requires Valid(st) && s.ctx < |st.env.ctxs| && !n.If? && !n.Function? && !n.For? && !n.Block?
    ensures LowerStmt(st, s, n).Ok? ==> Lowered(st, s, LowerStmt(st, s, n).value.1, LowerStmt(st, s, n).value.0)
  {
    match n
    case Return(_) => ReturnLowered(st, s, n);
    case FunctionCall(_, _) => CallStmtLowered(st, s, n);
    case Assign(_, _) => AssignLowered(st, s, n);
    case Alloc(lhs, rhs) => LowerAllocLowered(st, s, lhs.Str(), rhs);
    case Break => BreakLowered(st, s);
    case _ => Unchanged(st, s);
  }

  /** A statement that changes nothing is trivially within the frame. */
  lemma Unchanged(st: GenState, s: Scope)
    requires Valid(st) && s.ctx < |st.env.ctxs|
    ensures Lowered(st, s, st, s)
  {
  }

  lemma BreakLowered(st: GenState, s: Scope)
    requires Valid(st) && s.ctx < |st.env.ctxs|
    ensures Lowered(st, s, SetTerm(st, Cur(st, s.ctx), Br(s.forLeave)), s)
  {
    SetTermFrame(st, Cur(st, s.ctx), Br(s.forLeave));
  }

  lemma ReturnLowered(st: GenState, s: Scope, n: Node)
    requires Valid(st) && s.ctx < |st.env.ctxs| && n.Return?
    ensures LowerStmt(st, s, n).Ok? ==> Lowered(st, s, LowerStmt(st, s, n).value.1, LowerStmt(st, s, n).value.0)
  {
    var x := st.env.ctxs[s.ctx];
    var nv, nf := |st.env.varTables|, |st.env.funcTables|;
    LowerExprFrame(st, s.ctx, n.lhs);
    var v := LowerExpr(st, s.ctx, n.lhs);
    if v.Ok? {
      ExprToFrame(st, s.ctx, v.value.1);
      SetTermFrame(v.value.1, x.block, Ret(Some(v.value.0)));
      FrameTrans(st, v.value.1, SetTerm(v.value.1, x.block, Ret(Some(v.value.0))),
                 {x.block}, nv, nf, {x.block}, nv, nf, {x.block}, x.vars, x.funcs);
    }
  }

  lemma CallStmtLowered(st: GenState, s: Scope, n: Node)
    requires Valid(st) && s.ctx < |st.env.ctxs| && n.FunctionCall?
    ensures LowerStmt(st, s, n).Ok? ==> Lowered(st, s, LowerStmt(st, s, n).value.1, LowerStmt(st, s, n).value.0)
  {
    LowerCallFrame(st, s.ctx, n.name, n.args);
    var v := LowerCall(st, s.ctx, n.name, n.args);
    if v.Ok? {
      ExprToFrame(st, s.ctx, v.value.1);
    }
  }

  lemma AssignLowered(st: GenState, s: Scope, n: Node)
    requires Valid(st) && s.ctx < |st.env.ctxs| && n.Assign?
    ensures LowerStmt(st, s, n).Ok? ==> Lowered(st, s, LowerStmt(st, s, n).value.1, LowerStmt(st, s, n).value.0)
  {
    LowerExprFrame(st, s.ctx, n.rhs);
    var v := LowerExpr(st, s.ctx, n.rhs);
    var slot := FindVariable(st.env, s.ctx, n.lhs.Str());
    if slot.Ok? && v.Ok? {
      var st2 := Emit(v.value.1, Cur(st, s.ctx), Store(v.value.0, slot.value));
      StoreFrame(v.value.1, s.ctx, Store(v.value.0, slot.value));
      ExprFrameTrans(st, v.value.1, st2, s.ctx);
      ExprToFrame(st, s.ctx, st2);
    }
  }

  lemma LowerAllocLowered(st: GenState, s: Scope, name: string, rhs: Node)
    requires Valid(st) && s.ctx < |st.env.ctxs|
    ensures LowerAlloc(st, s, name, rhs).Ok? ==>
      Lowered(st, s, LowerAlloc(st, s, name, rhs).value.1, LowerAlloc(st, s, name, rhs).value.0)
  {
    var x := st.env.ctxs[s.ctx];
    var st1 := Emit(Fresh(st), Cur(st, s.ctx), Alloca(st.nextValue));
    DefineFrame(st, s.ctx, Alloca(st.nextValue));
    LowerExprFrame(st1, s.ctx, rhs);
    var v := LowerExpr(st1, s.ctx, rhs);
    if v.Ok? {
      var st2 := Emit(v.value.1, Cur(st, s.ctx), Store(v.value.0, Slot(st.nextValue)));
      StoreFrame(v.value.1, s.ctx, Store(v.value.0, Slot(st.nextValue)));
      ExprFrameTrans(st, st1, v.value.1, s.ctx);
      ExprFrameTrans(st, v.value.1, st2, s.ctx);
      ExprToFrame(st, s.ctx, st2);
      var st3 := st2.(env := BindVariable(st2.env, s.ctx, name, Slot(st.nextValue)));
      assert Frame(st2, st3, {}, x.vars, |st2.env.funcTables|);
      FrameTrans(st, st2, st3, {x.block}, |st.env.varTables|, |st.env.funcTables|,
                 {}, x.vars, |st2.env.funcTables|, {x.block}, x.vars, x.funcs);
    }
  }

  lemma LoweredTrans(st1: GenState, s1: Scope, st2: GenState, s2: Scope, st3: GenState, s3: Scope)
    requires Valid(st1) && s1.ctx < |st1.env.ctxs| && Lowered(st1, s1, st2, s2)
    requires Valid(st2) && s2.ctx < |st2.env.ctxs| && Lowered(st2, s2, st3, s3)
    ensures Lowered(st1, s1, st3, s3)
  {
    var x1, x2 := st1.env.ctxs[s1.ctx], st2.env.ctxs[s2.ctx];
    FrameTrans(st1, st2, st3, {x1.block}, x1.vars, x1.funcs, {x2.block}, x2.vars, x2.funcs, {x1.block}, x1.vars, x1.funcs);
  }

  lemma {:induction false} LowerStmtsLowered(st: GenState, s: Scope, ss: seq<Node>)
    requires Valid(st) && s.ctx < |st.env.ctxs|
    ensures LowerStmts(st, s, ss).Ok? ==> Lowered(st, s, LowerStmts(st, s, ss).value.1, LowerStmts(st, s, ss).value.0)
    decreases ss, 0
  {
    if ss != [] {
      LowerStmtLowered(st, s, ss[0]);
      var first := LowerStmt(st, s, ss[0]);
      if first.Ok? {
        LowerStmtsLowered(first.value.1, first.value.0, ss[1..]);
        var rest := LowerStmts(first.value.1, first.value.0, ss[1..]);
        if rest.Ok? {
          LoweredTrans(st, s, first.value.1, first.value.0, rest.value.1, rest.value.0);
        }
      }
    }
  }

  /** A branch (or loop body) changes, of the old state, only its own entry block `b`. */
  lemma {:induction false} LowerBranchFrame(st: GenState, s: Scope, b: nat, leaveB: nat, branch: Node)
    requires Valid(st) && s.ctx < |st.env.ctxs| && b < |st.blocks|
    ensures LowerBranch(st, s, b, leaveB, branch).Ok? ==>
      Frame(st, LowerBranch(st, s, b, leaveB, branch).value, {b}, |st.env.varTables|, |st.env.funcTables|)
    decreases branch, 3
  {
    var nv, nf := |st.env.varTables|, |st.env.funcTables|;
    var st1 := st.(env := NewChildContext(st.env, s.ctx, b));
    var cs := Scope(|st.env.ctxs|, Some(leaveB), s.forLeave);
    LowerStmtLowered(st1, cs, branch);
    var p := LowerStmt(st1, cs, branch);
    if p.Ok? {
      assert Frame(st, st1, {}, nv, nf);
      FrameTrans(st, st1, p.value.1, {}, nv, nf, {b}, nv, nf, {b}, nv, nf);
    }
  }

  lemma {:induction false} LowerLoopBodyFrame(st: GenState, s: Scope, loopB: nat, leaveB: nat, body: Node)
    requires Valid(st) && s.ctx < |st.env.ctxs| && loopB < |st.blocks|
    ensures LowerLoopBody(st, s, loopB, leaveB, body).Ok? ==>
      Frame(st, LowerLoopBody(st, s, loopB, leaveB, body).value, {loopB}, |st.env.varTables|, |st.env.funcTables|)
    decreases body, 3
  {
    var nv, nf := |st.env.varTables|, |st.env.funcTables|;
    var st1 := st.(env := NewChildContext(st.env, s.ctx, loopB));
    var cs := Scope(|st.env.ctxs|, None, Some(leaveB));
    LowerStmtLowered(st1, cs, body);
    var p := LowerStmt(st1, cs, body);
    if p.Ok? {
      assert Frame(st, st1, {}, nv, nf);
      FrameTrans(st, st1, p.value.1, {}, nv, nf, {loopB}, nv, nf, {loopB}, nv, nf);
      var last := Cur(p.value.1, p.value.0.ctx);
      SetTermFrame(p.value.1, last, Br(Some(loopB)));
      FrameTrans(st, p.value.1, LowerLoopBody(st, s, loopB, leaveB, body).value, {loopB}, nv, nf,
                 {last}, |p.value.1.env.varTables|, |p.value.1.env.funcTables|, {loopB}, nv, nf);
    }
  }

  /** The blocks of an `if`: new, empty, unterminated, named after `tag`, owned by `fn`. */
  lemma IfBlocksFrame(st: GenState, fn: nat, tag: string, hasElse: bool)
    requires Valid(st) && fn < |st.funcs|
    ensures Frame(st, IfBlocks(st, fn, tag, hasElse), {}, |st.env.varTables|, |st.env.funcTables|)
    ensures IfBlocks(st, fn, tag, hasElse).blockIndex == st.blockIndex + 1
    ensures IfBlocks(st, fn, tag, hasElse).blocks[|st.blocks|] == BasicBlock(tag + "-then", fn, [], None)
    ensures IfBlocks(st, fn, tag, hasElse).blocks[|st.blocks| + 1] == BasicBlock(tag + "-leave", fn, [], None)
    ensures hasElse ==> IfBlocks(st, fn, tag, hasElse).blocks[|st.blocks| + 2] == BasicBlock(tag + "-else", fn, [], None)
  {
  }

  /**
   * The start of the `if` case changes, of the old state, only the
   * current block, which now ends in the conditional branch; the new
   * blocks are as `IfBlocks` made them.
   */
  lemma IfHeadFrame(st: GenState, c: nat, cond: Node, hasElse: bool)
    requires Valid(st) && c < |st.env.ctxs|
    ensures IfHead(st, c, cond, hasElse).Ok? ==>
      var st2 := IfHead(st, c, cond, hasElse).value;
      Frame(st, st2, {Cur(st, c)}, |st.env.varTables|, |st.env.funcTables|)
      && st2.env == st.env
      && |st2.blocks| == |IfBlocks(st, Owner(st, c), BlockLabel(st.blockIndex), hasElse).blocks|
      && (forall k :: |st.blocks| <= k < |st2.blocks| ==>
            st2.blocks[k] == IfBlocks(st, Owner(st, c), BlockLabel(st.blockIndex), hasElse).blocks[k])
      && st2.blocks[|st.blocks| + 1].owner == Owner(st, c)
      && st2.blockIndex == st.blockIndex + 1
  {
    var nv, nf := |st.env.varTables|, |st.env.funcTables|;
    var cur := Cur(st, c);
    var st1 := IfBlocks(st, Owner(st, c), BlockLabel(st.blockIndex), hasElse);
    IfBlocksFrame(st, Owner(st, c), BlockLabel(st.blockIndex), hasElse);
    LowerExprFrame(st1, c, cond);
    var v := LowerExpr(st1, c, cond);
    if v.Ok? {
      ExprToFrame(st1, c, v.value.1);
      var st2 := IfHead(st, c, cond, hasElse).value;
      SetTermFrame(v.value.1, cur, CondBr(v.value.0, |st.blocks|, if hasElse then |st.blocks| + 2 else |st.blocks| + 1));
      FrameTrans(st1, v.value.1, st2, {cur}, nv, nf, {cur}, nv, nf, {cur}, nv, nf);
      FrameTrans(st, st1, st2, {}, nv, nf, {cur}, nv, nf, {cur}, nv, nf);
    }
  }

  /** The branches of an `if` change, of the state after its head, only the then and else blocks. */
  lemma {:induction false} IfBranchesFrame(st: GenState, s: Scope, thenB: nat, n: Node)
    requires Valid(st) && s.ctx < |st.env.ctxs| && n.If?
    requires thenB + (if n.elseBranch.Some? then 2 else 1) < |st.blocks|
    ensures IfBranches(st, s, thenB, n).Ok? ==>
      Frame(st, IfBranches(st, s, thenB, n).value, {thenB, thenB + 2}, |st.env.varTables|, |st.env.funcTables|)
    decreases n, 0
  {
    var nv, nf := |st.env.varTables|, |st.env.funcTables|;
    LowerBranchFrame(st, s, thenB, thenB + 1, n.thenBranch);
    var t := LowerBranch(st, s, thenB, thenB + 1, n.thenBranch);
    if t.Ok? {
      var st3 := t.value;
      var st4 := CloseThen(st3, thenB, thenB + 1);
      if st3.blocks[thenB].term.None? {
        SetTermFrame(st3, thenB, Br(Some(thenB + 1)));
      }
      assert Frame(st3, st4, {thenB}, |st3.env.varTables|, |st3.env.funcTables|);
      FrameTrans(st, st3, st4, {thenB}, nv, nf, {thenB}, |st3.env.varTables|, |st3.env.funcTables|, {thenB}, nv, nf);
      if n.elseBranch.Some? {
        LowerBranchFrame(st4, s, thenB + 2, thenB + 1, n.elseBranch.value);
        var e := LowerBranch(st4, s, thenB + 2, thenB + 1, n.elseBranch.value);
        if e.Ok? {
          FrameTrans(st, st4, e.value, {thenB}, nv, nf, {thenB + 2}, |st4.env.varTables|, |st4.env.funcTables|,
                     {thenB, thenB + 2}, nv, nf);
        }
      }
    }
  }

  /** The end of an `if` changes, of the old state, only the leave block's terminator. */
  lemma LeaveIntoFrame(st: GenState, s: Scope, leaveB: nat)
    requires Valid(st) && s.ctx < |st.env.ctxs| && leaveB < |st.blocks|
    ensures Frame(st, LeaveInto(st, s, leaveB).1, {leaveB}, |st.env.varTables|, |st.env.funcTables|)
    ensures Cur(LeaveInto(st, s, leaveB).1, LeaveInto(st, s, leaveB).0.ctx) == leaveB
  {
    var nv, nf := |st.env.varTables|, |st.env.funcTables|;
    var st2 := st.(env := CopyContext(st.env, s.ctx, leaveB));
    assert Frame(st, st2, {}, nv, nf);
    if s.ifLeave.Some? {
      SetTermFrame(st2, leaveB, Br(s.ifLeave));
      FrameTrans(st, st2, LeaveInto(st, s, leaveB).1, {}, nv, nf, {leaveB}, nv, nf, {leaveB}, nv, nf);
    }
  }

  lemma {:induction false} LowerIfLowered(st: GenState, s: Scope, n: Node)
    requires Valid(st) && s.ctx < |st.env.ctxs| && n.If?
    ensures LowerIf(st, s, n).Ok? ==> Lowered(st, s, LowerIf(st, s, n).value.1, LowerIf(st, s, n).value.0)
    decreases n, 1
  {
    var x := st.env.ctxs[s.ctx];
    var nv, nf := |st.env.varTables|, |st.env.funcTables|;
    var thenB := |st.blocks|;
    IfHeadFrame(st, s.ctx, n.cond, n.elseBranch.Some?);
    var h := IfHead(st, s.ctx, n.cond, n.elseBranch.Some?);
    if h.Ok? {
      var st2 := h.value;
      IfBranchesFrame(st2, s, thenB, n);
      var b := IfBranches(st2, s, thenB, n);
      if b.Ok? {
        var st5 := b.value;
        FrameTrans(st, st2, st5, {x.block}, nv, nf, {thenB, thenB + 2}, |st2.env.varTables|, |st2.env.funcTables|,
                   {x.block}, x.vars, x.funcs);
        LeaveIntoLowered(st, s, st5, thenB + 1);
      }
    }
  }

  /** Closing an `if` whose branches stayed within the frame keeps the whole statement within it. */
  lemma LeaveIntoLowered(st: GenState, s: Scope, st5: GenState, leaveB: nat)
    requires Valid(st) && s.ctx < |st.env.ctxs|
    requires Frame(st, st5, {Cur(st, s.ctx)}, st.env.ctxs[s.ctx].vars, st.env.ctxs[s.ctx].funcs)
    requires |st.blocks| <= leaveB < |st5.blocks| && st5.blocks[leaveB].owner == Owner(st, s.ctx)
    ensures Lowered(st, s, LeaveInto(st5, s, leaveB).1, LeaveInto(st5, s, leaveB).0)
  {
    var x := st.env.ctxs[s.ctx];
    LeaveIntoFrame(st5, s, leaveB);
    FrameTrans(st, st5, LeaveInto(st5, s, leaveB).1, {x.block}, x.vars, x.funcs,
               {leaveB}, |st5.env.varTables|, |st5.env.funcTables|, {x.block}, x.vars, x.funcs);
  }

  /** The start of the `for` case changes, of the old state, only the current block's terminator. */
  lemma ForHeadFrame(st: GenState, c: nat)
    requires Valid(st) && c < |st.env.ctxs|
    ensures Frame(st, ForHead(st, c), {Cur(st, c)}, |st.env.varTables|, |st.env.funcTables|)
    ensures ForHead(st, c).blocks[|st.blocks| + 1].owner == Owner(st, c)
  {
    var nv, nf := |st.env.varTables|, |st.env.funcTables|;
    var fn := Owner(st, c);
    var tag := BlockLabel(st.blockIndex);
    var st1 := AddBlock(AddBlock(NextLabel(st), fn, tag + "-for"), fn, tag + "-leave-for");
    assert Frame(st, st1, {}, nv, nf);
    SetTermFrame(st1, Cur(st, c), Br(Some(|st.blocks|)));
    FrameTrans(st, st1, ForHead(st, c), {}, nv, nf, {Cur(st, c)}, nv, nf, {Cur(st, c)}, nv, nf);
  }

  lemma {:induction false} LowerForLowered(st: GenState, s: Scope, n: Node)
    requires Valid(st) && s.ctx < |st.env.ctxs| && n.For?
    ensures LowerFor(st, s, n).Ok? ==> Lowered(st, s, LowerFor(st, s, n).value.1, LowerFor(st, s, n).value.0)
    decreases n, 1
  {
    var x := st.env.ctxs[s.ctx];
    var nv, nf := |st.env.varTables|, |st.env.funcTables|;
    var cur := Cur(st, s.ctx);
    var loopB := |st.blocks|;
    var st2 := ForHead(st, s.ctx);
    ForHeadFrame(st, s.ctx);
    LowerLoopBodyFrame(st2, s, loopB, loopB + 1, n.body);
    var b := LowerLoopBody(st2, s, loopB, loopB + 1, n.body);
    if b.Ok? {
      var st3 := b.value;
      FrameTrans(st, st2, st3, {cur}, nv, nf, {loopB}, |st2.env.varTables|, |st2.env.funcTables|, {cur}, nv, nf);
      var st4 := st3.(env := CopyContext(st3.env, s.ctx, loopB + 1));
      assert Frame(st3, st4, {}, |st3.env.varTables|, |st3.env.funcTables|);
      FrameTrans(st, st3, st4, {cur}, nv, nf, {}, |st3.env.varTables|, |st3.env.funcTables|, {cur}, x.vars, x.funcs);
    }
  }

  /** The start of the function case changes, of the old state, only the scope's function map. */
  lemma FunctionHeadFrame(st: GenState, c: nat, name: string, params: seq<string>)
    requires Valid(st) && c < |st.env.ctxs|
    ensures Frame(st, FunctionHead(st, c, name, params), {}, |st.env.varTables|, st.env.ctxs[c].funcs)
  {
  }

  lemma {:induction false} LowerFunctionLowered(st: GenState, s: Scope, n: Node)
    requires Valid(st) && s.ctx < |st.env.ctxs| && n.Function?
    ensures LowerFunction(st, s, n).Ok? ==> Lowered(st, s, LowerFunction(st, s, n).value.1, LowerFunction(st, s, n).value.0)
    decreases n, 1
  {
    var x := st.env.ctxs[s.ctx];
    var nv := |st.env.varTables|;
    var entry := |st.blocks|;
    var st1 := FunctionHead(st, s.ctx, n.name, n.params);
    FunctionHeadFrame(st, s.ctx, n.name, n.params);
    var fs := Scope(|st.env.ctxs|, None, None);
    LowerStmtLowered(st1, fs, n.body);
    var b := LowerStmt(st1, fs, n.body);
    if b.Ok? {
      var st2 := b.value.1;
      var y := st1.env.ctxs[fs.ctx];
      FrameTrans(st, st1, st2, {}, nv, x.funcs, {y.block}, y.vars, y.funcs, {x.block}, x.vars, x.funcs);
      var st3 := LowerFunction(st, s, n).value.1;
      if st2.blocks[entry].term.None? {
        SetTermFrame(st2, entry, Ret(None));
      }
      assert Frame(st2, st3, {entry}, |st2.env.varTables|, |st2.env.funcTables|);
      FrameTrans(st, st2, st3, {x.block}, x.vars, x.funcs, {entry}, |st2.env.varTables|, |st2.env.funcTables|,
                 {x.block}, x.vars, x.funcs);
    }
  }
}
