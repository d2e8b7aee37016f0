/**
 * What the lowering of generator.go guarantees, stated over the
 * specification in lowering.dfy: how blocks are named, how `if`, `for`,
 * `break`, `return` and function definitions wire the control-flow graph,
 * what each declaration makes visible, and the errors. Several lemmas pin
 * down behaviour of the code as written that a reader might not expect:
 * an else block gets no branch to the leave block, a `break` at the end of
 * a loop body is overwritten by the back edge, and `main` gets no
 * terminator.
 */
module LoweringProperties {
  import opened Common
  import opened Decimal
  import opened Ast
  import opened Ir
  import opened Scopes
  import opened Lowering
  import opened LoweringFrames

  // ---------------------------------------------------------------------
  // Block names

  /** What `blockName` appends a name to: nothing, or a part starting with '-' ("-then", "-leave-for", ...). */
  predicate NameSuffix(x: string) {
    x == [] || x[0] == '-'
  }

  lemma LongerLabelDiffers(a: string, b: string, x: string, y: string)
    requires AllDigits(b) && |a| < |b| && NameSuffix(x)
    ensures "block-" + a + x != "block-" + b + y
  {
    var l, r := "block-" + a + x, "block-" + b + y;
    if x != [] {
      assert l[6 + |a|] == '-';
      assert r[6 + |a|] == b[|a|];
    }
  }

  /**
   * Block names never collide unless they come from the same counter value
   * and the same suffix: the number and the suffix can be read back from a
   * name.
   */
  lemma BlockNamesDistinct(n: nat, m: nat, x: string, y: string)
    requires NameSuffix(x) && NameSuffix(y)
    ensures BlockLabel(n) + x == BlockLabel(m) + y <==> n == m && x == y
  {
    var a, b := NatToString(n), NatToString(m);
    if BlockLabel(n) + x == BlockLabel(m) + y {
      if |a| < |b| {
        LongerLabelDiffers(a, b, x, y);
        assert false;
      } else if |b| < |a| {
        LongerLabelDiffers(b, a, y, x);
        assert false;
      } else {
        var w := BlockLabel(n) + x;
        assert a == w[6..6 + |a|];
        assert b == w[6..6 + |b|];
        assert x == w[6 + |a|..];
        RenderingInjective(n, m);
      }
    }
  }

  // ---------------------------------------------------------------------
  // Straight-line statements

  /**
   * A statement that adds no block and sets no terminator: assignments,
   * declarations, calls, expression statements, and blocks of these.
   */
  predicate Straight(n: Node)
    decreases n
  {
    match n
    case Assign(_, _) => true
    case Alloc(_, _) => true
    case FunctionCall(_, _) => true
    case Block(ss) => forall i :: 0 <= i < |ss| ==> Straight(ss[i])
    case _ => n.IsBinary() || n.LVar? || n.Num?
  }

  /**
   * The control-flow graph is as it was: same contexts, functions, blocks,
   * names, owners and terminators, and every block's old instructions are
   * a prefix of its new ones.
   */
  predicate SameGraph(st: GenState, st2: GenState) {
    st2.env.ctxs == st.env.ctxs && st2.funcs == st.funcs && st2.blockIndex == st.blockIndex
    && |st2.blocks| == |st.blocks|
    && forall b :: 0 <= b < |st.blocks| ==>
         st2.blocks[b].term == st.blocks[b].term && st2.blocks[b].name == st.blocks[b].name
         && st2.blocks[b].owner == st.blocks[b].owner && st.blocks[b].insts <= st2.blocks[b].insts
  }

  lemma ExprKeepsGraph(st: GenState, c: nat, st2: GenState)
    requires Valid(st) && c < |st.env.ctxs| && ExprFrame(st, c, st2)
    ensures SameGraph(st, st2)
  {
  }

  /** A straight statement leaves its scope and the control-flow graph as they were; it only appends instructions. */
  lemma {:induction false} StraightKeepsGraph(st: GenState, s: Scope, n: Node)
    requires Valid(st) && s.ctx < |st.env.ctxs| && Straight(n)
    ensures LowerStmt(st, s, n).Ok? ==> LowerStmt(st, s, n).value.0 == s && SameGraph(st, LowerStmt(st, s, n).value.1)
    decreases n, 1
  {
    var r := LowerStmt(st, s, n);
    match n
    case Assign(lhs, rhs) =>
      LowerExprFrame(st, s.ctx, rhs);
      var v := LowerExpr(st, s.ctx, rhs);
      var slot := FindVariable(st.env, s.ctx, lhs.Str());
      if slot.Ok? && v.Ok? {
        StoreFrame(v.value.1, s.ctx, Store(v.value.0, slot.value));
        ExprFrameTrans(st, v.value.1, r.value.1, s.ctx);
        ExprKeepsGraph(st, s.ctx, r.value.1);
      }
    case Alloc(lhs, rhs) =>
      var st1 := Emit(Fresh(st), Cur(st, s.ctx), Alloca(st.nextValue));
      DefineFrame(st, s.ctx, Alloca(st.nextValue));
      LowerExprFrame(st1, s.ctx, rhs);
      var v := LowerExpr(st1, s.ctx, rhs);
      if v.Ok? {
        var st2 := Emit(v.value.1, Cur(st, s.ctx), Store(v.value.0, Slot(st.nextValue)));
        StoreFrame(v.value.1, s.ctx, Store(v.value.0, Slot(st.nextValue)));
        ExprFrameTrans(st, st1, v.value.1, s.ctx);
        ExprFrameTrans(st, v.value.1, st2, s.ctx);
        ExprKeepsGraph(st, s.ctx, st2);
      }
    case FunctionCall(f, args) =>
      LowerCallFrame(st, s.ctx, f, args);
      if r.Ok? {
        ExprKeepsGraph(st, s.ctx, r.value.1);
      }
    case Block(ss) => StraightsKeepGraph(st, s, ss);
    case _ =>
  }

  lemma {:induction false} StraightsKeepGraph(st: GenState, s: Scope, ss: seq<Node>)
    requires Valid(st) && s.ctx < |st.env.ctxs| && forall i :: 0 <= i < |ss| ==> Straight(ss[i])
    ensures LowerStmts(st, s, ss).Ok? ==> LowerStmts(st, s, ss).value.0 == s && SameGraph(st, LowerStmts(st, s, ss).value.1)
    decreases ss, 0
  {
    if ss != [] {
      StraightKeepsGraph(st, s, ss[0]);
      var first := LowerStmt(st, s, ss[0]);
      if first.Ok? {
        StraightsKeepGraph(first.value.1, s, ss[1..]);
      }
    }
  }

  /** A straight branch leaves every terminator of the graph as it was. */
  lemma StraightBranch(st: GenState, s: Scope, b: nat, leaveB: nat, branch: Node)
    requires Valid(st) && s.ctx < |st.env.ctxs| && b < |st.blocks| && Straight(branch)
    ensures LowerBranch(st, s, b, leaveB, branch).Ok? ==>
      var st2 := LowerBranch(st, s, b, leaveB, branch).value;
      |st2.blocks| == |st.blocks| && forall k :: 0 <= k < |st.blocks| ==> st2.blocks[k].term == st.blocks[k].term
  {
    StraightKeepsGraph(st.(env := NewChildContext(st.env, s.ctx, b)), Scope(|st.env.ctxs|, Some(leaveB), s.forLeave), branch);
  }

  /** Which case of `LowerStmt` a node takes. */
  lemma StmtCases(st: GenState, s: Scope, n: Node)
    requires Valid(st) && s.ctx < |st.env.ctxs|
    ensures n.If? ==> LowerStmt(st, s, n) == LowerIf(st, s, n)
    ensures n.For? ==> LowerStmt(st, s, n) == LowerFor(st, s, n)
    ensures n.Function? ==> LowerStmt(st, s, n) == LowerFunction(st, s, n)
    ensures n.Block? ==> LowerStmt(st, s, n) == LowerStmts(st, s, n.stmts)
    ensures n.Alloc? ==> LowerStmt(st, s, n) == LowerAlloc(st, s, n.lhs.Str(), n.rhs)
    ensures n.Break? ==> LowerStmt(st, s, n) == Ok((s, SetTerm(st, Cur(st, s.ctx), Br(s.forLeave))))
    ensures n.IsBinary() || n.LVar? || n.Num? ==> LowerStmt(st, s, n) == Ok((s, st))
  {
  }

  /** A call statement: the call lowered for its effect, its value dropped. */
  lemma CallStmtCase(st: GenState, s: Scope, n: Node)
    requires Valid(st) && s.ctx < |st.env.ctxs| && n.FunctionCall?
    ensures LowerStmt(st, s, n).Ok? <==> LowerCall(st, s.ctx, n.name, n.args).Ok?
    ensures LowerStmt(st, s, n).Ok? ==> LowerStmt(st, s, n).value == (s, LowerCall(st, s.ctx, n.name, n.args).value.1)
  {
  }

  // ---------------------------------------------------------------------
  // `if` (generator.go:118-143)

  /** The target of the conditional branch when the condition is false. */
  function FalseTarget(thenB: nat, hasElse: bool): nat {
    if hasElse then thenB + 2 else thenB + 1
  }

  /** A conditional branch to `t` when true and `f` when false. */
  predicate BranchesTo(term: Option<Terminator>, t: nat, f: nat) {
    term.Some? && term.value.CondBr? && term.value.ifTrue == t && term.value.ifFalse == f
  }

  lemma IfHeadShape(st: GenState, c: nat, cond: Node, hasElse: bool)
    requires Valid(st) && c < |st.env.ctxs|
    ensures IfHead(st, c, cond, hasElse).Ok? ==>
      var st2 := IfHead(st, c, cond, hasElse).value;
      var T, tag, fn := |st.blocks|, BlockLabel(st.blockIndex), Owner(st, c);
      BranchesTo(st2.blocks[Cur(st, c)].term, T, FalseTarget(T, hasElse))
      && st2.blocks[T] == BasicBlock(tag + "-then", fn, [], None)
      && st2.blocks[T + 1] == BasicBlock(tag + "-leave", fn, [], None)
      && (hasElse ==> st2.blocks[T + 2] == BasicBlock(tag + "-else", fn, [], None))
  {
    IfHeadFrame(st, c, cond, hasElse);
    IfBlocksFrame(st, Owner(st, c), BlockLabel(st.blockIndex), hasElse);
  }

  /** A branch that is a `break` terminates its block with a jump to the loop's leave block. */
  lemma BreakBranch(st: GenState, s: Scope, b: nat, leaveB: nat)
    requires Valid(st) && s.ctx < |st.env.ctxs| && b < |st.blocks|
    ensures LowerBranch(st, s, b, leaveB, Break) == Ok(SetTerm(st.(env := NewChildContext(st.env, s.ctx, b)), b, Br(s.forLeave)))
  {
    StmtCases(st.(env := NewChildContext(st.env, s.ctx, b)), Scope(|st.env.ctxs|, Some(leaveB), s.forLeave), Break);
  }

  /**
   * The branches of an `if`: the then block always ends up terminated; a
   * straight then branch falls through to the leave block; a straight
   * else branch leaves the else block without a terminator.
   */
  lemma IfBranchesShape(st: GenState, s: Scope, thenB: nat, n: Node)
    requires Valid(st) && s.ctx < |st.env.ctxs| && n.If?
    requires thenB + (if n.elseBranch.Some? then 2 else 1) < |st.blocks|
    ensures IfBranches(st, s, thenB, n).Ok? ==>
      var st5 := IfBranches(st, s, thenB, n).value;
      st5.blocks[thenB].term.Some?
      && (Straight(n.thenBranch) && st.blocks[thenB].term.None? ==> st5.blocks[thenB].term == Some(Br(Some(thenB + 1))))
      && (n.thenBranch == Break ==> st5.blocks[thenB].term == Some(Br(s.forLeave)))
      && (n.elseBranch.Some? && Straight(n.elseBranch.value) && st.blocks[thenB + 2].term.None? ==>
            st5.blocks[thenB + 2].term.None?)
  {
    var t := LowerBranch(st, s, thenB, thenB + 1, n.thenBranch);
    if t.Ok? {
      var st3 := t.value;
      IfBranchesResult(st, s, thenB, n, st3);
      ThenClosed(st, s, thenB, n.thenBranch);
      LowerBranchFrame(st, s, thenB, thenB + 1, n.thenBranch);
      if n.elseBranch.Some? {
        var st4 := CloseThen(st3, thenB, thenB + 1);
        LowerBranchFrame(st4, s, thenB + 2, thenB + 1, n.elseBranch.value);
        if Straight(n.elseBranch.value) {
          StraightBranch(st4, s, thenB + 2, thenB + 1, n.elseBranch.value);
        }
      }
    }
  }

  /** `IfBranches` as its steps, once the then branch has lowered. */
  lemma IfBranchesResult(st: GenState, s: Scope, thenB: nat, n: Node, st3: GenState)
    requires Valid(st) && s.ctx < |st.env.ctxs| && n.If?
    requires thenB + (if n.elseBranch.Some? then 2 else 1) < |st.blocks|
    requires LowerBranch(st, s, thenB, thenB + 1, n.thenBranch) == Ok(st3)
    requires Valid(st3) && |st.blocks| <= |st3.blocks|
    ensures IfBranches(st, s, thenB, n) ==
      if n.elseBranch.None? then Ok(CloseThen(st3, thenB, thenB + 1))
      else LowerBranch(CloseThen(st3, thenB, thenB + 1), s, thenB + 2, thenB + 1, n.elseBranch.value)
  {
  }

  /**
   * After the then branch, the then block is terminated: by the branch, or
   * else by the fall-through to the leave block.
   */
  lemma ThenClosed(st: GenState, s: Scope, thenB: nat, branch: Node)
    requires Valid(st) && s.ctx < |st.env.ctxs| && thenB + 1 < |st.blocks|
    requires LowerBranch(st, s, thenB, thenB + 1, branch).Ok?
    ensures
      var st4 := CloseThen(LowerBranch(st, s, thenB, thenB + 1, branch).value, thenB, thenB + 1);
      && st4.blocks[thenB].term.Some?
      && (Straight(branch) && st.blocks[thenB].term.None? ==> st4.blocks[thenB].term == Some(Br(Some(thenB + 1))))
      && (branch == Break ==> st4.blocks[thenB].term == Some(Br(s.forLeave)))
  {
    if Straight(branch) {
      StraightBranch(st, s, thenB, thenB + 1, branch);
    }
    if branch == Break {
      BreakBranch(st, s, thenB, thenB + 1);
    }
  }

  /** What the branches of an `if` leave alone: every other old block, and every old block's name and owner. */
  lemma IfBranchesKeep(st: GenState, s: Scope, thenB: nat, n: Node, k: nat)
    requires Valid(st) && s.ctx < |st.env.ctxs| && n.If?
    requires thenB + (if n.elseBranch.Some? then 2 else 1) < |st.blocks| && k < |st.blocks|
    ensures IfBranches(st, s, thenB, n).Ok? ==>
      var st5 := IfBranches(st, s, thenB, n).value;
      |st.blocks| <= |st5.blocks| && st.env.ctxs <= st5.env.ctxs && st.blockIndex <= st5.blockIndex
      && st5.blocks[k].name == st.blocks[k].name && st5.blocks[k].owner == st.blocks[k].owner
      && (k != thenB && k != thenB + 2 ==> st5.blocks[k] == st.blocks[k])
  {
    IfBranchesFrame(st, s, thenB, n);
  }

  /** What closing an `if` does: only the leave block's terminator changes, and lowering moves to the leave block. */
  lemma LeaveIntoShape(st: GenState, s: Scope, leaveB: nat, k: nat)
    requires Valid(st) && s.ctx < |st.env.ctxs| && leaveB < |st.blocks| && k < |st.blocks|
    ensures var (s2, st2) := LeaveInto(st, s, leaveB);
      |st2.blocks| == |st.blocks| && st2.blockIndex == st.blockIndex
      && st2.blocks[k] == (if k == leaveB && s.ifLeave.Some? then st.blocks[k].(term := Some(Br(s.ifLeave))) else st.blocks[k])
      && Cur(st2, s2.ctx) == leaveB && SharesTables(st2.env.ctxs[s2.ctx], st.env.ctxs[s.ctx])
      && st.env.ctxs <= st2.env.ctxs
  {
  }

  lemma IfOkSteps(st: GenState, s: Scope, n: Node)
    requires Valid(st) && s.ctx < |st.env.ctxs| && n.If? && LowerIf(st, s, n).Ok?
    ensures IfHead(st, s.ctx, n.cond, n.elseBranch.Some?).Ok?
    ensures IfBranches(IfHead(st, s.ctx, n.cond, n.elseBranch.Some?).value, s, |st.blocks|, n).Ok?
  {
  }

  lemma IfResult(st: GenState, s: Scope, n: Node, st2: GenState, st5: GenState)
    requires Valid(st) && s.ctx < |st.env.ctxs| && n.If?
    requires IfHead(st, s.ctx, n.cond, n.elseBranch.Some?) == Ok(st2)
    requires Valid(st2) && s.ctx < |st2.env.ctxs| && |st.blocks| + (if n.elseBranch.Some? then 2 else 1) < |st2.blocks|
    requires IfBranches(st2, s, |st.blocks|, n) == Ok(st5)
    requires Valid(st5) && |st.blocks| + 1 < |st5.blocks| && s.ctx < |st5.env.ctxs|
    ensures LowerIf(st, s, n) == Ok(LeaveInto(st5, s, |st.blocks| + 1))
  {
  }

  /** The wiring of an `if`, in terms of the states after its head (`st2`) and its branches (`st5`). */
  lemma IfWiringSteps(st: GenState, s: Scope, n: Node, st2: GenState, st5: GenState)
    requires Valid(st) && s.ctx < |st.env.ctxs| && n.If?
    requires IfHead(st, s.ctx, n.cond, n.elseBranch.Some?) == Ok(st2)
    requires Valid(st2) && s.ctx < |st2.env.ctxs| && |st.blocks| + (if n.elseBranch.Some? then 2 else 1) < |st2.blocks|
    requires IfBranches(st2, s, |st.blocks|, n) == Ok(st5)
    requires Valid(st5) && |st.blocks| + 1 < |st5.blocks| && s.ctx < |st5.env.ctxs|
    ensures
      var (s2, st6) := LeaveInto(st5, s, |st.blocks| + 1);
      var T, tag, fn, hasElse := |st.blocks|, BlockLabel(st.blockIndex), Owner(st, s.ctx), n.elseBranch.Some?;
      && T + (if hasElse then 3 else 2) <= |st6.blocks|
      && BranchesTo(st6.blocks[Cur(st, s.ctx)].term, T, FalseTarget(T, hasElse))
      && st6.blocks[T].name == tag + "-then" && st6.blocks[T].owner == fn && st6.blocks[T].term.Some?
      && st6.blocks[T + 1] == BasicBlock(tag + "-leave", fn, [], if s.ifLeave.Some? then Some(Br(s.ifLeave)) else None)
      && (hasElse ==> st6.blocks[T + 2].name == tag + "-else" && st6.blocks[T + 2].owner == fn)
      && Cur(st6, s2.ctx) == T + 1 && SharesTables(st6.env.ctxs[s2.ctx], st.env.ctxs[s.ctx])
      && st.blockIndex < st6.blockIndex
      && (Straight(n.thenBranch) ==> st6.blocks[T].term == Some(Br(Some(T + 1))))
      && (n.thenBranch == Break ==> st6.blocks[T].term == Some(Br(s.forLeave)))
      && (hasElse && Straight(n.elseBranch.value) ==> st6.blocks[T + 2].term == None)
  {
    var T := |st.blocks|;
    var hasElse := n.elseBranch.Some?;
    var cur := Cur(st, s.ctx);
    IfHeadShape(st, s.ctx, n.cond, hasElse);
    IfHeadFrame(st, s.ctx, n.cond, hasElse);
    IfBranchesShape(st2, s, T, n);
    IfBranchesKeep(st2, s, T, n, cur);
    IfBranchesKeep(st2, s, T, n, T);
    IfBranchesKeep(st2, s, T, n, T + 1);
    LeaveIntoShape(st5, s, T + 1, cur);
    LeaveIntoShape(st5, s, T + 1, T);
    LeaveIntoShape(st5, s, T + 1, T + 1);
    if hasElse {
      IfBranchesKeep(st2, s, T, n, T + 2);
      LeaveIntoShape(st5, s, T + 1, T + 2);
    }
  }

  /**
   * How an `if` is wired: blocks `-then`, `-leave` (and `-else`) named
   * after one `blockName` value and owned by the current function; the
   * current block branches on the condition to the then block and to the
   * else block, or to the leave block when there is no else; the then block
   * is always terminated; the leave block is empty, and branches to the
   * enclosing `if`'s leave block when there is one and is unterminated
   * otherwise; lowering continues in a copy of the context on the leave
   * block. A then branch that sets no terminator falls through to the
   * leave block, and one that is a `break` jumps to the loop's leave block;
   * as written, an else branch that sets no terminator leaves the else
   * block without one.
   */
  lemma IfWiring(st: GenState, s: Scope, n: Node)
    requires Valid(st) && s.ctx < |st.env.ctxs| && n.If? && LowerIf(st, s, n).Ok?
    ensures
      var (s2, st2) := LowerIf(st, s, n).value;
      var T, tag, fn, hasElse := |st.blocks|, BlockLabel(st.blockIndex), Owner(st, s.ctx), n.elseBranch.Some?;
      && T + (if hasElse then 3 else 2) <= |st2.blocks|
      && BranchesTo(st2.blocks[Cur(st, s.ctx)].term, T, FalseTarget(T, hasElse))
      && st2.blocks[T].name == tag + "-then" && st2.blocks[T].owner == fn && st2.blocks[T].term.Some?
      && st2.blocks[T + 1] == BasicBlock(tag + "-leave", fn, [], if s.ifLeave.Some? then Some(Br(s.ifLeave)) else None)
      && (hasElse ==> st2.blocks[T + 2].name == tag + "-else" && st2.blocks[T + 2].owner == fn)
      && Cur(st2, s2.ctx) == T + 1 && SharesTables(st2.env.ctxs[s2.ctx], st.env.ctxs[s.ctx])
      && st.blockIndex < st2.blockIndex
      && (Straight(n.thenBranch) ==> st2.blocks[T].term == Some(Br(Some(T + 1))))
      && (n.thenBranch == Break ==> st2.blocks[T].term == Some(Br(s.forLeave)))
      && (hasElse && Straight(n.elseBranch.value) ==> st2.blocks[T + 2].term == None)
  {
    IfOkSteps(st, s, n);
    var st2 := IfHead(st, s.ctx, n.cond, n.elseBranch.Some?).value;
    var st5 := IfBranches(st2, s, |st.blocks|, n).value;
    IfResult(st, s, n, st2, st5);
    IfWiringSteps(st, s, n, st2, st5);
  }

  // ---------------------------------------------------------------------
  // `for` and `break` (generator.go:174-186)

  lemma ForHeadShape(st: GenState, c: nat)
    requires Valid(st) && c < |st.env.ctxs|
    ensures var st2, T, tag, fn := ForHead(st, c), |st.blocks|, BlockLabel(st.blockIndex), Owner(st, c);
      st2.blocks[Cur(st, c)].term == Some(Br(Some(T)))
      && st2.blocks[T] == BasicBlock(tag + "-for", fn, [], None)
      && st2.blocks[T + 1] == BasicBlock(tag + "-leave-for", fn, [], None)
      && st2.blockIndex == st.blockIndex + 1
  {
  }

  /** What a loop body leaves alone: every old block but the loop block, and every old name and owner. */
  lemma LoopBodyKeep(st: GenState, s: Scope, loopB: nat, leaveB: nat, body: Node, k: nat)
    requires Valid(st) && s.ctx < |st.env.ctxs| && loopB < |st.blocks| && k < |st.blocks|
    ensures LowerLoopBody(st, s, loopB, leaveB, body).Ok? ==>
      var st3 := LowerLoopBody(st, s, loopB, leaveB, body).value;
      st.env.ctxs <= st3.env.ctxs && st.blockIndex <= st3.blockIndex
      && st3.blocks[k].name == st.blocks[k].name && st3.blocks[k].owner == st.blocks[k].owner
      && (k != loopB ==> st3.blocks[k] == st.blocks[k])
  {
    LowerLoopBodyFrame(st, s, loopB, leaveB, body);
  }

  lemma LoopBodyOk(st: GenState, s: Scope, loopB: nat, leaveB: nat, body: Node)
    requires Valid(st) && s.ctx < |st.env.ctxs| && loopB < |st.blocks| && LowerLoopBody(st, s, loopB, leaveB, body).Ok?
    ensures LowerStmt(st.(env := NewChildContext(st.env, s.ctx, loopB)), Scope(|st.env.ctxs|, None, Some(leaveB)), body).Ok?
  {
  }

  /** `LowerLoopBody` as its steps: the body in the loop's scope, then the back edge. */
  lemma LoopBodyResult(st: GenState, s: Scope, loopB: nat, leaveB: nat, body: Node, s2: Scope, st2: GenState)
    requires Valid(st) && s.ctx < |st.env.ctxs| && loopB < |st.blocks|
    requires LowerStmt(st.(env := NewChildContext(st.env, s.ctx, loopB)), Scope(|st.env.ctxs|, None, Some(leaveB)), body) == Ok((s2, st2))
    requires Valid(st2) && s2.ctx < |st2.env.ctxs|
    ensures LowerLoopBody(st, s, loopB, leaveB, body) == Ok(SetTerm(st2, Cur(st2, s2.ctx), Br(Some(loopB))))
  {
  }

  /**
   * The back edge is put on whatever block the body ended in, replacing
   * its terminator: a body that sets none, and a body that is just a
   * `break`, both end with the loop block branching to itself.
   */
  lemma LoopBodyBackEdge(st: GenState, s: Scope, loopB: nat, leaveB: nat, body: Node)
    requires Valid(st) && s.ctx < |st.env.ctxs| && loopB < |st.blocks| && (Straight(body) || body == Break)
    ensures LowerLoopBody(st, s, loopB, leaveB, body).Ok? ==>
      LowerLoopBody(st, s, loopB, leaveB, body).value.blocks[loopB].term == Some(Br(Some(loopB)))
  {
    var child := st.(env := NewChildContext(st.env, s.ctx, loopB));
    var cs := Scope(|st.env.ctxs|, None, Some(leaveB));
    if LowerLoopBody(st, s, loopB, leaveB, body).Ok? {
      LoopBodyOk(st, s, loopB, leaveB, body);
      var p := LowerStmt(child, cs, body).value;
      if Straight(body) {
        StraightKeepsGraph(child, cs, body);
      } else {
        StmtCases(child, cs, body);
      }
      LoopBodyResult(st, s, loopB, leaveB, body, p.0, p.1);
    }
  }

  lemma ForOkSteps(st: GenState, s: Scope, n: Node)
    requires Valid(st) && s.ctx < |st.env.ctxs| && n.For? && LowerFor(st, s, n).Ok?
    ensures LowerLoopBody(ForHead(st, s.ctx), s, |st.blocks|, |st.blocks| + 1, n.body).Ok?
  {
  }

  /** `LowerFor` as its steps. */
  lemma ForResult(st: GenState, s: Scope, n: Node, st3: GenState)
    requires Valid(st) && s.ctx < |st.env.ctxs| && n.For?
    requires LowerLoopBody(ForHead(st, s.ctx), s, |st.blocks|, |st.blocks| + 1, n.body) == Ok(st3)
    requires Valid(st3) && |st.blocks| + 2 <= |st3.blocks| && s.ctx < |st3.env.ctxs|
    ensures LowerFor(st, s, n) == Ok((s.(ctx := |st3.env.ctxs|), st3.(env := CopyContext(st3.env, s.ctx, |st.blocks| + 1))))
  {
  }

  lemma ForWiringSteps(st: GenState, s: Scope, n: Node, st3: GenState)
    requires Valid(st) && s.ctx < |st.env.ctxs| && n.For?
    requires LowerLoopBody(ForHead(st, s.ctx), s, |st.blocks|, |st.blocks| + 1, n.body) == Ok(st3)
    requires Valid(st3) && |st.blocks| + 2 <= |st3.blocks| && s.ctx < |st3.env.ctxs|
    ensures
      var s2, st4 := s.(ctx := |st3.env.ctxs|), st3.(env := CopyContext(st3.env, s.ctx, |st.blocks| + 1));
      var T, tag, fn := |st.blocks|, BlockLabel(st.blockIndex), Owner(st, s.ctx);
      && st4.blocks[Cur(st, s.ctx)].term == Some(Br(Some(T)))
      && st4.blocks[T].name == tag + "-for" && st4.blocks[T].owner == fn
      && st4.blocks[T + 1] == BasicBlock(tag + "-leave-for", fn, [], None)
      && Cur(st4, s2.ctx) == T + 1 && SharesTables(st4.env.ctxs[s2.ctx], st.env.ctxs[s.ctx])
      && st.blockIndex < st4.blockIndex
      && (Straight(n.body) || n.body == Break ==> st4.blocks[T].term == Some(Br(Some(T))))
  {
    var T := |st.blocks|;
    var st2 := ForHead(st, s.ctx);
    ForHeadShape(st, s.ctx);
    LoopBodyKeep(st2, s, T, T + 1, n.body, Cur(st, s.ctx));
    LoopBodyKeep(st2, s, T, T + 1, n.body, T);
    LoopBodyKeep(st2, s, T, T + 1, n.body, T + 1);
    if Straight(n.body) || n.body == Break {
      LoopBodyBackEdge(st2, s, T, T + 1, n.body);
    }
    assert Cur(st, s.ctx) < T;
    var env4 := CopyContext(st3.env, s.ctx, T + 1);
    assert env4.ctxs[|st3.env.ctxs|].block == T + 1;
    assert st3.env.ctxs[s.ctx] == st.env.ctxs[s.ctx];
  }

  /**
   * How a `for` is wired: blocks `-for` and `-leave-for` named after one
   * `blockName` value and owned by the current function; the current block
   * branches into the loop block; the leave block is empty and
   * unterminated, and lowering continues in a copy of the context on it.
   * As written, the back edge replaces the last terminator of the body: a
   * body that sets none, and a body that is just `break`, both leave the
   * loop block branching to itself.
   */
  lemma ForWiring(st: GenState, s: Scope, n: Node)
    requires Valid(st) && s.ctx < |st.env.ctxs| && n.For? && LowerFor(st, s, n).Ok?
    ensures
      var (s2, st4) := LowerFor(st, s, n).value;
      var T, tag, fn := |st.blocks|, BlockLabel(st.blockIndex), Owner(st, s.ctx);
      && T + 2 <= |st4.blocks|
      && st4.blocks[Cur(st, s.ctx)].term == Some(Br(Some(T)))
      && st4.blocks[T].name == tag + "-for" && st4.blocks[T].owner == fn
      && st4.blocks[T + 1] == BasicBlock(tag + "-leave-for", fn, [], None)
      && Cur(st4, s2.ctx) == T + 1 && SharesTables(st4.env.ctxs[s2.ctx], st.env.ctxs[s.ctx])
      && st.blockIndex < st4.blockIndex
      && (Straight(n.body) || n.body == Break ==> st4.blocks[T].term == Some(Br(Some(T))))
  {
    ForOkSteps(st, s, n);
    var st3 := LowerLoopBody(ForHead(st, s.ctx), s, |st.blocks|, |st.blocks| + 1, n.body).value;
    ForResult(st, s, n, st3);
    ForWiringSteps(st, s, n, st3);
  }

  /**
   * `for { if (c) break }`: the loop block branches on `c` to the if's
   * then block and to its leave block; the then block jumps to the loop's
   * leave block; the if's leave block carries the back edge.
   */
  lemma BreakInsideIfLeavesLoop(st: GenState, s: Scope, n: Node)
    requires Valid(st) && s.ctx < |st.env.ctxs|
    requires n.For? && n.body.If? && n.body.thenBranch == Break && n.body.elseBranch.None?
    requires LowerFor(st, s, n).Ok?
    ensures
      var st4, T := LowerFor(st, s, n).value.1, |st.blocks|;
      && T + 4 <= |st4.blocks|
      && BranchesTo(st4.blocks[T].term, T + 2, T + 3)
      && st4.blocks[T + 2].term == Some(Br(Some(T + 1)))
      && st4.blocks[T + 3].term == Some(Br(Some(T)))
  {
    var T := |st.blocks|;
    var st2 := ForHead(st, s.ctx);
    ForOkSteps(st, s, n);
    var st3 := LowerLoopBody(st2, s, T, T + 1, n.body).value;
    ForResult(st, s, n, st3);
    var child := st2.(env := NewChildContext(st2.env, s.ctx, T));
    var cs := Scope(|st2.env.ctxs|, None, Some(T + 1));
    LoopBodyOk(st2, s, T, T + 1, n.body);
    var p := LowerStmt(child, cs, n.body).value;
    LoopBodyResult(st2, s, T, T + 1, n.body, p.0, p.1);
    StmtCases(child, cs, n.body);
    IfWiring(child, cs, n.body);
    assert |child.blocks| == T + 2 && Cur(child, cs.ctx) == T;
    assert Cur(p.1, p.0.ctx) == T + 3;
    assert st3 == SetTerm(p.1, T + 3, Br(Some(T)));
  }
}
