/**
 * An abstract picture of the LLVM IR that generator.go builds through the
 * `llir` library. Only what the lowering engine decides is kept: which
 * instruction is appended to which block, which values flow where, and the
 * single terminator slot of each block. Blocks and functions live in the
 * module's arenas and are referred to by index.
 */
module Ir {
  import opened Common

  /**
   * A value the lowering can hand around. `Slot` is the pointer an `alloca`
   * yields (the `*i32` a `var` binds); the other three are direct `i32`
   * values: the result of an instruction, a function parameter, a constant.
   */
  datatype Value =
    | Slot(id: nat)
    | Reg(id: nat)
    | Param(func: nat, index: nat)
    | Const(n: int)
  {
    /** The type test `v.Type().Equal(types.NewPointer(types.I32))`. */
    predicate IsSlot() {
      Slot?
    }
  }

  datatype ArithOp = OpAdd | OpSub | OpMul | OpSDiv

  /** The integer comparison predicates `IPredEQ`, `IPredNE`, `IPredSLT`, `IPredSLE`. */
  datatype CmpPred = PredEQ | PredNE | PredSLT | PredSLE

  /** Instructions; `result` is the id of the value an instruction defines. */
  datatype Inst =
    | Alloca(result: nat)
    | Store(src: Value, dst: Value)
    | Load(result: nat, src: Value)
    | Arith(result: nat, op: ArithOp, lhs: Value, rhs: Value)
    | ICmp(result: nat, pred: CmpPred, lhs: Value, rhs: Value)
    | Call(result: nat, callee: nat, args: seq<Value>)

  /**
   * Block terminators. A `Br` built from a nil block pointer (a `break`
   * with no loop around it) has no target.
   */
  datatype Terminator =
    | Ret(value: Option<Value>)
    | Br(target: Option<nat>)
    | CondBr(cond: Value, ifTrue: nat, ifFalse: nat)

  /** A basic block: its name, the function it belongs to, its body and its one `Term` slot. */
  datatype BasicBlock = BasicBlock(name: string, owner: nat, insts: seq<Inst>, term: Option<Terminator>)

  /** A function: its name, its parameter names and its blocks in creation order. */
  datatype Func = Func(name: string, params: seq<string>, body: seq<nat>)

  datatype Module = Module(funcs: seq<Func>, blocks: seq<BasicBlock>)
}
