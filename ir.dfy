/**
 * The view of an LLVM IR function that the feature extractors and the inline
 * advisor read: its basic blocks in layout order, each block's CFG degree,
 * terminator, loop depth (as LoopInfo reports it) and instructions. The IR
 * itself, LoopInfo and the call graph are foreign analyses; their answers are
 * the fields below.
 */
module IR {
  import opened Wrappers

  /** Opcode numbering from LLVM's Instruction.def (LLVM 12): the opcodes run
      from 1 to Freeze = 67, and OtherOpsEnd, one past the last, is the size of
      the opcode histogram. */
  const OtherOpsEnd: nat := 68
  const OpFreeze: nat := 67
  const OpAlloca: nat := 31
  const OpLoad: nat := 32
  const OpStore: nat := 33
  const OpGetElementPtr: nat := 34
  const OpPHI: nat := 55
  const OpCall: nat := 56

  /** Kind of an IR type. FloatTy is the 32-bit `float` type only (what
      Type::isFloatTy tests); double and other floating types are OtherTy. */
  datatype TypeKind = IntegerTy | FloatTy | OtherTy

  /** The function a call instruction calls directly. */
  datatype Callee = Callee(name: string, isIntrinsic: bool, isDeclaration: bool)

  /** Whether an instruction is a CallBase, and if so its direct callee
      (None for an indirect call). */
  datatype CallKind = NotACall | CallTo(callee: Option<Callee>)

  /** An instruction's opcode: every instruction has one of the opcodes of
      Instruction.def, so it indexes the opcode histogram. */
  type Opcode = k: nat | 1 <= k < OtherOpsEnd witness 1

  datatype Instruction = Instruction(
    opcode: Opcode,
    isBinaryOp: bool,
    resultType: TypeKind,
    /** the type of each operand that is a Constant, in operand order */
    constantOperands: seq<TypeKind>,
    isCast: bool,
    call: CallKind)

  /** A block terminator: a BranchInst, a SwitchInst (its default destination
      may be absent), or any other terminator. */
  datatype Terminator =
    | Branch(isConditional: bool, numSuccessors: nat)
    | Switch(numCases: nat, hasDefault: bool)
    | OtherTerminator

  datatype Block = Block(
    succCount: nat,
    predCount: nat,
    terminator: Terminator,
    loopDepth: nat,
    insts: seq<Instruction>)

  /** A function of the module: its blocks, the number of its uses, its
      linkage, whether it is only a declaration, and the number of top-level
      loops LoopInfo finds in it. */
  datatype Function = Function(
    name: string,
    blocks: seq<Block>,
    numUses: nat,
    hasLocalLinkage: bool,
    isDeclaration: bool,
    topLevelLoops: nat)

  /** All instructions of a block list, in order (what `instructions(F)` visits). */
  function Instructions(bs: seq<Block>): (r: seq<Instruction>)
    ensures |r| == InstructionCount(bs)
  {
    if bs == [] then [] else Instructions(bs[..|bs| - 1]) + bs[|bs| - 1].insts
  }

  /** Function::getInstructionCount: the sum of the block sizes. */
  function InstructionCount(bs: seq<Block>): nat {
    if bs == [] then 0 else InstructionCount(bs[..|bs| - 1]) + |bs[|bs| - 1].insts|
  }
}
