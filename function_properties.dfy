/**
 * The two feature records of FunctionPropertiesAnalysis.h, their zero
 * defaults, and what each counter is documented to count, stated over the
 * blocks of an IR.Function.
 */
module FunctionProperties {
  import opened Wrappers
  import opened IR

  /** FunctionPropertiesInfo: the full feature record (int64_t counters; the
      counts of a real function stay far below 2^63, so they are unbounded here). */
  datatype FunctionPropertiesInfo = FunctionPropertiesInfo(
    BasicBlockCount: int,
    BlocksReachedFromConditionalInstruction: int,
    Uses: int,
    DirectCallsToDefinedFunctions: int,
    InstructionCount: int,
    MaxLoopDepth: int,
    TopLevelLoopCount: int,
    CastInstCount: int,
    BasicBlockWithSingleSuccessor: int,
    BasicBlockWithTwoSuccessors: int,
    BasicBlockWithMoreThanTwoSuccessors: int,
    BasicBlockWithSinglePredecessor: int,
    BasicBlockWithTwoPredecessors: int,
    BasicBlockWithMoreThanTwoPredecessors: int,
    BigBasicBlock: int,
    MediumBasicBlock: int,
    SmallBasicBlock: int,
    FloatingPointInstCount: int,
    IntegerInstCount: int,
    IntegerConstantOccurrences: int,
    FloatingConstantOccurrences: int,
    OpCodeCount: seq<int>)

  /** FunctionPropertiesSmall: the small subset of the features. */
  datatype FunctionPropertiesSmall = FunctionPropertiesSmall(
    InstructionCount: int,
    BasicBlockWithSingleSuccessor: int,
    BasicBlockWithSinglePredecessor: int,
    IntegerInstCount: int,
    IntegerConstantOccurrences: int,
    Store: int,
    Call: int,
    PHI: int,
    Load: int,
    Alloca: int,
    GEP: int,
    MaxLoopDepth: int,
    TopLevelLoopCount: int,
    BasicBlockCount: int)

  /** The opcode histogram has one counter per opcode value below OtherOpsEnd. */
  predicate WellFormed(fpi: FunctionPropertiesInfo) {
    |fpi.OpCodeCount| == OtherOpsEnd
  }

  /** A default-constructed FunctionPropertiesInfo. */
  function ZeroInfo(): (r: FunctionPropertiesInfo)
    ensures r.BasicBlockCount == 0 && r.BlocksReachedFromConditionalInstruction == 0
    ensures r.Uses == 0 && r.DirectCallsToDefinedFunctions == 0 && r.InstructionCount == 0
    ensures r.MaxLoopDepth == 0 && r.TopLevelLoopCount == 0 && r.CastInstCount == 0
    ensures r.BasicBlockWithSingleSuccessor == 0 && r.BasicBlockWithTwoSuccessors == 0
    ensures r.BasicBlockWithMoreThanTwoSuccessors == 0
    ensures r.BasicBlockWithSinglePredecessor == 0 && r.BasicBlockWithTwoPredecessors == 0
    ensures r.BasicBlockWithMoreThanTwoPredecessors == 0
    ensures r.BigBasicBlock == 0 && r.MediumBasicBlock == 0 && r.SmallBasicBlock == 0
    ensures r.FloatingPointInstCount == 0 && r.IntegerInstCount == 0
    ensures r.IntegerConstantOccurrences == 0 && r.FloatingConstantOccurrences == 0
    ensures |r.OpCodeCount| == OtherOpsEnd
    ensures forall k | 0 <= k < OtherOpsEnd :: r.OpCodeCount[k] == 0
  {
    FunctionPropertiesInfo(0, 0, 0, 0, 0, 0, 0, 0, 0, 0, 0, 0, 0, 0, 0, 0, 0, 0, 0, 0, 0,
                           seq(OtherOpsEnd, _ => 0))
  }

  /** A default-constructed FunctionPropertiesSmall. */
  function ZeroSmall(): (r: FunctionPropertiesSmall)
    ensures r.InstructionCount == 0 && r.BasicBlockWithSingleSuccessor == 0
    ensures r.BasicBlockWithSinglePredecessor == 0 && r.IntegerInstCount == 0
    ensures r.IntegerConstantOccurrences == 0 && r.Store == 0 && r.Call == 0 && r.PHI == 0
    ensures r.Load == 0 && r.Alloca == 0 && r.GEP == 0 && r.MaxLoopDepth == 0
    ensures r.TopLevelLoopCount == 0 && r.BasicBlockCount == 0
  {
    FunctionPropertiesSmall(0, 0, 0, 0, 0, 0, 0, 0, 0, 0, 0, 0, 0, 0)
  }

  // ---------------------------------------------------------------------------
  // Counting over blocks and instructions

  /** The number of blocks of `bs` in class `c`. */
  function CountBlocks(bs: seq<Block>, c: BlockClass): nat {
    if bs == [] then 0
    else CountBlocks(bs[..|bs| - 1], c) + (if InClass(bs[|bs| - 1], c) then 1 else 0)
  }

  /** The sum of the weights of class `c` of the instructions `ins`. */
  function SumOverInsts(ins: seq<Instruction>, c: InstClass): nat {
    if ins == [] then 0 else SumOverInsts(ins[..|ins| - 1], c) + Weight(ins[|ins| - 1], c)
  }

  /** The sum of the weights of class `c` of every instruction of every block of `bs`. */
  function SumOverBlocks(bs: seq<Block>, c: InstClass): nat {
    if bs == [] then 0 else SumOverBlocks(bs[..|bs| - 1], c) + SumOverInsts(bs[|bs| - 1].insts, c)
  }

  /** The number of instructions of `ins` with opcode `k`. */
  function OpcodeCountIn(ins: seq<Instruction>, k: nat): nat {
    if ins == [] then 0
    else OpcodeCountIn(ins[..|ins| - 1], k) + (if ins[|ins| - 1].opcode == k then 1 else 0)
  }

  /** The number of instructions with opcode `k` in all blocks of `bs`. */
  function OpcodeTotal(bs: seq<Block>, k: nat): nat {
    if bs == [] then 0 else OpcodeTotal(bs[..|bs| - 1], k) + OpcodeCountIn(bs[|bs| - 1].insts, k)
  }

  /** The opcode histogram of `bs` with `n` slots. */
  function Histogram(bs: seq<Block>, n: nat): (h: seq<int>)
    ensures |h| == n
  {
    seq(n, (k: int) requires 0 <= k => OpcodeTotal(bs, k))
  }

  /** The number of blocks a block's terminator reaches conditionally: all
      successors of a conditional branch, the cases of a switch plus its
      default destination if there is one, and none otherwise. */
  function ConditionalSuccessors(b: Block): nat {
    match b.terminator
    case Branch(isConditional, n) => if isConditional then n else 0
    case Switch(cases, hasDefault) => cases + (if hasDefault then 1 else 0)
    case OtherTerminator => 0
  }

  function SumConditionalSuccessors(bs: seq<Block>): nat {
    if bs == [] then 0
    else SumConditionalSuccessors(bs[..|bs| - 1]) + ConditionalSuccessors(bs[|bs| - 1])
  }

  /** The largest loop depth of a block of `bs`, 0 for no blocks. */
  function MaxLoopDepth(bs: seq<Block>): nat {
    if bs == [] then 0
    else var m := MaxLoopDepth(bs[..|bs| - 1]);
      if m < bs[|bs| - 1].loopDepth then bs[|bs| - 1].loopDepth else m
  }

  // Block classes

  /** The classes of blocks the record counts: by number of successors, by
      number of predecessors, and by size (more than 500 instructions, 15 to
      500, fewer than 15). Blocks without successors or without predecessors
      form a class of their own that the record does not count. */
  datatype BlockClass =
    | NoSuccessors | SingleSuccessor | TwoSuccessors | MoreThanTwoSuccessors
    | NoPredecessors | SinglePredecessor | TwoPredecessors | MoreThanTwoPredecessors
    | BigBlock | MediumBlock | SmallBlock

  predicate InClass(b: Block, c: BlockClass) {
    match c
    case NoSuccessors => b.succCount == 0
    case SingleSuccessor => b.succCount == 1
    case TwoSuccessors => b.succCount == 2
    case MoreThanTwoSuccessors => b.succCount > 2
    case NoPredecessors => b.predCount == 0
    case SinglePredecessor => b.predCount == 1
    case TwoPredecessors => b.predCount == 2
    case MoreThanTwoPredecessors => b.predCount > 2
    case BigBlock => |b.insts| > 500
    case MediumBlock => 15 <= |b.insts| <= 500
    case SmallBlock => |b.insts| < 15
  }

  // Instruction weights

  /** The per-instruction quantities the record sums: direct calls of
      functions that are defined in the module and are not intrinsics, binary
      operators (all, of 32-bit float type, of integer type), casts, and
      constant operands of integer and of float type. */
  datatype InstClass =
    | DirectCall | BinaryOp | FloatBinaryOp | IntegerBinaryOp | Cast
    | IntegerConstant | FloatConstant

  /** How much instruction `i` contributes to the sum for class `c`. */
  function Weight(i: Instruction, c: InstClass): nat {
    match c
    case DirectCall =>
      (match i.call
       case CallTo(Some(callee)) => if !callee.isIntrinsic && !callee.isDeclaration then 1 else 0
       case _ => 0)
    case BinaryOp => if i.isBinaryOp then 1 else 0
    case FloatBinaryOp => if i.isBinaryOp && i.resultType == FloatTy then 1 else 0
    case IntegerBinaryOp => if i.isBinaryOp && i.resultType == IntegerTy then 1 else 0
    case Cast => if i.isCast then 1 else 0
    case IntegerConstant => CountKind(i.constantOperands, IntegerTy)
    case FloatConstant => CountKind(i.constantOperands, FloatTy)
  }

  /** The number of entries of `ts` that are `k`. */
  function CountKind(ts: seq<TypeKind>, k: TypeKind): nat {
    if ts == [] then 0 else CountKind(ts[..|ts| - 1], k) + (if ts[|ts| - 1] == k then 1 else 0)
  }

  // ---------------------------------------------------------------------------
  // The documented meaning of every counter

  /** What each field of FunctionPropertiesInfo counts for the function `f`:
      Uses is the number of uses plus 1 when the function is callable outside
      the module (its linkage is not local); OpCodeCount[k] is the number of
      instructions with opcode k. */
  function Properties(f: Function): FunctionPropertiesInfo {
    var bs := f.blocks;
    FunctionPropertiesInfo(
      BasicBlockCount := |bs|,
      BlocksReachedFromConditionalInstruction := SumConditionalSuccessors(bs),
      Uses := f.numUses + (if f.hasLocalLinkage then 0 else 1),
      DirectCallsToDefinedFunctions := SumOverBlocks(bs, DirectCall),
      InstructionCount := InstructionCount(bs),
      MaxLoopDepth := MaxLoopDepth(bs),
      TopLevelLoopCount := f.topLevelLoops,
      CastInstCount := SumOverBlocks(bs, Cast),
      BasicBlockWithSingleSuccessor := CountBlocks(bs, SingleSuccessor),
      BasicBlockWithTwoSuccessors := CountBlocks(bs, TwoSuccessors),
      BasicBlockWithMoreThanTwoSuccessors := CountBlocks(bs, MoreThanTwoSuccessors),
      BasicBlockWithSinglePredecessor := CountBlocks(bs, SinglePredecessor),
      BasicBlockWithTwoPredecessors := CountBlocks(bs, TwoPredecessors),
      BasicBlockWithMoreThanTwoPredecessors := CountBlocks(bs, MoreThanTwoPredecessors),
      BigBasicBlock := CountBlocks(bs, BigBlock),
      MediumBasicBlock := CountBlocks(bs, MediumBlock),
      SmallBasicBlock := CountBlocks(bs, SmallBlock),
      FloatingPointInstCount := SumOverBlocks(bs, FloatBinaryOp),
      IntegerInstCount := SumOverBlocks(bs, IntegerBinaryOp),
      IntegerConstantOccurrences := SumOverBlocks(bs, IntegerConstant),
      FloatingConstantOccurrences := SumOverBlocks(bs, FloatConstant),
      OpCodeCount := Histogram(bs, OtherOpsEnd))
  }

  /** What each field of FunctionPropertiesSmall counts. Only Load, Store,
      PHI and GEP have an opcode case; the GEP counter also takes calls and
      allocas, and Call and Alloca are never incremented. */
  function SmallProperties(f: Function): FunctionPropertiesSmall {
    var bs := f.blocks;
    FunctionPropertiesSmall(
      InstructionCount := InstructionCount(bs),
      BasicBlockWithSingleSuccessor := CountBlocks(bs, SingleSuccessor),
      BasicBlockWithSinglePredecessor := CountBlocks(bs, SinglePredecessor),
      IntegerInstCount := SumOverBlocks(bs, IntegerBinaryOp),
      IntegerConstantOccurrences := SumOverBlocks(bs, IntegerConstant),
      Store := OpcodeTotal(bs, OpStore),
      Call := 0,
      PHI := OpcodeTotal(bs, OpPHI),
      Load := OpcodeTotal(bs, OpLoad),
      Alloca := 0,
      GEP := OpcodeTotal(bs, OpGetElementPtr) + OpcodeTotal(bs, OpCall) + OpcodeTotal(bs, OpAlloca),
      MaxLoopDepth := MaxLoopDepth(bs),
      TopLevelLoopCount := f.topLevelLoops,
      BasicBlockCount := |bs|)
  }
}
