/**
 * FunctionPropertiesAnalysis.cpp: the two feature extractors, written as the
 * block and instruction loops they are, each proved to compute the documented
 * meaning of every counter (FunctionProperties.Properties and
 * FunctionProperties.SmallProperties), plus the facts about those counters
 * that the predictor relies on.
 *
 * The extractors fill the record's counters one by one; here each counter is a
 * local variable and the record is assembled when the loops are done.
 */
module FunctionPropertiesAnalysis {
  import opened Wrappers
  import opened IR
  import opened FunctionProperties

  /** The operand loop of getFunctionPropertiesInfo over the types of the
      constant operands of one instruction: how many are integer constants and
      how many are (32-bit) float constants. */
  method CountConstantOperands(ops: seq<TypeKind>) returns (ints: nat, floats: nat)
    ensures ints == CountKind(ops, IntegerTy)
    ensures floats == CountKind(ops, FloatTy)
  {
    ints, floats := 0, 0;
    for o := 0 to |ops|
      invariant ints == CountKind(ops[..o], IntegerTy)
      invariant floats == CountKind(ops[..o], FloatTy)
    {
      assert ops[..o + 1][..o] == ops[..o];
      if ops[o] == IntegerTy {
        ints := ints + 1;
      } else if ops[o] == FloatTy {
        floats := floats + 1;
      }
    }
    assert ops[..|ops|] == ops;
  }

  /** The instruction loop of getFunctionPropertiesInfo over the instructions
      `ins` of one block: the six per-instruction counters it adds, and the
      increments it makes to the opcode histogram `opCodeCount`. */
  method CountInstructions(ins: seq<Instruction>, opCodeCount: array<int>)
    returns (directCalls: nat, floatOps: nat, integerOps: nat,
             integerConstants: nat, floatConstants: nat, casts: nat)
    requires opCodeCount.Length == OtherOpsEnd
    modifies opCodeCount
    ensures directCalls == SumOverInsts(ins, DirectCall)
    ensures floatOps == SumOverInsts(ins, FloatBinaryOp)
    ensures integerOps == SumOverInsts(ins, IntegerBinaryOp)
    ensures integerConstants == SumOverInsts(ins, IntegerConstant)
    ensures floatConstants == SumOverInsts(ins, FloatConstant)
    ensures casts == SumOverInsts(ins, Cast)
    ensures forall k | 0 <= k < OtherOpsEnd :: opCodeCount[k] == old(opCodeCount[k]) + OpcodeCountIn(ins, k)
  {
    directCalls, floatOps, integerOps, integerConstants, floatConstants, casts := 0, 0, 0, 0, 0, 0;
    for j := 0 to |ins|
      invariant directCalls == SumOverInsts(ins[..j], DirectCall)
      invariant floatOps == SumOverInsts(ins[..j], FloatBinaryOp)
      invariant integerOps == SumOverInsts(ins[..j], IntegerBinaryOp)
      invariant integerConstants == SumOverInsts(ins[..j], IntegerConstant)
      invariant floatConstants == SumOverInsts(ins[..j], FloatConstant)
      invariant casts == SumOverInsts(ins[..j], Cast)
      invariant forall k | 0 <= k < OtherOpsEnd :: opCodeCount[k] == old(opCodeCount[k]) + OpcodeCountIn(ins[..j], k)
    {
      var inst := ins[j];
      assert ins[..j + 1][..j] == ins[..j];
      match inst.call {
        case CallTo(Some(callee)) =>
          if !callee.isIntrinsic && !callee.isDeclaration {
            directCalls := directCalls + 1;
          }
        case _ =>
      }
      assert directCalls == SumOverInsts(ins[..j + 1], DirectCall);
      if inst.isBinaryOp && inst.resultType == FloatTy {
        floatOps := floatOps + 1;
      } else if inst.isBinaryOp && inst.resultType == IntegerTy {
        integerOps := integerOps + 1;
      }
      assert floatOps == SumOverInsts(ins[..j + 1], FloatBinaryOp);
      assert integerOps == SumOverInsts(ins[..j + 1], IntegerBinaryOp);
      var ints, floats := CountConstantOperands(inst.constantOperands);
      integerConstants, floatConstants := integerConstants + ints, floatConstants + floats;
      if inst.isCast {
        casts := casts + 1;
      }
      opCodeCount[inst.opcode] := opCodeCount[inst.opcode] + 1;
    }
    assert ins[..|ins|] == ins;
  }

  /** What one iteration of the block loop of getFunctionPropertiesInfo adds
      to the counters for the block `bb` (the opcode histogram is kept in its
      own array). */
  ghost function AddBlock(fpi: FunctionPropertiesInfo, bb: Block): FunctionPropertiesInfo {
    FunctionPropertiesInfo(
      Uses := fpi.Uses,
      InstructionCount := fpi.InstructionCount,
      TopLevelLoopCount := fpi.TopLevelLoopCount,
      OpCodeCount := fpi.OpCodeCount,
      BasicBlockCount := fpi.BasicBlockCount + 1,
      BlocksReachedFromConditionalInstruction := fpi.BlocksReachedFromConditionalInstruction + ConditionalSuccessors(bb),
      BasicBlockWithSingleSuccessor := fpi.BasicBlockWithSingleSuccessor + (if InClass(bb, SingleSuccessor) then 1 else 0),
      BasicBlockWithTwoSuccessors := fpi.BasicBlockWithTwoSuccessors + (if InClass(bb, TwoSuccessors) then 1 else 0),
      BasicBlockWithMoreThanTwoSuccessors := fpi.BasicBlockWithMoreThanTwoSuccessors + (if InClass(bb, MoreThanTwoSuccessors) then 1 else 0),
      BasicBlockWithSinglePredecessor := fpi.BasicBlockWithSinglePredecessor + (if InClass(bb, SinglePredecessor) then 1 else 0),
      BasicBlockWithTwoPredecessors := fpi.BasicBlockWithTwoPredecessors + (if InClass(bb, TwoPredecessors) then 1 else 0),
      BasicBlockWithMoreThanTwoPredecessors := fpi.BasicBlockWithMoreThanTwoPredecessors + (if InClass(bb, MoreThanTwoPredecessors) then 1 else 0),
      BigBasicBlock := fpi.BigBasicBlock + (if InClass(bb, BigBlock) then 1 else 0),
      MediumBasicBlock := fpi.MediumBasicBlock + (if InClass(bb, MediumBlock) then 1 else 0),
      SmallBasicBlock := fpi.SmallBasicBlock + (if InClass(bb, SmallBlock) then 1 else 0),
      DirectCallsToDefinedFunctions := fpi.DirectCallsToDefinedFunctions + SumOverInsts(bb.insts, DirectCall),
      FloatingPointInstCount := fpi.FloatingPointInstCount + SumOverInsts(bb.insts, FloatBinaryOp),
      IntegerInstCount := fpi.IntegerInstCount + SumOverInsts(bb.insts, IntegerBinaryOp),
      IntegerConstantOccurrences := fpi.IntegerConstantOccurrences + SumOverInsts(bb.insts, IntegerConstant),
      FloatingConstantOccurrences := fpi.FloatingConstantOccurrences + SumOverInsts(bb.insts, FloatConstant),
      CastInstCount := fpi.CastInstCount + SumOverInsts(bb.insts, Cast),
      MaxLoopDepth := if fpi.MaxLoopDepth < bb.loopDepth then bb.loopDepth else fpi.MaxLoopDepth)
  }

  /** The block-shape part of the body of the block loop of
      getFunctionPropertiesInfo: the successors the block's terminator reaches
      conditionally, and a 1 for the one successor bucket, predecessor bucket
      and size bucket the block falls into (0 for the other buckets). */
  method ClassifyBlock(bb: Block)
    returns (reached: nat, singleSucc: nat, twoSucc: nat, manySucc: nat,
             singlePred: nat, twoPred: nat, manyPred: nat,
             big: nat, medium: nat, small: nat)
    ensures reached == ConditionalSuccessors(bb)
    ensures singleSucc == (if InClass(bb, SingleSuccessor) then 1 else 0)
    ensures twoSucc == (if InClass(bb, TwoSuccessors) then 1 else 0)
    ensures manySucc == (if InClass(bb, MoreThanTwoSuccessors) then 1 else 0)
    ensures singlePred == (if InClass(bb, SinglePredecessor) then 1 else 0)
    ensures twoPred == (if InClass(bb, TwoPredecessors) then 1 else 0)
    ensures manyPred == (if InClass(bb, MoreThanTwoPredecessors) then 1 else 0)
    ensures big == (if InClass(bb, BigBlock) then 1 else 0)
    ensures medium == (if InClass(bb, MediumBlock) then 1 else 0)
    ensures small == (if InClass(bb, SmallBlock) then 1 else 0)
  {
    reached := 0;
    match bb.terminator {
      case Branch(isConditional, n) =>
        if isConditional {
          reached := n;
        }
      case Switch(cases, hasDefault) =>
        reached := cases + (if hasDefault then 1 else 0);
      case OtherTerminator =>
    }
    assert reached == ConditionalSuccessors(bb);

    singleSucc, twoSucc, manySucc := 0, 0, 0;
    if bb.succCount == 1 {
      singleSucc := 1;
    } else if bb.succCount == 2 {
      twoSucc := 1;
    } else if bb.succCount > 2 {
      manySucc := 1;
    }
    assert singleSucc == (if InClass(bb, SingleSuccessor) then 1 else 0);
    assert twoSucc == (if InClass(bb, TwoSuccessors) then 1 else 0);
    assert manySucc == (if InClass(bb, MoreThanTwoSuccessors) then 1 else 0);

    singlePred, twoPred, manyPred := 0, 0, 0;
    if bb.predCount == 1 {
      singlePred := 1;
    } else if bb.predCount == 2 {
      twoPred := 1;
    } else if bb.predCount > 2 {
      manyPred := 1;
    }
    assert singlePred == (if InClass(bb, SinglePredecessor) then 1 else 0);
    assert twoPred == (if InClass(bb, TwoPredecessors) then 1 else 0);
    assert manyPred == (if InClass(bb, MoreThanTwoPredecessors) then 1 else 0);

    big, medium, small := 0, 0, 0;
    if |bb.insts| > 500 {
      big := 1;
    } else if |bb.insts| >= 15 {
      medium := 1;
    } else {
      small := 1;
    }
    assert big == (if InClass(bb, BigBlock) then 1 else 0);
    assert medium == (if InClass(bb, MediumBlock) then 1 else 0);
    assert small == (if InClass(bb, SmallBlock) then 1 else 0);
  }

  /** The body of the block loop of getFunctionPropertiesInfo for the block
      `bb`: it adds the block's counters to `fpi` and its opcodes to the
      histogram `opCodeCount` (the increments are computed first and then
      added to the record). */
  method VisitBlock(fpi: FunctionPropertiesInfo, bb: Block, opCodeCount: array<int>)
    returns (r: FunctionPropertiesInfo)
    requires opCodeCount.Length == OtherOpsEnd
    modifies opCodeCount
    ensures r == AddBlock(fpi, bb)
    ensures forall k | 0 <= k < OtherOpsEnd :: opCodeCount[k] == old(opCodeCount[k]) + OpcodeCountIn(bb.insts, k)
  {
    var dc, fo, io, ic, fc, ca := CountInstructions(bb.insts, opCodeCount);
    var reached, singleSucc, twoSucc, manySucc, singlePred, twoPred, manyPred, big, medium, small := ClassifyBlock(bb);

    var maxLoopDepth := fpi.MaxLoopDepth;
    if maxLoopDepth < bb.loopDepth {
      maxLoopDepth := bb.loopDepth;
    }

    r := FunctionPropertiesInfo(
              Uses := fpi.Uses,
              InstructionCount := fpi.InstructionCount,
              TopLevelLoopCount := fpi.TopLevelLoopCount,
              OpCodeCount := fpi.OpCodeCount,
              BasicBlockCount := fpi.BasicBlockCount + 1,
              BlocksReachedFromConditionalInstruction := fpi.BlocksReachedFromConditionalInstruction + reached,
              BasicBlockWithSingleSuccessor := fpi.BasicBlockWithSingleSuccessor + singleSucc,
              BasicBlockWithTwoSuccessors := fpi.BasicBlockWithTwoSuccessors + twoSucc,
              BasicBlockWithMoreThanTwoSuccessors := fpi.BasicBlockWithMoreThanTwoSuccessors + manySucc,
              BasicBlockWithSinglePredecessor := fpi.BasicBlockWithSinglePredecessor + singlePred,
              BasicBlockWithTwoPredecessors := fpi.BasicBlockWithTwoPredecessors + twoPred,
              BasicBlockWithMoreThanTwoPredecessors := fpi.BasicBlockWithMoreThanTwoPredecessors + manyPred,
              BigBasicBlock := fpi.BigBasicBlock + big,
              MediumBasicBlock := fpi.MediumBasicBlock + medium,
              SmallBasicBlock := fpi.SmallBasicBlock + small,
              DirectCallsToDefinedFunctions := fpi.DirectCallsToDefinedFunctions + dc,
              FloatingPointInstCount := fpi.FloatingPointInstCount + fo,
              IntegerInstCount := fpi.IntegerInstCount + io,
              IntegerConstantOccurrences := fpi.IntegerConstantOccurrences + ic,
              FloatingConstantOccurrences := fpi.FloatingConstantOccurrences + fc,
              CastInstCount := fpi.CastInstCount + ca,
              MaxLoopDepth := maxLoopDepth);
  }

  /** The counters once the block loop has visited the blocks `bs`. */
  ghost function Visited(f: Function, bs: seq<Block>): FunctionPropertiesInfo {
    if bs == [] then
      ZeroInfo().(Uses := (if !f.hasLocalLinkage then 1 else 0) + f.numUses,
                  InstructionCount := InstructionCount(f.blocks))
    else AddBlock(Visited(f, bs[..|bs| - 1]), bs[|bs| - 1])
  }

  /** After visiting `bs`, every counter of the block loop holds its
      documented meaning over `bs`. */
  lemma {:induction false} VisitedCounts(f: Function, bs: seq<Block>)
    ensures Visited(f, bs).BasicBlockCount == |bs|
    ensures Visited(f, bs).BlocksReachedFromConditionalInstruction == SumConditionalSuccessors(bs)
    ensures Visited(f, bs).Uses == Properties(f).Uses
    ensures Visited(f, bs).InstructionCount == Properties(f).InstructionCount
    ensures Visited(f, bs).TopLevelLoopCount == 0
    ensures Visited(f, bs).OpCodeCount == ZeroInfo().OpCodeCount
    ensures Visited(f, bs).MaxLoopDepth == MaxLoopDepth(bs)
    ensures Visited(f, bs).BasicBlockWithSingleSuccessor == CountBlocks(bs, SingleSuccessor)
    ensures Visited(f, bs).BasicBlockWithTwoSuccessors == CountBlocks(bs, TwoSuccessors)
    ensures Visited(f, bs).BasicBlockWithMoreThanTwoSuccessors == CountBlocks(bs, MoreThanTwoSuccessors)
    ensures Visited(f, bs).BasicBlockWithSinglePredecessor == CountBlocks(bs, SinglePredecessor)
    ensures Visited(f, bs).BasicBlockWithTwoPredecessors == CountBlocks(bs, TwoPredecessors)
    ensures Visited(f, bs).BasicBlockWithMoreThanTwoPredecessors == CountBlocks(bs, MoreThanTwoPredecessors)
    ensures Visited(f, bs).BigBasicBlock == CountBlocks(bs, BigBlock)
    ensures Visited(f, bs).MediumBasicBlock == CountBlocks(bs, MediumBlock)
    ensures Visited(f, bs).SmallBasicBlock == CountBlocks(bs, SmallBlock)
    ensures Visited(f, bs).DirectCallsToDefinedFunctions == SumOverBlocks(bs, DirectCall)
    ensures Visited(f, bs).FloatingPointInstCount == SumOverBlocks(bs, FloatBinaryOp)
    ensures Visited(f, bs).IntegerInstCount == SumOverBlocks(bs, IntegerBinaryOp)
    ensures Visited(f, bs).IntegerConstantOccurrences == SumOverBlocks(bs, IntegerConstant)
    ensures Visited(f, bs).FloatingConstantOccurrences == SumOverBlocks(bs, FloatConstant)
    ensures Visited(f, bs).CastInstCount == SumOverBlocks(bs, Cast)
  {
    if bs != [] {
      VisitedCounts(f, bs[..|bs| - 1]);
    }
  }

  /** Once every block is visited, adding the top-level loop count and the
      opcode histogram gives the documented counters. */
  lemma VisitedAll(f: Function)
    ensures Visited(f, f.blocks).TopLevelLoopCount == 0
    ensures Visited(f, f.blocks).(TopLevelLoopCount := f.topLevelLoops,
                                  OpCodeCount := Histogram(f.blocks, OtherOpsEnd)) == Properties(f)
  {
    VisitedCounts(f, f.blocks);
  }

  /** Visiting one more block applies AddBlock to the counters and adds
      the block's instructions to every opcode count. */
  lemma VisitedStep(f: Function, bs: seq<Block>, bi: nat)
    requires bi < |bs|
    ensures Visited(f, bs[..bi + 1]) == AddBlock(Visited(f, bs[..bi]), bs[bi])
    ensures forall k :: OpcodeTotal(bs[..bi + 1], k) == OpcodeTotal(bs[..bi], k) + OpcodeCountIn(bs[bi].insts, k)
  {
    assert bs[..bi + 1][..bi] == bs[..bi];
  }

  /** An array of opcode counts that agrees with OpcodeTotal slot by slot is
      the histogram. */
  lemma HistogramIs(h: seq<int>, bs: seq<Block>)
    requires |h| == OtherOpsEnd
    requires forall k | 0 <= k < OtherOpsEnd :: h[k] == OpcodeTotal(bs, k)
    ensures h == Histogram(bs, OtherOpsEnd)
  {
  }

  /** getFunctionPropertiesInfo: one pass over the blocks of `f` in layout
      order, computing every documented counter. The opcode histogram is a
      fixed-size array of OtherOpsEnd counters, one per opcode, Freeze included. */
  method GetFunctionPropertiesInfo(f: Function) returns (fpi: FunctionPropertiesInfo)
    ensures fpi == Properties(f)
  {
    fpi := ZeroInfo();
    var opCodeCount := new int[OtherOpsEnd](_ => 0);
    fpi := fpi.(Uses := (if !f.hasLocalLinkage then 1 else 0) + f.numUses);
    fpi := fpi.(InstructionCount := InstructionCount(f.blocks));
    var bs := f.blocks;
    for bi := 0 to |bs|
      invariant fpi == Visited(f, bs[..bi])
      invariant forall k | 0 <= k < OtherOpsEnd :: opCodeCount[k] == OpcodeTotal(bs[..bi], k)
    {
      VisitedStep(f, bs, bi);
      fpi := VisitBlock(fpi, bs[bi], opCodeCount);
    }
    assert bs[..|bs|] == bs;
    HistogramIs(opCodeCount[..], bs);
    VisitedAll(f);
    fpi := fpi.(TopLevelLoopCount := fpi.TopLevelLoopCount + f.topLevelLoops,
                OpCodeCount := opCodeCount[..]);
  }

  // ---------------------------------------------------------------------------
  // getFunctionPropertiesSmall

  /** The instruction loop of getFunctionPropertiesSmall over the instructions
      `ins` of one block. The opcode switch has cases for Load, Store, PHI and
      GetElementPtr; its Call and Alloca cases also increment the GEP counter. */
  method CountSmallInstructions(ins: seq<Instruction>)
    returns (integerOps: nat, integerConstants: nat, loads: nat, stores: nat, phis: nat, geps: nat)
    ensures integerOps == SumOverInsts(ins, IntegerBinaryOp)
    ensures integerConstants == SumOverInsts(ins, IntegerConstant)
    ensures loads == OpcodeCountIn(ins, OpLoad)
    ensures stores == OpcodeCountIn(ins, OpStore)
    ensures phis == OpcodeCountIn(ins, OpPHI)
    ensures geps == OpcodeCountIn(ins, OpGetElementPtr) + OpcodeCountIn(ins, OpCall) + OpcodeCountIn(ins, OpAlloca)
  {
    integerOps, integerConstants, loads, stores, phis, geps := 0, 0, 0, 0, 0, 0;
    for j := 0 to |ins|
      invariant integerOps == SumOverInsts(ins[..j], IntegerBinaryOp)
      invariant integerConstants == SumOverInsts(ins[..j], IntegerConstant)
      invariant loads == OpcodeCountIn(ins[..j], OpLoad)
      invariant stores == OpcodeCountIn(ins[..j], OpStore)
      invariant phis == OpcodeCountIn(ins[..j], OpPHI)
      invariant geps == OpcodeCountIn(ins[..j], OpGetElementPtr) + OpcodeCountIn(ins[..j], OpCall)
                        + OpcodeCountIn(ins[..j], OpAlloca)
    {
      var inst := ins[j];
      assert ins[..j + 1][..j] == ins[..j];
      if inst.isBinaryOp && inst.resultType == IntegerTy {
        integerOps := integerOps + 1;
      }
      var ints, _ := CountConstantOperands(inst.constantOperands);
      integerConstants := integerConstants + ints;
      if inst.opcode == OpLoad {
        loads := loads + 1;
      } else if inst.opcode == OpStore {
        stores := stores + 1;
      } else if inst.opcode == OpPHI {
        phis := phis + 1;
      } else if inst.opcode == OpGetElementPtr {
        geps := geps + 1;
      } else if inst.opcode == OpCall {
        geps := geps + 1;
      } else if inst.opcode == OpAlloca {
        geps := geps + 1;
      }
    }
    assert ins[..|ins|] == ins;
  }

  /** What one iteration of the block loop of getFunctionPropertiesSmall adds
      to the small record for the block `bb`. */
  ghost function AddSmallBlock(fpi: FunctionPropertiesSmall, bb: Block): FunctionPropertiesSmall {
    fpi.(BasicBlockCount := fpi.BasicBlockCount + 1,
         BasicBlockWithSingleSuccessor := fpi.BasicBlockWithSingleSuccessor + (if InClass(bb, SingleSuccessor) then 1 else 0),
         BasicBlockWithSinglePredecessor := fpi.BasicBlockWithSinglePredecessor + (if InClass(bb, SinglePredecessor) then 1 else 0),
         IntegerInstCount := fpi.IntegerInstCount + SumOverInsts(bb.insts, IntegerBinaryOp),
         IntegerConstantOccurrences := fpi.IntegerConstantOccurrences + SumOverInsts(bb.insts, IntegerConstant),
         Load := fpi.Load + OpcodeCountIn(bb.insts, OpLoad),
         Store := fpi.Store + OpcodeCountIn(bb.insts, OpStore),
         PHI := fpi.PHI + OpcodeCountIn(bb.insts, OpPHI),
         GEP := fpi.GEP + OpcodeCountIn(bb.insts, OpGetElementPtr) + OpcodeCountIn(bb.insts, OpCall)
                + OpcodeCountIn(bb.insts, OpAlloca),
         MaxLoopDepth := if fpi.MaxLoopDepth < bb.loopDepth then bb.loopDepth else fpi.MaxLoopDepth)
  }

  /** The body of the block loop of getFunctionPropertiesSmall for the block `bb`. */
  method VisitSmallBlock(fpi: FunctionPropertiesSmall, bb: Block) returns (r: FunctionPropertiesSmall)
    ensures r == AddSmallBlock(fpi, bb)
  {
    r := fpi.(BasicBlockCount := fpi.BasicBlockCount + 1);
    if bb.succCount == 1 {
      r := r.(BasicBlockWithSingleSuccessor := r.BasicBlockWithSingleSuccessor + 1);
    }
    if bb.predCount == 1 {
      r := r.(BasicBlockWithSinglePredecessor := r.BasicBlockWithSinglePredecessor + 1);
    }
    var io, ic, ld, st, ph, gp := CountSmallInstructions(bb.insts);
    r := r.(IntegerInstCount := r.IntegerInstCount + io,
            IntegerConstantOccurrences := r.IntegerConstantOccurrences + ic,
            Load := r.Load + ld, Store := r.Store + st, PHI := r.PHI + ph,
            GEP := r.GEP + gp);
    if r.MaxLoopDepth < bb.loopDepth {
      r := r.(MaxLoopDepth := bb.loopDepth);
    }
  }

  /** The small record once the block loop has visited the blocks `bs`. */
  ghost function SmallVisited(f: Function, bs: seq<Block>): FunctionPropertiesSmall {
    if bs == [] then ZeroSmall().(InstructionCount := InstructionCount(f.blocks))
    else AddSmallBlock(SmallVisited(f, bs[..|bs| - 1]), bs[|bs| - 1])
  }

  /** After visiting `bs`, every counter of the small record holds its
      documented meaning over `bs`. */
  lemma {:induction false} SmallVisitedCounts(f: Function, bs: seq<Block>)
    ensures SmallVisited(f, bs) == SmallProperties(f.(blocks := bs)).(InstructionCount := InstructionCount(f.blocks),
                                                                     TopLevelLoopCount := 0)
  {
    if bs != [] {
      SmallVisitedCounts(f, bs[..|bs| - 1]);
    }
  }

  /** getFunctionPropertiesSmall: one pass over the blocks of `f`. Call and
      Alloca are never incremented, and GEP counts GetElementPtr, Call and
      Alloca instructions together. */
  method GetFunctionPropertiesSmall(f: Function) returns (fpi: FunctionPropertiesSmall)
    ensures fpi == SmallProperties(f)
    ensures fpi.Call == 0 && fpi.Alloca == 0
    ensures fpi.GEP == OpcodeTotal(f.blocks, OpGetElementPtr) + OpcodeTotal(f.blocks, OpCall)
                       + OpcodeTotal(f.blocks, OpAlloca)
  {
    fpi := ZeroSmall();
    fpi := fpi.(InstructionCount := InstructionCount(f.blocks));
    var bs := f.blocks;
    for bi := 0 to |bs|
      invariant fpi == SmallVisited(f, bs[..bi])
    {
      assert bs[..bi + 1][..bi] == bs[..bi];
      fpi := VisitSmallBlock(fpi, bs[bi]);
    }
    assert bs[..|bs|] == bs;
    SmallVisitedCounts(f, bs);
    assert f.(blocks := bs) == f;
    fpi := fpi.(TopLevelLoopCount := fpi.TopLevelLoopCount + f.topLevelLoops);
  }

  // ---------------------------------------------------------------------------
  // Facts about the counters

  /** Every block is in exactly one size bucket: Small + Medium + Big is the
      number of blocks. */
  lemma {:induction false} SizeBucketsPartition(bs: seq<Block>)
    ensures CountBlocks(bs, SmallBlock) + CountBlocks(bs, MediumBlock) + CountBlocks(bs, BigBlock) == |bs|
  {
    if bs != [] {
      SizeBucketsPartition(bs[..|bs| - 1]);
    }
  }

  /** Every block is in exactly one successor bucket once blocks without
      successors are counted too, so the three counted buckets add up to at
      most the number of blocks; the same holds for predecessors. */
  lemma {:induction false} DegreeBucketsPartition(bs: seq<Block>)
    ensures CountBlocks(bs, NoSuccessors) + CountBlocks(bs, SingleSuccessor)
            + CountBlocks(bs, TwoSuccessors) + CountBlocks(bs, MoreThanTwoSuccessors) == |bs|
    ensures CountBlocks(bs, NoPredecessors) + CountBlocks(bs, SinglePredecessor)
            + CountBlocks(bs, TwoPredecessors) + CountBlocks(bs, MoreThanTwoPredecessors) == |bs|
  {
    if bs != [] {
      DegreeBucketsPartition(bs[..|bs| - 1]);
    }
  }

  /** MaxLoopDepth is the largest loop depth of a block, and 0 when there are
      no blocks. */
  lemma {:induction false} MaxLoopDepthIsMax(bs: seq<Block>)
    ensures forall j | 0 <= j < |bs| :: bs[j].loopDepth <= MaxLoopDepth(bs)
    ensures bs == [] ==> MaxLoopDepth(bs) == 0
    ensures bs != [] ==> exists j | 0 <= j < |bs| :: bs[j].loopDepth == MaxLoopDepth(bs)
  {
    if bs != [] {
      var init := bs[..|bs| - 1];
      MaxLoopDepthIsMax(init);
      assert forall j | 0 <= j < |init| :: bs[j] == init[j];
      if init != [] && MaxLoopDepth(bs) == MaxLoopDepth(init) {
        var j :| 0 <= j < |init| && init[j].loopDepth == MaxLoopDepth(init);
        assert bs[j].loopDepth == MaxLoopDepth(bs);
      } else {
        assert bs[|bs| - 1].loopDepth == MaxLoopDepth(bs);
      }
    }
  }

  /** A binary operator adds to at most one of the float and the integer
      counters. */
  lemma {:induction false} TypedBinaryOpsInInsts(ins: seq<Instruction>)
    ensures SumOverInsts(ins, FloatBinaryOp) + SumOverInsts(ins, IntegerBinaryOp) <= SumOverInsts(ins, BinaryOp)
  {
    if ins != [] {
      TypedBinaryOpsInInsts(ins[..|ins| - 1]);
    }
  }

  /** FloatingPointInstCount + IntegerInstCount is at most the number of
      binary operators of the function. */
  lemma {:induction false} TypedBinaryOpsBound(bs: seq<Block>)
    ensures SumOverBlocks(bs, FloatBinaryOp) + SumOverBlocks(bs, IntegerBinaryOp) <= SumOverBlocks(bs, BinaryOp)
  {
    if bs != [] {
      TypedBinaryOpsBound(bs[..|bs| - 1]);
      TypedBinaryOpsInInsts(bs[|bs| - 1].insts);
    }
  }

  /** The sum of the entries of a histogram. */
  function Sum(h: seq<int>): int {
    if h == [] then 0 else Sum(h[..|h| - 1]) + h[|h| - 1]
  }

  /** The number of instructions of `ins` whose opcode is below `n`. */
  function CountBelow(ins: seq<Instruction>, n: nat): nat {
    if ins == [] then 0 else CountBelow(ins[..|ins| - 1], n) + (if ins[|ins| - 1].opcode < n then 1 else 0)
  }

  /** The number of instructions in all blocks of `bs` whose opcode is below `n`. */
  function TotalBelow(bs: seq<Block>, n: nat): nat {
    if bs == [] then 0 else TotalBelow(bs[..|bs| - 1], n) + CountBelow(bs[|bs| - 1].insts, n)
  }

  lemma {:induction false} TotalBelowZero(bs: seq<Block>)
    ensures TotalBelow(bs, 0) == 0
  {
    if bs != [] {
      TotalBelowZero(bs[..|bs| - 1]);
      CountBelowZero(bs[|bs| - 1].insts);
    }
  }

  lemma {:induction false} CountBelowZero(ins: seq<Instruction>)
    ensures CountBelow(ins, 0) == 0
  {
    if ins != [] {
      CountBelowZero(ins[..|ins| - 1]);
    }
  }

  lemma {:induction false} CountBelowStep(ins: seq<Instruction>, n: nat)
    ensures CountBelow(ins, n + 1) == CountBelow(ins, n) + OpcodeCountIn(ins, n)
  {
    if ins != [] {
      CountBelowStep(ins[..|ins| - 1], n);
    }
  }

  lemma {:induction false} TotalBelowStep(bs: seq<Block>, n: nat)
    ensures TotalBelow(bs, n + 1) == TotalBelow(bs, n) + OpcodeTotal(bs, n)
  {
    if bs != [] {
      TotalBelowStep(bs[..|bs| - 1], n);
      CountBelowStep(bs[|bs| - 1].insts, n);
    }
  }

  /** The first `n` slots of the histogram add up to the number of
      instructions with an opcode below `n`. */
  lemma {:induction false} HistogramPrefixSum(bs: seq<Block>, n: nat)
    ensures Sum(Histogram(bs, n)) == TotalBelow(bs, n)
  {
    if n == 0 {
      TotalBelowZero(bs);
    } else {
      HistogramPrefixSum(bs, n - 1);
      var h := Histogram(bs, n);
      assert h[..n - 1] == Histogram(bs, n - 1);
      assert h[n - 1] == OpcodeTotal(bs, n - 1);
      TotalBelowStep(bs, n - 1);
    }
  }

  lemma {:induction false} AllBelowInBlock(ins: seq<Instruction>)
    ensures CountBelow(ins, OtherOpsEnd) == |ins|
  {
    if ins != [] {
      AllBelowInBlock(ins[..|ins| - 1]);
    }
  }

  lemma {:induction false} AllBelow(bs: seq<Block>)
    ensures TotalBelow(bs, OtherOpsEnd) == InstructionCount(bs)
  {
    if bs != [] {
      AllBelow(bs[..|bs| - 1]);
      AllBelowInBlock(bs[|bs| - 1].insts);
    }
  }

  /** The opcode histogram accounts for every instruction exactly once: its
      entries add up to the instruction count of the function. */
  lemma OpcodeHistogramSum(f: Function)
    ensures Sum(Properties(f).OpCodeCount) == Properties(f).InstructionCount
  {
    HistogramPrefixSum(f.blocks, OtherOpsEnd);
    AllBelow(f.blocks);
  }

  /** The fields the small record shares with the full record hold the same
      values, and its Load, Store, PHI and GEP counters are read off the
      opcode histogram. */
  lemma SmallAgreesWithInfo(f: Function)
    ensures SmallProperties(f).BasicBlockCount == Properties(f).BasicBlockCount
    ensures SmallProperties(f).InstructionCount == Properties(f).InstructionCount
    ensures SmallProperties(f).BasicBlockWithSingleSuccessor == Properties(f).BasicBlockWithSingleSuccessor
    ensures SmallProperties(f).BasicBlockWithSinglePredecessor == Properties(f).BasicBlockWithSinglePredecessor
    ensures SmallProperties(f).IntegerInstCount == Properties(f).IntegerInstCount
    ensures SmallProperties(f).IntegerConstantOccurrences == Properties(f).IntegerConstantOccurrences
    ensures SmallProperties(f).MaxLoopDepth == Properties(f).MaxLoopDepth
    ensures SmallProperties(f).TopLevelLoopCount == Properties(f).TopLevelLoopCount
    ensures var h := Properties(f).OpCodeCount;
      SmallProperties(f).Load == h[OpLoad] && SmallProperties(f).Store == h[OpStore]
      && SmallProperties(f).PHI == h[OpPHI]
      && SmallProperties(f).GEP == h[OpGetElementPtr] + h[OpCall] + h[OpAlloca]
  {
  }
}
