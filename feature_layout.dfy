/**
 * The 87-slot feature vector of the pass-result models: the order in which
 * MLPassResultPredictor.cpp writes the counters of a FunctionPropertiesInfo
 * into a per-pass model's input buffer, one setFeature call per slot.
 * (FunctionPropertiesInfo::toVec, which feeds the all-passes model, is a
 * different function: only its length, 87, is known, see PassResultAnalysis.)
 *
 * The slots are the 21 scalar counters and the opcode counts 1..66, in the
 * lexicographic order of their JSON key names ("OpCodeCount_" followed by the
 * opcode number in decimal, as FunctionPropertiesInfo::toJSON writes them).
 */
module FeatureLayout {
  import opened IR
  import opened FunctionProperties

  /** The number of features of the pass-result models. */
  const FeatureCount: nat := 87

  /** One past the last opcode with a slot: like toJSON's opcode loop, the
      layout stops before Freeze, whose count has no slot. */
  const LayoutOpcodeEnd: nat := 67

  /** The scalar counters of FunctionPropertiesInfo. */
  datatype Counter =
    | BasicBlockCount
    | BlocksReachedFromConditionalInstruction
    | Uses
    | DirectCallsToDefinedFunctions
    | InstructionCount
    | MaxLoopDepth
    | TopLevelLoopCount
    | CastInstCount
    | BasicBlockWithSingleSuccessor
    | BasicBlockWithTwoSuccessors
    | BasicBlockWithMoreThanTwoSuccessors
    | BasicBlockWithSinglePredecessor
    | BasicBlockWithTwoPredecessors
    | BasicBlockWithMoreThanTwoPredecessors
    | BigBasicBlock
    | MediumBasicBlock
    | SmallBasicBlock
    | FloatingPointInstCount
    | IntegerInstCount
    | IntegerConstantOccurrences
    | FloatingConstantOccurrences

  /** A slot of the feature vector: a scalar counter, or the count of one opcode. */
  datatype Slot = Field(counter: Counter) | OpCode(opcode: nat)

  /** Slot i of the layout (MLPassResultPredictor.cpp writes slot i with setFeature(i, ...)). */
  function SlotAt(i: nat): Slot
    requires i < FeatureCount
  {
    match i
    case 0 => Field(BasicBlockCount)
    case 1 => Field(BasicBlockWithMoreThanTwoPredecessors)
    case 2 => Field(BasicBlockWithMoreThanTwoSuccessors)
    case 3 => Field(BasicBlockWithSinglePredecessor)
    case 4 => Field(BasicBlockWithSingleSuccessor)
    case 5 => Field(BasicBlockWithTwoPredecessors)
    case 6 => Field(BasicBlockWithTwoSuccessors)
    case 7 => Field(BigBasicBlock)
    case 8 => Field(BlocksReachedFromConditionalInstruction)
    case 9 => Field(CastInstCount)
    case 10 => Field(DirectCallsToDefinedFunctions)
    case 11 => Field(FloatingConstantOccurrences)
    case 12 => Field(FloatingPointInstCount)
    case 13 => Field(InstructionCount)
    case 14 => Field(IntegerConstantOccurrences)
    case 15 => Field(IntegerInstCount)
    case 16 => Field(MaxLoopDepth)
    case 17 => Field(MediumBasicBlock)
    case 18 => OpCode(1)
    case 19 => OpCode(10)
    case 20 => OpCode(11)
    case 21 => OpCode(12)
    case 22 => OpCode(13)
    case 23 => OpCode(14)
    case 24 => OpCode(15)
    case 25 => OpCode(16)
    case 26 => OpCode(17)
    case 27 => OpCode(18)
    case 28 => OpCode(19)
    case 29 => OpCode(2)
    case 30 => OpCode(20)
    case 31 => OpCode(21)
    case 32 => OpCode(22)
    case 33 => OpCode(23)
    case 34 => OpCode(24)
    case 35 => OpCode(25)
    case 36 => OpCode(26)
    case 37 => OpCode(27)
    case 38 => OpCode(28)
    case 39 => OpCode(29)
    case 40 => OpCode(3)
    case 41 => OpCode(30)
    case 42 => OpCode(31)
    case 43 => OpCode(32)
    case 44 => OpCode(33)
    case 45 => OpCode(34)
    case 46 => OpCode(35)
    case 47 => OpCode(36)
    case 48 => OpCode(37)
    case 49 => OpCode(38)
    case 50 => OpCode(39)
    case 51 => OpCode(4)
    case 52 => OpCode(40)
    case 53 => OpCode(41)
    case 54 => OpCode(42)
    case 55 => OpCode(43)
    case 56 => OpCode(44)
    case 57 => OpCode(45)
    case 58 => OpCode(46)
    case 59 => OpCode(47)
    case 60 => OpCode(48)
    case 61 => OpCode(49)
    case 62 => OpCode(5)
    case 63 => OpCode(50)
    case 64 => OpCode(51)
    case 65 => OpCode(52)
    case 66 => OpCode(53)
    case 67 => OpCode(54)
    case 68 => OpCode(55)
    case 69 => OpCode(56)
    case 70 => OpCode(57)
    case 71 => OpCode(58)
    case 72 => OpCode(59)
    case 73 => OpCode(6)
    case 74 => OpCode(60)
    case 75 => OpCode(61)
    case 76 => OpCode(62)
    case 77 => OpCode(63)
    case 78 => OpCode(64)
    case 79 => OpCode(65)
    case 80 => OpCode(66)
    case 81 => OpCode(7)
    case 82 => OpCode(8)
    case 83 => OpCode(9)
    case 84 => Field(SmallBasicBlock)
    case 85 => Field(TopLevelLoopCount)
    case _ => Field(Uses)
  }

  /** The layout as a sequence of slots. */
  const Layout: seq<Slot> := seq(FeatureCount, i requires 0 <= i < FeatureCount => SlotAt(i))

  /** The value of a scalar counter in `fpi`. */
  function CounterValue(fpi: FunctionPropertiesInfo, c: Counter): int {
    match c
    case BasicBlockCount => fpi.BasicBlockCount
    case BlocksReachedFromConditionalInstruction => fpi.BlocksReachedFromConditionalInstruction
    case Uses => fpi.Uses
    case DirectCallsToDefinedFunctions => fpi.DirectCallsToDefinedFunctions
    case InstructionCount => fpi.InstructionCount
    case MaxLoopDepth => fpi.MaxLoopDepth
    case TopLevelLoopCount => fpi.TopLevelLoopCount
    case CastInstCount => fpi.CastInstCount
    case BasicBlockWithSingleSuccessor => fpi.BasicBlockWithSingleSuccessor
    case BasicBlockWithTwoSuccessors => fpi.BasicBlockWithTwoSuccessors
    case BasicBlockWithMoreThanTwoSuccessors => fpi.BasicBlockWithMoreThanTwoSuccessors
    case BasicBlockWithSinglePredecessor => fpi.BasicBlockWithSinglePredecessor
    case BasicBlockWithTwoPredecessors => fpi.BasicBlockWithTwoPredecessors
    case BasicBlockWithMoreThanTwoPredecessors => fpi.BasicBlockWithMoreThanTwoPredecessors
    case BigBasicBlock => fpi.BigBasicBlock
    case MediumBasicBlock => fpi.MediumBasicBlock
    case SmallBasicBlock => fpi.SmallBasicBlock
    case FloatingPointInstCount => fpi.FloatingPointInstCount
    case IntegerInstCount => fpi.IntegerInstCount
    case IntegerConstantOccurrences => fpi.IntegerConstantOccurrences
    case FloatingConstantOccurrences => fpi.FloatingConstantOccurrences
  }

  /** The value a slot takes for `fpi`. */
  function SlotValue(fpi: FunctionPropertiesInfo, s: Slot): int
    requires WellFormed(fpi)
  {
    match s
    case Field(c) => CounterValue(fpi, c)
    case OpCode(k) => if k < OtherOpsEnd then fpi.OpCodeCount[k] else 0
  }

  /** The 87 features of `fpi` in layout order, as the setFeature calls of
      MLPassResultPredictor.cpp write them. Every scalar counter sits at its
      slot, and the count of every opcode 1..66 at the opcode's slot. */
  function LayoutVector(fpi: FunctionPropertiesInfo): (v: seq<int>)
    requires WellFormed(fpi)
    ensures |v| == FeatureCount
    ensures forall c: Counter :: v[FieldSlot(c)] == CounterValue(fpi, c)
    ensures forall k | 1 <= k < LayoutOpcodeEnd :: v[OpcodeSlot(k)] == fpi.OpCodeCount[k]
  {
    LayoutFields();
    LayoutOpcodes();
    seq(FeatureCount, i requires 0 <= i < FeatureCount => SlotValue(fpi, Layout[i]))
  }

  // ---------------------------------------------------------------------------
  // Where each counter sits

  /** The slot of a scalar counter. */
  function FieldSlot(c: Counter): (i: nat)
    ensures i < FeatureCount
  {
    match c
    case BasicBlockCount => 0
    case BlocksReachedFromConditionalInstruction => 8
    case Uses => 86
    case DirectCallsToDefinedFunctions => 10
    case InstructionCount => 13
    case MaxLoopDepth => 16
    case TopLevelLoopCount => 85
    case CastInstCount => 9
    case BasicBlockWithSingleSuccessor => 4
    case BasicBlockWithTwoSuccessors => 6
    case BasicBlockWithMoreThanTwoSuccessors => 2
    case BasicBlockWithSinglePredecessor => 3
    case BasicBlockWithTwoPredecessors => 5
    case BasicBlockWithMoreThanTwoPredecessors => 1
    case BigBasicBlock => 7
    case MediumBasicBlock => 17
    case SmallBasicBlock => 84
    case FloatingPointInstCount => 12
    case IntegerInstCount => 15
    case IntegerConstantOccurrences => 14
    case FloatingConstantOccurrences => 11
  }

  /** The rank of opcode k (1..66) in the lexicographic order of the decimal
      numerals "1", "10", ..., "19", "2", "20", ..., "66", "7", "8", "9". */
  function OpcodeRank(k: nat): nat
    requires 1 <= k <= 66
  {
    if k < 10 then (if k <= 6 then (k - 1) * 11 else k + 56)
    else (k / 10 - 1) * 11 + 1 + k % 10
  }

  /** The opcode of rank j: the inverse of OpcodeRank. */
  function OpcodeOfRank(j: nat): (k: nat)
    requires j < 66
    ensures 1 <= k <= 66
  {
    if j >= 63 then j - 56
    else if j % 11 == 0 then j / 11 + 1
    else (j / 11 + 1) * 10 + j % 11 - 1
  }

  lemma RankInverse(k: nat)
    requires 1 <= k <= 66
    ensures OpcodeRank(k) < 66 && OpcodeOfRank(OpcodeRank(k)) == k
  {
  }

  lemma OpcodeOfRankInverse(j: nat)
    requires j < 66
    ensures OpcodeRank(OpcodeOfRank(j)) == j
  {
  }

  /** The slot of the count of opcode k. */
  function OpcodeSlot(k: nat): nat
    requires 1 <= k <= 66
  {
    18 + OpcodeRank(k)
  }

  /** The slot a slot value is written to: the inverse of the layout. */
  function Position(s: Slot): nat {
    match s
    case Field(c) => FieldSlot(c)
    case OpCode(k) => if 1 <= k <= 66 then OpcodeSlot(k) else FeatureCount
  }

  /** Slot i holds the slot value whose position is i: the layout has no
      slot twice. Slots 18..83 hold opcode counts, of opcodes 1..66. */
  lemma LayoutPositions()
    ensures forall i | 0 <= i < FeatureCount :: Position(Layout[i]) == i
    ensures forall i | 0 <= i < FeatureCount :: Layout[i].OpCode? <==> 18 <= i < 84
    ensures forall i | 18 <= i < 84 :: 1 <= Layout[i].opcode <= 66
  {
    forall i | 0 <= i < FeatureCount
      ensures Position(Layout[i]) == i
      ensures Layout[i].OpCode? <==> 18 <= i < 84
      ensures Layout[i].OpCode? ==> 1 <= Layout[i].opcode <= 66
    {
      assert Layout[i] == SlotAt(i);
    }
  }

  /** The 87 slots are pairwise distinct. */
  lemma LayoutDistinct()
    ensures |Layout| == FeatureCount
    ensures forall i, j | 0 <= i < j < FeatureCount :: Layout[i] != Layout[j]
  {
    LayoutPositions();
  }

  /** Every scalar counter sits at its slot. */
  lemma LayoutFields()
    ensures forall c: Counter :: Layout[FieldSlot(c)] == Field(c)
  {
    forall c: Counter ensures Layout[FieldSlot(c)] == Field(c) {
      assert Layout[FieldSlot(c)] == SlotAt(FieldSlot(c));
    }
  }

  /** Slots 18..83 hold the count of every opcode 1..66, each exactly once. */
  lemma LayoutOpcodes()
    ensures forall k | 1 <= k <= 66 :: 18 <= OpcodeSlot(k) < 84 && Layout[OpcodeSlot(k)] == OpCode(k)
    ensures forall i, j | 18 <= i < j < 84 :: Layout[i].opcode != Layout[j].opcode
  {
    forall k | 1 <= k <= 66 ensures 18 <= OpcodeSlot(k) < 84 && Layout[OpcodeSlot(k)] == OpCode(k) {
      OpcodeAtItsSlot(k);
    }
    forall i, j | 18 <= i < j < 84 ensures Layout[i].opcode != Layout[j].opcode {
      LayoutPositions();
      assert Position(Layout[i]) == i && Position(Layout[j]) == j;
    }
  }

  /** The count of opcode k sits at the opcode's slot. */
  lemma OpcodeAtItsSlot(k: nat)
    requires 1 <= k <= 66
    ensures 18 <= OpcodeSlot(k) < 84 && Layout[OpcodeSlot(k)] == OpCode(k)
  {
    LayoutPositions();
    RankInverse(k);
    var i := OpcodeSlot(k);
    var k' := Layout[i].opcode;
    assert Position(Layout[i]) == i;
    RankInverse(k');
  }

  // ---------------------------------------------------------------------------
  // The key names, and their order

  /** The decimal numeral of k, as std::to_string writes it. */
  function Decimal(k: nat): string
    decreases k
  {
    if k < 10 then [Digit(k)] else Decimal(k / 10) + [Digit(k % 10)]
  }

  function Digit(d: nat): char
    requires d < 10
  {
    (48 + d) as char
  }

  /** The JSON key of a scalar counter: the field's own name. */
  function CounterName(c: Counter): string {
    match c
    case BasicBlockCount => "BasicBlockCount"
    case BlocksReachedFromConditionalInstruction => "BlocksReachedFromConditionalInstruction"
    case Uses => "Uses"
    case DirectCallsToDefinedFunctions => "DirectCallsToDefinedFunctions"
    case InstructionCount => "InstructionCount"
    case MaxLoopDepth => "MaxLoopDepth"
    case TopLevelLoopCount => "TopLevelLoopCount"
    case CastInstCount => "CastInstCount"
    case BasicBlockWithSingleSuccessor => "BasicBlockWithSingleSuccessor"
    case BasicBlockWithTwoSuccessors => "BasicBlockWithTwoSuccessors"
    case BasicBlockWithMoreThanTwoSuccessors => "BasicBlockWithMoreThanTwoSuccessors"
    case BasicBlockWithSinglePredecessor => "BasicBlockWithSinglePredecessor"
    case BasicBlockWithTwoPredecessors => "BasicBlockWithTwoPredecessors"
    case BasicBlockWithMoreThanTwoPredecessors => "BasicBlockWithMoreThanTwoPredecessors"
    case BigBasicBlock => "BigBasicBlock"
    case MediumBasicBlock => "MediumBasicBlock"
    case SmallBasicBlock => "SmallBasicBlock"
    case FloatingPointInstCount => "FloatingPointInstCount"
    case IntegerInstCount => "IntegerInstCount"
    case IntegerConstantOccurrences => "IntegerConstantOccurrences"
    case FloatingConstantOccurrences => "FloatingConstantOccurrences"
  }

  /** The key name of a slot. */
  function SlotName(s: Slot): string {
    match s
    case Field(c) => CounterName(c)
    case OpCode(k) => "OpCodeCount_" + Decimal(k)
  }

  /** `a` comes before `b` in lexicographic order, and the first `k`
      characters are where they agree: either `a` ends there and `b` goes on,
      or `a`'s next character is smaller. */
  predicate LexLessAt(a: string, b: string, k: nat) {
    k <= |a| && k <= |b| && a[..k] == b[..k]
    && ((k == |a| && k < |b|) || (k < |a| && k < |b| && a[k] < b[k]))
  }

  ghost predicate LexLess(a: string, b: string) {
    exists k: nat :: LexLessAt(a, b, k)
  }

  /** Two strings that share the prefix `p` and then differ as `r` and `s` do
      at their first character compare at |p|. */
  lemma SharedPrefix(p: string, r: string, s: string)
    requires (r == [] && s != []) || (r != [] && s != [] && r[0] < s[0])
    ensures LexLessAt(p + r, p + s, |p|)
  {
    assert (p + r)[..|p|] == p;
    assert (p + s)[..|p|] == p;
  }

  lemma NamesInOrder(a: string, b: string, p: string, r: string, s: string)
    requires a == p + r && b == p + s
    requires (r == [] && s != []) || (r != [] && s != [] && r[0] < s[0])
    ensures LexLess(a, b)
  {
    SharedPrefix(p, r, s);
  }

  /** Putting the same prefix in front keeps the order. */
  lemma PrefixKeepsOrder(p: string, a: string, b: string, k: nat)
    requires LexLessAt(a, b, k)
    ensures LexLessAt(p + a, p + b, |p| + k)
  {
    assert (p + a)[..|p| + k] == p + a[..k];
    assert (p + b)[..|p| + k] == p + b[..k];
  }

  lemma DecimalDigits(k: nat)
    requires 1 <= k < 100
    ensures k < 10 ==> Decimal(k) == [Digit(k)]
    ensures k >= 10 ==> Decimal(k) == [Digit(k / 10), Digit(k % 10)]
  {
  }

  /** Consecutive opcodes in rank order have numerals in lexicographic order. */
  lemma NumeralsInOrder(j: nat)
    requires j + 1 < 66
    ensures LexLess(Decimal(OpcodeOfRank(j)), Decimal(OpcodeOfRank(j + 1)))
  {
    var k1, k2 := OpcodeOfRank(j), OpcodeOfRank(j + 1);
    DecimalDigits(k1);
    DecimalDigits(k2);
    var a, b := Decimal(k1), Decimal(k2);
    if j + 1 >= 63 || j % 11 == 10 {
      assert LexLessAt(a, b, 0);
    } else if j % 11 == 0 {
      assert b == a + [Digit(0)];
      assert LexLessAt(a, b, 1);
    } else {
      assert LexLessAt(a, b, 1);
    }
  }

  /** The opcode slots are in the order of their key names. */
  lemma OpcodeNamesInOrder(i: nat)
    requires 18 <= i < 83
    ensures LexLess(SlotName(Layout[i]), SlotName(Layout[i + 1]))
  {
    LayoutPositions();
    var k1, k2 := Layout[i].opcode, Layout[i + 1].opcode;
    RankInverse(k1);
    RankInverse(k2);
    NumeralsInOrder(i - 18);
    var w: nat :| LexLessAt(Decimal(k1), Decimal(k2), w);
    PrefixKeepsOrder("OpCodeCount_", Decimal(k1), Decimal(k2), w);
  }

  /** The names of the scalar counters at slot i and i + 1 are in order (one
      lemma per adjacent pair of scalar slots). */
  lemma ScalarNamesInOrder0()
    ensures LexLess(CounterName(BasicBlockCount), CounterName(BasicBlockWithMoreThanTwoPredecessors))
  {
    NamesInOrder("BasicBlockCount", "BasicBlockWithMoreThanTwoPredecessors", "BasicBlock", "Count", "WithMoreThanTwoPredecessors");
  }

  lemma ScalarNamesInOrder1()
    ensures LexLess(CounterName(BasicBlockWithMoreThanTwoPredecessors), CounterName(BasicBlockWithMoreThanTwoSuccessors))
  {
    NamesInOrder("BasicBlockWithMoreThanTwoPredecessors", "BasicBlockWithMoreThanTwoSuccessors", "BasicBlockWithMoreThanTwo", "Predecessors", "Successors");
  }

  lemma ScalarNamesInOrder2()
    ensures LexLess(CounterName(BasicBlockWithMoreThanTwoSuccessors), CounterName(BasicBlockWithSinglePredecessor))
  {
    NamesInOrder("BasicBlockWithMoreThanTwoSuccessors", "BasicBlockWithSinglePredecessor", "BasicBlockWith", "MoreThanTwoSuccessors", "SinglePredecessor");
  }

  lemma ScalarNamesInOrder3()
    ensures LexLess(CounterName(BasicBlockWithSinglePredecessor), CounterName(BasicBlockWithSingleSuccessor))
  {
    NamesInOrder("BasicBlockWithSinglePredecessor", "BasicBlockWithSingleSuccessor", "BasicBlockWithSingle", "Predecessor", "Successor");
  }

  lemma ScalarNamesInOrder4()
    ensures LexLess(CounterName(BasicBlockWithSingleSuccessor), CounterName(BasicBlockWithTwoPredecessors))
  {
    NamesInOrder("BasicBlockWithSingleSuccessor", "BasicBlockWithTwoPredecessors", "BasicBlockWith", "SingleSuccessor", "TwoPredecessors");
  }

  lemma ScalarNamesInOrder5()
    ensures LexLess(CounterName(BasicBlockWithTwoPredecessors), CounterName(BasicBlockWithTwoSuccessors))
  {
    NamesInOrder("BasicBlockWithTwoPredecessors", "BasicBlockWithTwoSuccessors", "BasicBlockWithTwo", "Predecessors", "Successors");
  }

  lemma ScalarNamesInOrder6()
    ensures LexLess(CounterName(BasicBlockWithTwoSuccessors), CounterName(BigBasicBlock))
  {
    NamesInOrder("BasicBlockWithTwoSuccessors", "BigBasicBlock", "B", "asicBlockWithTwoSuccessors", "igBasicBlock");
  }

  lemma ScalarNamesInOrder7()
    ensures LexLess(CounterName(BigBasicBlock), CounterName(BlocksReachedFromConditionalInstruction))
  {
    NamesInOrder("BigBasicBlock", "BlocksReachedFromConditionalInstruction", "B", "igBasicBlock", "locksReachedFromConditionalInstruction");
  }

  lemma ScalarNamesInOrder8()
    ensures LexLess(CounterName(BlocksReachedFromConditionalInstruction), CounterName(CastInstCount))
  {
    NamesInOrder("BlocksReachedFromConditionalInstruction", "CastInstCount", "", "BlocksReachedFromConditionalInstruction", "CastInstCount");
  }

  lemma ScalarNamesInOrder9()
    ensures LexLess(CounterName(CastInstCount), CounterName(DirectCallsToDefinedFunctions))
  {
    NamesInOrder("CastInstCount", "DirectCallsToDefinedFunctions", "", "CastInstCount", "DirectCallsToDefinedFunctions");
  }

  lemma ScalarNamesInOrder10()
    ensures LexLess(CounterName(DirectCallsToDefinedFunctions), CounterName(FloatingConstantOccurrences))
  {
    NamesInOrder("DirectCallsToDefinedFunctions", "FloatingConstantOccurrences", "", "DirectCallsToDefinedFunctions", "FloatingConstantOccurrences");
  }

  lemma ScalarNamesInOrder11()
    ensures LexLess(CounterName(FloatingConstantOccurrences), CounterName(FloatingPointInstCount))
  {
    NamesInOrder("FloatingConstantOccurrences", "FloatingPointInstCount", "Floating", "ConstantOccurrences", "PointInstCount");
  }

  lemma ScalarNamesInOrder12()
    ensures LexLess(CounterName(FloatingPointInstCount), CounterName(InstructionCount))
  {
    NamesInOrder("FloatingPointInstCount", "InstructionCount", "", "FloatingPointInstCount", "InstructionCount");
  }

  lemma ScalarNamesInOrder13()
    ensures LexLess(CounterName(InstructionCount), CounterName(IntegerConstantOccurrences))
  {
    NamesInOrder("InstructionCount", "IntegerConstantOccurrences", "In", "structionCount", "tegerConstantOccurrences");
  }

  lemma ScalarNamesInOrder14()
    ensures LexLess(CounterName(IntegerConstantOccurrences), CounterName(IntegerInstCount))
  {
    NamesInOrder("IntegerConstantOccurrences", "IntegerInstCount", "Integer", "ConstantOccurrences", "InstCount");
  }

  lemma ScalarNamesInOrder15()
    ensures LexLess(CounterName(IntegerInstCount), CounterName(MaxLoopDepth))
  {
    NamesInOrder("IntegerInstCount", "MaxLoopDepth", "", "IntegerInstCount", "MaxLoopDepth");
  }

  lemma ScalarNamesInOrder16()
    ensures LexLess(CounterName(MaxLoopDepth), CounterName(MediumBasicBlock))
  {
    NamesInOrder("MaxLoopDepth", "MediumBasicBlock", "M", "axLoopDepth", "ediumBasicBlock");
  }

  lemma ScalarNamesInOrder84()
    ensures LexLess(CounterName(SmallBasicBlock), CounterName(TopLevelLoopCount))
  {
    NamesInOrder("SmallBasicBlock", "TopLevelLoopCount", "", "SmallBasicBlock", "TopLevelLoopCount");
  }

  lemma ScalarNamesInOrder85()
    ensures LexLess(CounterName(TopLevelLoopCount), CounterName(Uses))
  {
    NamesInOrder("TopLevelLoopCount", "Uses", "", "TopLevelLoopCount", "Uses");
  }

  /** The last scalar slot before the opcode counts and the first one after
      them sort against every opcode key by their first letter. */
  lemma OpcodeBlockBoundaries()
    ensures LexLess(SlotName(Layout[17]), SlotName(Layout[18]))
    ensures LexLess(SlotName(Layout[83]), SlotName(Layout[84]))
  {
    assert Layout[17] == SlotAt(17) && Layout[84] == SlotAt(84);
    LayoutPositions();
    SharedPrefix("", "MediumBasicBlock", SlotName(Layout[18]));
    SharedPrefix("", SlotName(Layout[83]), "SmallBasicBlock");
  }

  /** Adjacent slots of the layout are in the lexicographic order of their
      key names, so the layout lists the keys in sorted order. */
  lemma LayoutNamesAdjacentOrder(i: nat)
    requires i + 1 < FeatureCount
    ensures LexLess(SlotName(Layout[i]), SlotName(Layout[i + 1]))
  {
    if 18 <= i < 83 {
      OpcodeNamesInOrder(i);
    } else if i == 17 || i == 83 {
      OpcodeBlockBoundaries();
    } else {
      LayoutFields();
      ScalarOrder(i);
    }
  }

  /** Adjacent scalar slots, by the names of their counters. */
  lemma ScalarOrder(i: nat)
    requires i < 17 || 84 <= i < 86
    ensures LexLess(SlotName(Layout[i]), SlotName(Layout[i + 1]))
  {
    if i < 6 {
      ScalarOrderA(i);
    } else if i < 12 {
      ScalarOrderB(i);
    } else if i < 17 {
      ScalarOrderC(i);
    } else {
      ScalarOrderD(i);
    }
  }

  lemma ScalarOrderA(i: nat)
    requires i < 6
    ensures LexLess(SlotName(Layout[i]), SlotName(Layout[i + 1]))
  {
    LayoutFields();
    if i == 0 {
      assert Layout[FieldSlot(BasicBlockCount)] == Layout[i] && Layout[FieldSlot(BasicBlockWithMoreThanTwoPredecessors)] == Layout[i + 1];
      ScalarNamesInOrder0();
    } else if i == 1 {
      assert Layout[FieldSlot(BasicBlockWithMoreThanTwoPredecessors)] == Layout[i] && Layout[FieldSlot(BasicBlockWithMoreThanTwoSuccessors)] == Layout[i + 1];
      ScalarNamesInOrder1();
    } else if i == 2 {
      assert Layout[FieldSlot(BasicBlockWithMoreThanTwoSuccessors)] == Layout[i] && Layout[FieldSlot(BasicBlockWithSinglePredecessor)] == Layout[i + 1];
      ScalarNamesInOrder2();
    } else if i == 3 {
      assert Layout[FieldSlot(BasicBlockWithSinglePredecessor)] == Layout[i] && Layout[FieldSlot(BasicBlockWithSingleSuccessor)] == Layout[i + 1];
      ScalarNamesInOrder3();
    } else if i == 4 {
      assert Layout[FieldSlot(BasicBlockWithSingleSuccessor)] == Layout[i] && Layout[FieldSlot(BasicBlockWithTwoPredecessors)] == Layout[i + 1];
      ScalarNamesInOrder4();
    } else {
      assert i == 5;
      assert Layout[FieldSlot(BasicBlockWithTwoPredecessors)] == Layout[i] && Layout[FieldSlot(BasicBlockWithTwoSuccessors)] == Layout[i + 1];
      ScalarNamesInOrder5();
    }
  }

  lemma ScalarOrderB(i: nat)
    requires 6 <= i < 12
    ensures LexLess(SlotName(Layout[i]), SlotName(Layout[i + 1]))
  {
    LayoutFields();
    if i == 6 {
      assert Layout[FieldSlot(BasicBlockWithTwoSuccessors)] == Layout[i] && Layout[FieldSlot(BigBasicBlock)] == Layout[i + 1];
      ScalarNamesInOrder6();
    } else if i == 7 {
      assert Layout[FieldSlot(BigBasicBlock)] == Layout[i] && Layout[FieldSlot(BlocksReachedFromConditionalInstruction)] == Layout[i + 1];
      ScalarNamesInOrder7();
    } else if i == 8 {
      assert Layout[FieldSlot(BlocksReachedFromConditionalInstruction)] == Layout[i] && Layout[FieldSlot(CastInstCount)] == Layout[i + 1];
      ScalarNamesInOrder8();
    } else if i == 9 {
      assert Layout[FieldSlot(CastInstCount)] == Layout[i] && Layout[FieldSlot(DirectCallsToDefinedFunctions)] == Layout[i + 1];
      ScalarNamesInOrder9();
    } else if i == 10 {
      assert Layout[FieldSlot(DirectCallsToDefinedFunctions)] == Layout[i] && Layout[FieldSlot(FloatingConstantOccurrences)] == Layout[i + 1];
      ScalarNamesInOrder10();
    } else {
      assert i == 11;
      assert Layout[FieldSlot(FloatingConstantOccurrences)] == Layout[i] && Layout[FieldSlot(FloatingPointInstCount)] == Layout[i + 1];
      ScalarNamesInOrder11();
    }
  }

  lemma ScalarOrderC(i: nat)
    requires 12 <= i < 17
    ensures LexLess(SlotName(Layout[i]), SlotName(Layout[i + 1]))
  {
    LayoutFields();
    if i == 12 {
      assert Layout[FieldSlot(FloatingPointInstCount)] == Layout[i] && Layout[FieldSlot(InstructionCount)] == Layout[i + 1];
      ScalarNamesInOrder12();
    } else if i == 13 {
      assert Layout[FieldSlot(InstructionCount)] == Layout[i] && Layout[FieldSlot(IntegerConstantOccurrences)] == Layout[i + 1];
      ScalarNamesInOrder13();
    } else if i == 14 {
      assert Layout[FieldSlot(IntegerConstantOccurrences)] == Layout[i] && Layout[FieldSlot(IntegerInstCount)] == Layout[i + 1];
      ScalarNamesInOrder14();
    } else if i == 15 {
      assert Layout[FieldSlot(IntegerInstCount)] == Layout[i] && Layout[FieldSlot(MaxLoopDepth)] == Layout[i + 1];
      ScalarNamesInOrder15();
    } else {
      assert i == 16;
      assert Layout[FieldSlot(MaxLoopDepth)] == Layout[i] && Layout[FieldSlot(MediumBasicBlock)] == Layout[i + 1];
      ScalarNamesInOrder16();
    }
  }

  lemma ScalarOrderD(i: nat)
    requires 84 <= i < 86
    ensures LexLess(SlotName(Layout[i]), SlotName(Layout[i + 1]))
  {
    LayoutFields();
    if i == 84 {
      assert Layout[FieldSlot(SmallBasicBlock)] == Layout[i] && Layout[FieldSlot(TopLevelLoopCount)] == Layout[i + 1];
      ScalarNamesInOrder84();
    } else {
      assert i == 85;
      assert Layout[FieldSlot(TopLevelLoopCount)] == Layout[i] && Layout[FieldSlot(Uses)] == Layout[i + 1];
      ScalarNamesInOrder85();
    }
  }

  /** Lexicographic order is transitive. */
  lemma LexLessTransitive(a: string, b: string, c: string)
    requires LexLess(a, b) && LexLess(b, c)
    ensures LexLess(a, c)
  {
    var k1: nat :| LexLessAt(a, b, k1);
    var k2: nat :| LexLessAt(b, c, k2);
    if k1 <= k2 {
      assert a[..k1] == b[..k1] == c[..k1] by {
        assert b[..k1] == b[..k2][..k1];
        assert c[..k1] == c[..k2][..k1];
      }
      if k1 < k2 {
        assert b[k1] == b[..k2][k1] == c[..k2][k1] == c[k1];
      }
      assert LexLessAt(a, c, k1);
    } else {
      assert a[..k2] == b[..k2] == c[..k2] by {
        assert a[..k2] == a[..k1][..k2];
        assert b[..k2] == b[..k1][..k2];
      }
      assert a[k2] == a[..k1][k2] == b[..k1][k2] == b[k2];
      assert LexLessAt(a, c, k2);
    }
  }

  /** No string comes before itself. */
  lemma LexLessIrreflexive(a: string, b: string)
    requires LexLess(a, b)
    ensures a != b
  {
  }

  /** The key names from slot i on are in increasing order up to slot j. */
  lemma {:induction false} LayoutNamesIncreaseFrom(i: nat, j: nat)
    requires i < j < FeatureCount
    ensures LexLess(SlotName(Layout[i]), SlotName(Layout[j]))
    decreases j - i
  {
    LayoutNamesAdjacentOrder(i);
    if i + 1 < j {
      LayoutNamesIncreaseFrom(i + 1, j);
      LexLessTransitive(SlotName(Layout[i]), SlotName(Layout[i + 1]), SlotName(Layout[j]));
    }
  }

  /** The 87 key names are in strictly increasing lexicographic order, so no
      two slots share a name. */
  lemma LayoutNamesSorted()
    ensures forall i, j | 0 <= i < j < FeatureCount :: LexLess(SlotName(Layout[i]), SlotName(Layout[j]))
    ensures forall i, j | 0 <= i < j < FeatureCount :: SlotName(Layout[i]) != SlotName(Layout[j])
  {
    forall i, j | 0 <= i < j < FeatureCount
      ensures LexLess(SlotName(Layout[i]), SlotName(Layout[j]))
      ensures SlotName(Layout[i]) != SlotName(Layout[j])
    {
      LayoutNamesIncreaseFrom(i, j);
      LexLessIrreflexive(SlotName(Layout[i]), SlotName(Layout[j]));
    }
  }
}
