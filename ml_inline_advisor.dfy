/**
 * MLInlineAdvisor.cpp: the bookkeeping of the ML inline advisor.
 *
 *  - each defined function gets the call-graph level of its SCC when the
 *    advisor is built;
 *  - the module-wide node, edge and IR-size counters are kept up to date as
 *    inlining succeeds, and inlining stops once the module grew too much;
 *  - getAdvice runs the decision cascade and fills the model's 11 inputs.
 *
 * The call graph, its SCC order, LoopInfo, the inline-cost analysis, the
 * attribute-based decision and TTI's size estimate are foreign analyses: their
 * answers are parameters here.
 */
module MLInlineAdvisor {
  import opened Wrappers
  import opened IR
  import opened FunctionProperties
  import opened InlineModelFeatureMaps

  function Max(a: nat, b: nat): nat {
    if a < b then b else a
  }

  // ---------------------------------------------------------------------------
  // Call-site height: the level of each function in the bottom-up SCC order

  /** getInlinableCS: the callee of a call instruction whose directly called
      function has a body; None for anything else. */
  function InlinableCallee(i: Instruction): (c: Option<Callee>)
    ensures c.Some? <==> i.call.CallTo? && i.call.callee.Some? && !i.call.callee.value.isDeclaration
    ensures c.Some? ==> c == i.call.callee
  {
    match i.call
    case CallTo(Some(callee)) => if callee.isDeclaration then None else Some(callee)
    case _ => None
  }

  /** A call-graph node that is a defined function (a node may stand for no
      function, or for a declaration). */
  predicate Defined(n: Option<Function>) {
    n.Some? && !n.value.isDeclaration
  }

  /** The level the calls among `ins` ask for: one more than the largest level
      of an inlinable callee that already has one, or 0. */
  function CallsLevel(levels: map<string, nat>, ins: seq<Instruction>): nat {
    if ins == [] then 0
    else
      var c := InlinableCallee(ins[|ins| - 1]);
      var prev := CallsLevel(levels, ins[..|ins| - 1]);
      if c.Some? && c.value.name in levels then Max(prev, levels[c.value.name] + 1) else prev
  }

  /** The level of an SCC: the largest level its defined functions' calls ask for. */
  function SccLevel(levels: map<string, nat>, scc: seq<Option<Function>>): nat {
    if scc == [] then 0
    else
      var prev := SccLevel(levels, scc[..|scc| - 1]);
      var n := scc[|scc| - 1];
      if Defined(n) then Max(prev, CallsLevel(levels, Instructions(n.value.blocks))) else prev
  }

  /** `levels` with every defined function of `scc` at `level`. */
  function AssignLevel(levels: map<string, nat>, scc: seq<Option<Function>>, level: nat): map<string, nat> {
    if scc == [] then levels
    else
      var m := AssignLevel(levels, scc[..|scc| - 1], level);
      var n := scc[|scc| - 1];
      if Defined(n) then m[n.value.name := level] else m
  }

  /** FunctionLevels after visiting `sccs` in order. */
  function LevelsOf(sccs: seq<seq<Option<Function>>>): map<string, nat> {
    if sccs == [] then map[]
    else
      var prev := LevelsOf(sccs[..|sccs| - 1]);
      var scc := sccs[|sccs| - 1];
      AssignLevel(prev, scc, SccLevel(prev, scc))
  }

  /** The calls' level is an upper bound of (level + 1) over the inlinable
      callees that have a level, and is 0 or attained by one of them; callees
      without a level do not count. */
  lemma {:induction false} CallsLevelIsMax(levels: map<string, nat>, ins: seq<Instruction>)
    ensures forall j | 0 <= j < |ins| && InlinableCallee(ins[j]).Some? && InlinableCallee(ins[j]).value.name in levels ::
              levels[InlinableCallee(ins[j]).value.name] + 1 <= CallsLevel(levels, ins)
    ensures CallsLevel(levels, ins) == 0
            || exists j | 0 <= j < |ins| :: InlinableCallee(ins[j]).Some? && InlinableCallee(ins[j]).value.name in levels
                 && CallsLevel(levels, ins) == levels[InlinableCallee(ins[j]).value.name] + 1
  {
    if ins != [] {
      var init := ins[..|ins| - 1];
      CallsLevelIsMax(levels, init);
      forall j | 0 <= j < |init| ensures init[j] == ins[j] { }
      if CallsLevel(levels, ins) != CallsLevel(levels, init) {
        assert CallsLevel(levels, ins) == levels[InlinableCallee(ins[|ins| - 1]).value.name] + 1;
      }
    }
  }

  /** The level of an SCC bounds the level every defined member's calls ask
      for, and is 0 or the level one of them asks for. */
  lemma {:induction false} SccLevelIsMax(levels: map<string, nat>, scc: seq<Option<Function>>)
    ensures forall k | 0 <= k < |scc| && Defined(scc[k]) ::
              CallsLevel(levels, Instructions(scc[k].value.blocks)) <= SccLevel(levels, scc)
    ensures SccLevel(levels, scc) == 0
            || exists k | 0 <= k < |scc| :: Defined(scc[k])
                 && SccLevel(levels, scc) == CallsLevel(levels, Instructions(scc[k].value.blocks))
  {
    if scc != [] {
      var init := scc[..|scc| - 1];
      SccLevelIsMax(levels, init);
      forall k | 0 <= k < |init| ensures init[k] == scc[k] { }
    }
  }

  /** After an SCC is visited, all its defined functions have the same level,
      and every other function keeps the level it had. */
  lemma {:induction false} AssignLevelSetsMembers(levels: map<string, nat>, scc: seq<Option<Function>>, level: nat)
    ensures forall k | 0 <= k < |scc| && Defined(scc[k]) ::
              scc[k].value.name in AssignLevel(levels, scc, level)
              && AssignLevel(levels, scc, level)[scc[k].value.name] == level
    ensures forall name | (forall k | 0 <= k < |scc| && Defined(scc[k]) :: scc[k].value.name != name) ::
              (name in AssignLevel(levels, scc, level) <==> name in levels)
              && (name in levels ==> AssignLevel(levels, scc, level)[name] == levels[name])
  {
    if scc != [] {
      var init := scc[..|scc| - 1];
      AssignLevelSetsMembers(levels, init, level);
      forall k | 0 <= k < |init| ensures init[k] == scc[k] { }
    }
  }

  /** The first loop of the SCC visit in the advisor's constructor: the level
      of `scc` given the levels of the SCCs visited before. */
  method SccLevelOf(levels: map<string, nat>, scc: seq<Option<Function>>) returns (level: nat)
    ensures level == SccLevel(levels, scc)
  {
    level := 0;
    for k := 0 to |scc|
      invariant level == SccLevel(levels, scc[..k])
    {
      assert scc[..k + 1][..k] == scc[..k];
      var n := scc[k];
      if n.Some? && !n.value.isDeclaration {
        var ins := Instructions(n.value.blocks);
        ghost var before := level;
        var calls := 0;
        for j := 0 to |ins|
          invariant calls == CallsLevel(levels, ins[..j])
        {
          assert ins[..j + 1][..j] == ins[..j];
          var c := InlinableCallee(ins[j]);
          if c.Some? && c.value.name in levels {
            calls := Max(calls, levels[c.value.name] + 1);
          }
        }
        assert ins[..|ins|] == ins;
        level := Max(level, calls);
      }
    }
    assert scc[..|scc|] == scc;
  }

  /** The constructor's SCC loop: visits the SCCs bottom-up and gives every
      defined function the level of its SCC. */
  method ComputeFunctionLevels(sccs: seq<seq<Option<Function>>>) returns (levels: map<string, nat>)
    ensures levels == LevelsOf(sccs)
  {
    levels := map[];
    for s := 0 to |sccs|
      invariant levels == LevelsOf(sccs[..s])
    {
      assert sccs[..s + 1][..s] == sccs[..s];
      var scc := sccs[s];
      var level := SccLevelOf(levels, scc);
      ghost var start := levels;
      for k := 0 to |scc|
        invariant levels == AssignLevel(start, scc[..k], level)
      {
        assert scc[..k + 1][..k] == scc[..k];
        var n := scc[k];
        if n.Some? && !n.value.isDeclaration {
          levels := levels[n.value.name := level];
        }
      }
      assert scc[..|scc|] == scc;
    }
    assert sccs[..|sccs|] == sccs;
  }

  // ---------------------------------------------------------------------------
  // Module-wide counters

  /** getLocalCalls: the calls of `f` to defined functions, which is
      FunctionPropertiesInfo's DirectCallsToDefinedFunctions for `f`. */
  function LocalCalls(f: Function): (n: nat)
    ensures n == Properties(f).DirectCallsToDefinedFunctions
  {
    SumOverBlocks(f.blocks, DirectCall)
  }

  /** The weight `w` summed over the defined functions of `fs`. */
  function Total(fs: seq<Function>, w: Function -> nat): nat {
    if fs == [] then 0
    else Total(fs[..|fs| - 1], w) + (if fs[|fs| - 1].isDeclaration then 0 else w(fs[|fs| - 1]))
  }

  /** Every function weighs 1: Total counts the defined functions. */
  function One(f: Function): nat { 1 }

  /** getModuleIRSize: the IR size summed over the defined functions. */
  method GetModuleIRSize(fs: seq<Function>, irSize: Function -> nat) returns (ret: int)
    ensures ret == Total(fs, irSize)
  {
    ret := 0;
    for k := 0 to |fs|
      invariant ret == Total(fs[..k], irSize)
    {
      assert fs[..k + 1][..k] == fs[..k];
      if !fs[k].isDeclaration {
        ret := ret + irSize(fs[k]);
      }
    }
    assert fs[..|fs|] == fs;
  }

  /** Replacing one defined function changes a total by the difference of their weights. */
  lemma {:induction false} TotalUpdate(fs: seq<Function>, i: nat, g: Function, w: Function -> nat)
    requires i < |fs| && !fs[i].isDeclaration && !g.isDeclaration
    ensures Total(fs[i := g], w) == Total(fs, w) - w(fs[i]) + w(g)
  {
    var last := |fs| - 1;
    if i == last {
      assert fs[i := g][..last] == fs[..last];
    } else {
      TotalUpdate(fs[..last], i, g, w);
      assert fs[i := g][..last] == fs[..last][i := g];
    }
  }

  /** Removing one defined function lowers a total by its weight. */
  lemma {:induction false} TotalRemove(fs: seq<Function>, i: nat, w: Function -> nat)
    requires i < |fs| && !fs[i].isDeclaration
    ensures Total(fs[..i] + fs[i + 1..], w) == Total(fs, w) - w(fs[i])
  {
    var last := |fs| - 1;
    if i == last {
      assert fs[..i] + fs[i + 1..] == fs[..last];
    } else {
      TotalRemove(fs[..last], i, w);
      var rest := fs[..i] + fs[i + 1..];
      assert rest[..|rest| - 1] == fs[..last][..i] + fs[..last][i + 1..];
      assert rest[|rest| - 1] == fs[last];
    }
  }

  /** The module after inlining a call of the function at `ci` to the
      function at `ki`: the caller becomes `callerAfter`, and the callee is
      gone if it was deleted. */
  function ModuleAfterInlining(fs: seq<Function>, ci: nat, ki: nat, callerAfter: Function, calleeDeleted: bool): seq<Function>
    requires ci < |fs| && ki < |fs|
  {
    var m := fs[ci := callerAfter];
    if calleeDeleted then m[..ki] + m[ki + 1..] else m
  }

  /** The delta updates of onSuccessfulInlining are a recount: the node, edge
      and IR-size totals of the module after inlining are the totals before
      plus the deltas the advisor applies. So counters that matched the module
      keep matching it, and stay non-negative. */
  lemma DeltaUpdateIsRecount(fs: seq<Function>, ci: nat, ki: nat, callerAfter: Function,
                             calleeDeleted: bool, irSize: Function -> nat)
    requires ci < |fs| && ki < |fs| && ci != ki
    requires !fs[ci].isDeclaration && !fs[ki].isDeclaration && !callerAfter.isDeclaration
    ensures var after := ModuleAfterInlining(fs, ci, ki, callerAfter, calleeDeleted);
            Total(after, One) == Total(fs, One) - (if calleeDeleted then 1 else 0)
            && Total(after, LocalCalls)
               == Total(fs, LocalCalls)
                  + (LocalCalls(callerAfter) + (if calleeDeleted then 0 else LocalCalls(fs[ki])))
                  - (LocalCalls(fs[ci]) + LocalCalls(fs[ki]))
            && Total(after, irSize)
               == Total(fs, irSize)
                  + (irSize(callerAfter) + (if calleeDeleted then 0 else irSize(fs[ki])))
                  - (irSize(fs[ci]) + irSize(fs[ki]))
  {
    var m := fs[ci := callerAfter];
    TotalUpdate(fs, ci, callerAfter, One);
    TotalUpdate(fs, ci, callerAfter, LocalCalls);
    TotalUpdate(fs, ci, callerAfter, irSize);
    if calleeDeleted {
      TotalRemove(m, ki, One);
      TotalRemove(m, ki, LocalCalls);
      TotalRemove(m, ki, irSize);
    }
  }

  // ---------------------------------------------------------------------------
  // The advisor

  /** The call site getAdvice is asked about: its caller, its callee, and for
      each argument whether it is a constant. */
  datatype CallSite = CallSite(caller: Function, callee: Function, constantArgs: seq<bool>)

  /** The advice handed back. A base advice only carries its recommendation;
      an ML advice also records the caller's and callee's IR sizes and their
      local calls at advice time, for onSuccessfulInlining. */
  datatype Advice =
    | BaseAdvice(recommended: bool)
    | MLAdvice(recommended: bool, callerIRSize: nat, calleeIRSize: nat, callerAndCalleeEdges: nat)

  /** The number of `true` entries of `bs`. */
  function CountTrue(bs: seq<bool>): nat {
    if bs == [] then 0 else CountTrue(bs[..|bs| - 1]) + (if bs[|bs| - 1] then 1 else 0)
  }

  /** The argument loop of getAdvice: NrCtantParams is the number of constant arguments. */
  method CountConstantArgs(args: seq<bool>) returns (n: nat)
    ensures n == CountTrue(args)
    ensures n <= |args|
  {
    n := 0;
    for k := 0 to |args|
      invariant n == CountTrue(args[..k]) && n <= k
    {
      assert args[..k + 1][..k] == args[..k];
      if args[k] {
        n := n + 1;
      }
    }
    assert args[..|args|] == args;
  }

  /** The value getAdvice gives feature `f`, from the caller's and the
      callee's function properties and the call site's other features. */
  function FeatureValue(f: InlineFeatureIndex, caller: FunctionPropertiesInfo, callee: FunctionPropertiesInfo,
                        height: int, nodeCount: int, nrCtantParams: int, costEstimate: int, edgeCount: int): int
  {
    match f
    case CalleeBasicBlockCount => callee.BasicBlockCount
    case CallSiteHeight => height
    case NodeCount => nodeCount
    case NrCtantParams => nrCtantParams
    case CostEstimate => costEstimate
    case EdgeCount => edgeCount
    case CallerUsers => caller.Uses
    case CallerConditionallyExecutedBlocks => caller.BlocksReachedFromConditionalInstruction
    case CallerBasicBlockCount => caller.BasicBlockCount
    case CalleeConditionallyExecutedBlocks => callee.BlocksReachedFromConditionalInstruction
    case CalleeUsers => callee.Uses
  }

  /** The model's input buffer as getAdvice leaves it, slot by slot. */
  function InlineFeatures(caller: FunctionPropertiesInfo, callee: FunctionPropertiesInfo, height: int,
                          nodeCount: int, nrCtantParams: int, costEstimate: int, edgeCount: int): (v: seq<int>)
    ensures |v| == NumberOfFeatures
  {
    [callee.BasicBlockCount, height, nodeCount, nrCtantParams, costEstimate, edgeCount,
     caller.Uses, caller.BlocksReachedFromConditionalInstruction, caller.BasicBlockCount,
     callee.BlocksReachedFromConditionalInstruction, callee.Uses]
  }

  /** Every feature's value sits at that feature's index, so the buffer
      holds each of the eleven features exactly once. */
  lemma InlineFeaturesByIndex(caller: FunctionPropertiesInfo, callee: FunctionPropertiesInfo, height: int,
                              nodeCount: int, nrCtantParams: int, costEstimate: int, edgeCount: int)
    ensures forall f: InlineFeatureIndex ::
              InlineFeatures(caller, callee, height, nodeCount, nrCtantParams, costEstimate, edgeCount)[Index(f)]
              == FeatureValue(f, caller, callee, height, nodeCount, nrCtantParams, costEstimate, edgeCount)
  {
    var v := InlineFeatures(caller, callee, height, nodeCount, nrCtantParams, costEstimate, edgeCount);
    forall f: InlineFeatureIndex
      ensures v[Index(f)] == FeatureValue(f, caller, callee, height, nodeCount, nrCtantParams, costEstimate, edgeCount)
    {
      match f
      case CalleeBasicBlockCount =>
      case CallSiteHeight =>
      case NodeCount =>
      case NrCtantParams =>
      case CostEstimate =>
      case EdgeCount =>
      case CallerUsers =>
      case CallerConditionallyExecutedBlocks =>
      case CallerBasicBlockCount =>
      case CalleeConditionallyExecutedBlocks =>
      case CalleeUsers =>
    }
  }

  /** The inlining model: an input buffer of NumberOfFeatures values and the
      decision the model takes for given inputs. */
  class InlineModelRunner {
    const decide: seq<int> -> bool
    const features: array<int>

    constructor(d: seq<int> -> bool)
      ensures decide == d && features.Length == NumberOfFeatures && fresh(features)
    {
      decide := d;
      features := new int[NumberOfFeatures](_ => 0);
    }

    /** setFeature: writes `value` to input slot `index`, and nothing else. */
    method SetFeature(index: nat, value: int)
      requires index < features.Length
      modifies features
      ensures features[..] == old(features[..])[index := value]
    {
      features[index] := value;
    }

    /** getFeature: the value of input slot `index`. */
    function GetFeature(index: nat): int
      requires index < features.Length
      reads features
    {
      features[index]
    }

    /** The eleven setFeature calls of getAdvice: every input slot receives
        the value of its feature, whatever the buffer held before. */
    method SetFeatures(callerFeatures: FunctionPropertiesInfo, calleeFeatures: FunctionPropertiesInfo, height: int,
                       nodeCount: int, nrCtantParams: int, costEstimate: int, edgeCount: int)
      requires features.Length == NumberOfFeatures
      modifies features
      ensures features[..] == InlineFeatures(callerFeatures, calleeFeatures, height, nodeCount, nrCtantParams,
                                             costEstimate, edgeCount)
    {
      SetFeature(Index(CalleeBasicBlockCount), calleeFeatures.BasicBlockCount);
      SetFeature(Index(CallSiteHeight), height);
      SetFeature(Index(NodeCount), nodeCount);
      SetFeature(Index(NrCtantParams), nrCtantParams);
      SetFeature(Index(CostEstimate), costEstimate);
      SetFeature(Index(EdgeCount), edgeCount);
      SetFeature(Index(CallerUsers), callerFeatures.Uses);
      SetFeature(Index(CallerConditionallyExecutedBlocks), callerFeatures.BlocksReachedFromConditionalInstruction);
      SetFeature(Index(CallerBasicBlockCount), callerFeatures.BasicBlockCount);
      SetFeature(Index(CalleeConditionallyExecutedBlocks), calleeFeatures.BlocksReachedFromConditionalInstruction);
      SetFeature(Index(CalleeUsers), calleeFeatures.Uses);
    }

    /** run: the model's decision on the current inputs. */
    method Run() returns (r: bool)
      ensures r == decide(features[..])
    {
      r := decide(features[..]);
    }
  }

  class Advisor {
    const runner: InlineModelRunner
    /** SizeIncreaseThreshold: the factor the module may grow by before inlining stops. */
    const sizeIncreaseThreshold: real
    /** getIRSize: TTI's size estimate of a function. */
    const irSize: Function -> nat
    var FunctionLevels: map<string, nat>
    var NodeCount: int
    var EdgeCount: int
    const InitialIRSize: int
    var CurrentIRSize: int
    var ForceStop: bool

    /** The advisor for a module with functions `fs` whose call graph has
        the SCCs `sccs` in bottom-up order. */
    constructor(fs: seq<Function>, sccs: seq<seq<Option<Function>>>, r: InlineModelRunner,
                threshold: real, size: Function -> nat)
      ensures runner == r && sizeIncreaseThreshold == threshold && irSize == size
      ensures InitialIRSize == Total(fs, size) && CurrentIRSize == InitialIRSize
      ensures FunctionLevels == LevelsOf(sccs)
      ensures NodeCount == 0 && EdgeCount == 0 && !ForceStop
    {
      runner := r;
      sizeIncreaseThreshold := threshold;
      irSize := size;
      var initial := GetModuleIRSize(fs, size);
      InitialIRSize := initial;
      CurrentIRSize := initial;
      NodeCount, EdgeCount := 0, 0;
      ForceStop := false;
      var levels := ComputeFunctionLevels(sccs);
      FunctionLevels := levels;
    }

    /** onPassEntry: recounts the defined functions of the module and their local calls. */
    method OnPassEntry(fs: seq<Function>)
      modifies this
      ensures NodeCount == Total(fs, One) && EdgeCount == Total(fs, LocalCalls)
      ensures FunctionLevels == old(FunctionLevels) && CurrentIRSize == old(CurrentIRSize)
      ensures ForceStop == old(ForceStop)
    {
      NodeCount := 0;
      EdgeCount := 0;
      for k := 0 to |fs|
        invariant NodeCount == Total(fs[..k], One) && EdgeCount == Total(fs[..k], LocalCalls)
        invariant FunctionLevels == old(FunctionLevels) && CurrentIRSize == old(CurrentIRSize)
        invariant ForceStop == old(ForceStop)
      {
        assert fs[..k + 1][..k] == fs[..k];
        if !fs[k].isDeclaration {
          NodeCount := NodeCount + 1;
          EdgeCount := EdgeCount + LocalCalls(fs[k]);
        }
      }
      assert fs[..|fs|] == fs;
    }

    /** onSuccessfulInlining: applies the size, node and edge deltas of one
        inlining (`callerAfter` is the caller once the callee was inlined into
        it) and stops inlining once the module grew beyond
        SizeIncreaseThreshold times its initial size. */
    method OnSuccessfulInlining(advice: Advice, callerAfter: Function, callee: Function, calleeWasDeleted: bool)
      requires advice.MLAdvice?
      requires !ForceStop
      modifies this
      ensures CurrentIRSize == old(CurrentIRSize)
                + (irSize(callerAfter) + (if calleeWasDeleted then 0 else advice.calleeIRSize))
                - (advice.callerIRSize + advice.calleeIRSize)
      ensures NodeCount == old(NodeCount) - (if calleeWasDeleted then 1 else 0)
      ensures EdgeCount == old(EdgeCount)
                + (LocalCalls(callerAfter) + (if calleeWasDeleted then 0 else LocalCalls(callee)))
                - advice.callerAndCalleeEdges
      ensures ForceStop <==> CurrentIRSize as real > sizeIncreaseThreshold * InitialIRSize as real
      ensures FunctionLevels == old(FunctionLevels)
    {
      var irSizeAfter := irSize(callerAfter) + (if calleeWasDeleted then 0 else advice.calleeIRSize);
      CurrentIRSize := CurrentIRSize + irSizeAfter - (advice.callerIRSize + advice.calleeIRSize);
      if CurrentIRSize as real > sizeIncreaseThreshold * InitialIRSize as real {
        ForceStop := true;
      }
      var newCallerAndCalleeEdges := LocalCalls(callerAfter);
      if calleeWasDeleted {
        NodeCount := NodeCount - 1;
      } else {
        newCallerAndCalleeEdges := newCallerAndCalleeEdges + LocalCalls(callee);
      }
      EdgeCount := EdgeCount + (newCallerAndCalleeEdges - advice.callerAndCalleeEdges);
    }

    /** getAdvice for the call site `cb`, given the attribute-based decision
        (Some(true) must inline, Some(false) must not) and the inline-cost
        estimate (None when the call site cannot be inlined). */
    method GetAdvice(cb: CallSite, trivialDecision: Option<bool>, costEstimate: Option<int>)
      returns (advice: Advice)
      requires runner.features.Length == NumberOfFeatures
      modifies this, runner.features
      ensures NodeCount == old(NodeCount) && EdgeCount == old(EdgeCount)
      ensures CurrentIRSize == old(CurrentIRSize) && ForceStop == old(ForceStop)
      // 1. never inline, or a recursive call
      ensures trivialDecision == Some(false) || cb.caller.name == cb.callee.name ==>
                advice == BaseAdvice(false) && FunctionLevels == old(FunctionLevels)
                && runner.features[..] == old(runner.features[..])
      // 2. inlining was stopped: only mandatory inlining goes ahead
      ensures !(trivialDecision == Some(false) || cb.caller.name == cb.callee.name) && ForceStop ==>
                advice == BaseAdvice(trivialDecision == Some(true)) && FunctionLevels == old(FunctionLevels)
                && runner.features[..] == old(runner.features[..])
      // 3. the call site cannot be inlined
      ensures !(trivialDecision == Some(false) || cb.caller.name == cb.callee.name) && !ForceStop
              && trivialDecision != Some(true) && costEstimate.None? ==>
                advice == BaseAdvice(false) && FunctionLevels == old(FunctionLevels)
                && runner.features[..] == old(runner.features[..])
      // 4. mandatory inlining
      ensures !(trivialDecision == Some(false) || cb.caller.name == cb.callee.name) && !ForceStop
              && trivialDecision == Some(true) ==>
                advice.MLAdvice? && advice.recommended && FunctionLevels == old(FunctionLevels)
                && runner.features[..] == old(runner.features[..])
      // 5. the model decides, on the 11 features of the call site
      ensures !(trivialDecision == Some(false) || cb.caller.name == cb.callee.name) && !ForceStop
              && trivialDecision != Some(true) && costEstimate.Some? ==>
                cb.caller.name in FunctionLevels
                && FunctionLevels == old(if cb.caller.name in FunctionLevels then FunctionLevels
                                         else FunctionLevels[cb.caller.name := 0])
                && runner.features[..] == InlineFeatures(Properties(cb.caller), Properties(cb.callee), FunctionLevels[cb.caller.name], NodeCount,
                                                         CountTrue(cb.constantArgs), costEstimate.value, EdgeCount)
                && advice.MLAdvice? && advice.recommended == runner.decide(runner.features[..])
      ensures advice.MLAdvice? ==>
                advice.callerIRSize == irSize(cb.caller) && advice.calleeIRSize == irSize(cb.callee)
                && advice.callerAndCalleeEdges == LocalCalls(cb.caller) + LocalCalls(cb.callee)
    {
      if trivialDecision == Some(false) || cb.caller.name == cb.callee.name {
        return BaseAdvice(false);
      }
      var mandatory := trivialDecision == Some(true);
      if ForceStop {
        return BaseAdvice(mandatory);
      }
      var cost := 0;
      if !mandatory {
        if costEstimate.None? {
          return BaseAdvice(false);
        }
        cost := costEstimate.value;
      }
      var callerIRSize, calleeIRSize := irSize(cb.caller), irSize(cb.callee);
      var edges := LocalCalls(cb.caller) + LocalCalls(cb.callee);
      if mandatory {
        return MLAdvice(true, callerIRSize, calleeIRSize, edges);
      }
      var nrCtantParams := CountConstantArgs(cb.constantArgs);
      if cb.caller.name !in FunctionLevels {
        FunctionLevels := FunctionLevels[cb.caller.name := 0];
      }
      runner.SetFeatures(Properties(cb.caller), Properties(cb.callee), FunctionLevels[cb.caller.name], NodeCount, nrCtantParams, cost, EdgeCount);
      var decision := runner.Run();
      advice := MLAdvice(decision, callerIRSize, calleeIRSize, edges);
    }
  }
}
