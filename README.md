# ML pass-result predictor and ML inline advisor, modelled in Dafny

This project models the machine-learning side of an LLVM fork. It has four parts.

- **FunctionPropertiesAnalysis** folds a function's blocks and instructions into a record of
  integer counters:
  - block count, successor, predecessor and size buckets;
  - calls to defined functions, typed binary operators, constant operands and casts;
  - an opcode histogram;
  - the maximum loop depth.

  A smaller record, `FunctionPropertiesSmall`, keeps only a subset.
- **MLPassResultPredictor** decides, before a function pass runs, whether that pass will change
  the function.
  - `predict_all` looks the pass up in an 11-entry stage table and answers from a per-function
    cached prediction record. The record carries a reuse counter.
  - `predict` dispatches on the pass name to a heuristic scorer, or to a per-pass model.
  - `createInput` decides for which passes an input is built.
  - Statistics counters record what was predicted.
- **FunctionPassResultAnalysis** feeds the 87 features `toVec` makes to the all-passes model.
  - Each output score above 0.5 becomes "the pass changes the function".
  - `FunctionPassResultPredictionModel` memoises one per-pass model per pass name. It hangs off
    the LLVMContext.
- **MLInlineAdvisor** drives inlining from a model.
  - It gives each defined function the call-graph level of its SCC.
  - It keeps module-wide node, edge and IR-size counters up to date as inlining succeeds.
  - It stops inlining once the module grew by more than `SizeIncreaseThreshold`.
  - For each call site it runs a decision cascade. The final step fills the model's 11 inputs,
    which are named in InlineModelFeatureMaps.h.

## Module layout

- Modules, by source file:
  - `IR` (ir.dfy): the abstract input, i.e. functions as sequences of blocks, blocks as
    instruction sequences with successor, predecessor and loop-depth data.
  - `FunctionProperties`: the records, their zero defaults, and what each counter means.
  - `FunctionPropertiesAnalysis`: the extractor methods and their loops.
  - `FeatureLayout`: the 87-slot layout the per-pass path writes into a model's inputs.
  - `InlineModelFeatureMaps`: the inline feature enum and its names.
  - `PredictionModel`: the compiled-model buffers, `ModelImpl`, the all-passes runner and the
    registry.
  - `Statistics`: the STATISTIC counters.
  - `PassResultAnalysis`: `getFunctionResultPrediction`, and the analysis manager's cache of
    prediction records.
  - `PassResultPredictor`: `predict_all`, `predict`, `createInput`.
  - `MLInlineAdvisor`: the inline advisor.
- Methods that change state are proved against specification functions. For example:
  - `GetFunctionPropertiesInfo` ensures its result is `Properties(f)`.
  - `ComputeFunctionLevels` ensures its result is `LevelsOf(sccs)`.
- Lemmas state what those functions mean.

## Model

| member | source | states |
|---|---|---|
| FunctionProperties.ZeroInfo | llvm/include/llvm/Analysis/FunctionPropertiesAnalysis.h:37-97 | every scalar counter of a fresh record is 0, and OpCodeCount has OtherOpsEnd slots, all 0 |
| FunctionProperties.ZeroSmall | llvm/include/llvm/Analysis/FunctionPropertiesAnalysis.h:104-118 | every field of a fresh small record is 0 |
| FunctionPropertiesAnalysis.CountConstantOperands | llvm/lib/Analysis/FunctionPropertiesAnalysis.cpp:76-82 | the operand loop counts exactly the integer-typed and the float-typed constant operands |
| FunctionPropertiesAnalysis.CountInstructions | llvm/lib/Analysis/FunctionPropertiesAnalysis.cpp:64-88 | the instruction loop adds, to each counter, the number of instructions of its kind, and 1 to OpCodeCount[opcode] for each instruction |
| FunctionPropertiesAnalysis.ClassifyBlock | llvm/lib/Analysis/FunctionPropertiesAnalysis.cpp:33-62 | conditional branches add their successors; switches add cases plus 1 with a default; each block lands in exactly the successor, predecessor and size bucket (>500, 15..500, <15) it belongs to |
| FunctionPropertiesAnalysis.VisitBlock | llvm/lib/Analysis/FunctionPropertiesAnalysis.cpp:30-95 | one iteration of the block loop adds the block's contribution to every counter and keeps the running maximum of the loop depth |
| FunctionPropertiesAnalysis.VisitedCounts | llvm/lib/Analysis/FunctionPropertiesAnalysis.cpp:27-95 | after visiting any prefix of the blocks, every counter holds its documented meaning over that prefix, and Uses is numUses plus 1 unless the linkage is local |
| FunctionPropertiesAnalysis.GetFunctionPropertiesInfo | llvm/lib/Analysis/FunctionPropertiesAnalysis.cpp:20-98 | for every function, freeze instructions included, the extracted record is Properties(f), the documented meaning of every counter; the histogram has OtherOpsEnd = 68 slots, one per opcode of Instruction.def |
| FunctionPropertiesAnalysis.CountSmallInstructions | llvm/lib/Analysis/FunctionPropertiesAnalysis.cpp:116-149 | the small record's instruction loop counts integer binary operators, integer constants, loads, stores and PHIs, and counts GEPs, calls and allocas all into GEP |
| FunctionPropertiesAnalysis.SmallVisitedCounts | llvm/lib/Analysis/FunctionPropertiesAnalysis.cpp:103-156 | after visiting any prefix of the blocks, every field of the small record holds its meaning over that prefix |
| FunctionPropertiesAnalysis.GetFunctionPropertiesSmall | llvm/lib/Analysis/FunctionPropertiesAnalysis.cpp:100-159 | the small record is SmallProperties(f): Call and Alloca stay 0, and GEP counts GetElementPtr, Call and Alloca instructions together |
| FunctionPropertiesAnalysis.SizeBucketsPartition | llvm/lib/Analysis/FunctionPropertiesAnalysis.cpp:57-62 | Small + Medium + Big block counts equal the number of blocks |
| FunctionPropertiesAnalysis.DegreeBucketsPartition | llvm/lib/Analysis/FunctionPropertiesAnalysis.cpp:41-55 | the successor buckets together with the uncounted zero-successor blocks partition the blocks, and so do the predecessor buckets, so each bucket sum is at most BasicBlockCount |
| FunctionPropertiesAnalysis.MaxLoopDepthIsMax | llvm/lib/Analysis/FunctionPropertiesAnalysis.cpp:90-94 | MaxLoopDepth bounds every block's loop depth, is attained by some block, and is 0 for no blocks |
| FunctionPropertiesAnalysis.TypedBinaryOpsBound | llvm/lib/Analysis/FunctionPropertiesAnalysis.cpp:71-74 | FloatingPointInstCount + IntegerInstCount is at most the number of binary operators |
| FunctionPropertiesAnalysis.HistogramPrefixSum | llvm/lib/Analysis/FunctionPropertiesAnalysis.cpp:87 | the first n histogram entries sum to the number of instructions with an opcode below n |
| FunctionPropertiesAnalysis.OpcodeHistogramSum | llvm/lib/Analysis/FunctionPropertiesAnalysis.cpp:25-28 | the OpCodeCount entries sum to InstructionCount: every instruction is counted under exactly one opcode |
| FunctionPropertiesAnalysis.SmallAgreesWithInfo | llvm/lib/Analysis/FunctionPropertiesAnalysis.cpp:100-159 | the small record's counters agree with the full record's corresponding counters and histogram entries |
| FeatureLayout.LayoutVector | llvm/lib/Analysis/MLPassResultPredictor.cpp:433-519 | the per-pass feature vector has 87 entries; each scalar counter sits at its layout slot, and OpCodeCount[k] at the slot of opcode k for k in 1..66 (freeze has no slot) |
| FeatureLayout.RankInverse | llvm/lib/Analysis/MLPassResultPredictor.cpp:451-516 | the slot order of the opcode keys is a bijection between the opcodes 1..66 and the 66 opcode slots |
| FeatureLayout.LayoutPositions | llvm/lib/Analysis/MLPassResultPredictor.cpp:433-519 | every slot's value sits at that value's position; slots 18..83 hold the opcode counts, of opcodes 1..66 |
| FeatureLayout.LayoutDistinct | llvm/lib/Analysis/MLPassResultPredictor.cpp:433-519 | the layout has exactly 87 slots and no value twice |
| FeatureLayout.LayoutFields | llvm/lib/Analysis/MLPassResultPredictor.cpp:433-519 | each of the 21 scalar counters is at its slot |
| FeatureLayout.LayoutOpcodes | llvm/lib/Analysis/MLPassResultPredictor.cpp:451-516 | every opcode 1..66 appears in slots 18..83, each exactly once |
| FeatureLayout.NumeralsInOrder | llvm/lib/Analysis/MLPassResultPredictor.cpp:451-516 | consecutive opcode slots carry numerals in string order (OpCodeCount_1, _10, _11, …) |
| FeatureLayout.OpcodeNamesInOrder | llvm/lib/Analysis/MLPassResultPredictor.cpp:451-516 | the key names of consecutive opcode slots increase |
| FeatureLayout.OpcodeBlockBoundaries | llvm/lib/Analysis/MLPassResultPredictor.cpp:450-517 | the opcode block sorts between MediumBasicBlock and SmallBasicBlock |
| FeatureLayout.LayoutNamesAdjacentOrder | llvm/lib/Analysis/MLPassResultPredictor.cpp:433-519 | every pair of adjacent slots is in lexicographic key order |
| FeatureLayout.LexLessTransitive | llvm/lib/Analysis/MLPassResultPredictor.cpp:433-519 | lexicographic key order is transitive |
| FeatureLayout.LayoutNamesSorted | llvm/lib/Analysis/MLPassResultPredictor.cpp:433-519 | all 87 key names are in strictly increasing lexicographic order, so they are distinct |
| InlineModelFeatureMaps.Index | llvm/include/llvm/Analysis/InlineModelFeatureMaps.h:26-60 | each feature's index is below NumberOfFeatures (11) |
| InlineModelFeatureMaps.FromIndex | llvm/include/llvm/Analysis/InlineModelFeatureMaps.h:55-63 | every index below 11 names the feature with that index |
| InlineModelFeatureMaps.IndexBijection | llvm/include/llvm/Analysis/InlineModelFeatureMaps.h:26-63 | Index is a bijection between the 11 features and 0..10, from CalleeBasicBlockCount = 0 to CalleeUsers = 10 |
| InlineModelFeatureMaps.FeatureNameMap | llvm/lib/Analysis/MLInlineAdvisor.cpp:46-50 | the name table has 11 entries, and entry Index(f) is f's textual name |
| InlineModelFeatureMaps.FeatureNamed | llvm/include/llvm/Analysis/InlineModelFeatureMaps.h:26-49 | a helper with no counterpart in the source: the reverse lookup of a name, which resolves only to a feature carrying that name; a proof device for FeatureNamesDistinct |
| InlineModelFeatureMaps.NameBindsBack | llvm/include/llvm/Analysis/InlineModelFeatureMaps.h:26-49 | every feature's name resolves back to that feature |
| InlineModelFeatureMaps.FeatureNamesDistinct | llvm/include/llvm/Analysis/InlineModelFeatureMaps.h:26-49 | the 11 names are pairwise distinct |
| PredictionModel.Scores | llvm/include/llvm/Analysis/FunctionPassResultPredictionModel.h:58-60 | a helper for the Network abstraction of a compiled model: its output buffer, one score per output for the given inputs |
| PredictionModel.ModelImpl.constructor | llvm/include/llvm/Analysis/FunctionPassResultPredictionModel.h:46-50 | a new ModelImpl holds a valid, fresh compiled model |
| PredictionModel.ModelImpl.SetFeature | llvm/include/llvm/Analysis/FunctionPassResultPredictionModel.h:53-56 | getFeature(i) afterwards is v, and every other input slot is unchanged |
| PredictionModel.ModelImpl.Run | llvm/include/llvm/Analysis/FunctionPassResultPredictionModel.h:58-64 | true exactly when the first output score is above 0.5 |
| PredictionModel.AllRunner.SetFeature | llvm/lib/Analysis/PassResultAnalysis.cpp:37-41 | writes one input slot and leaves the others unchanged |
| PredictionModel.AllRunner.SetFeatures | llvm/lib/Analysis/PassResultAnalysis.cpp:70-72 | after the copy loop, input slot i holds CodeFeature[i] for every i |
| PredictionModel.AllRunner.GetResult | llvm/lib/Analysis/PassResultAnalysis.cpp:30-36 | one decision per output, and decision i is true exactly when score i is above 0.5 |
| PredictionModel.FunctionPassResultPredictionModel.Get | llvm/lib/Analysis/FunctionPassResultPredictionModel.cpp:25-49 | a known name gets its stored entry and nothing changes; the nine registered names get a new model on first use; any other name (LCSSAPass among them) gets null; afterwards the name is a key of Models |
| PredictionModel.GetTwice | llvm/lib/Analysis/FunctionPassResultPredictionModel.cpp:34-35 | two lookups of one name return the same model |
| Statistics.PredictionStatistics.RecordPrediction | llvm/lib/Analysis/MLPassResultPredictor.cpp:358-359 | one prediction is counted, as true or as false, and NumPrediction == NumPredictionTrue + NumPredictionFalse is kept |
| PassResultAnalysis.Increment | llvm/include/llvm/Analysis/PassResultAnalysis.h:29 | the unsigned record counter goes up by 1, wrapping at 2^32 |
| PassResultAnalysis.GetFunctionResultPrediction | llvm/lib/Analysis/PassResultAnalysis.cpp:49-85 | the registry and runner are created only when the context has none, and are reused afterwards; the runner's inputs are toVec of the function's properties, where toVec is an uninterpreted function of the catalog that makes 87 features; the result has one entry per output, each true iff its score is above 0.5, and counter 0; NumActualInference goes up by exactly 1 |
| PassResultAnalysis.FunctionAnalysisManager.GetCachedResult | llvm/lib/Analysis/MLPassResultPredictor.cpp:344-346 | a helper for the analysis manager's cache lookup: the cached record for the function, if there is one |
| PassResultAnalysis.FunctionAnalysisManager.GetResult | llvm/lib/Analysis/PassResultAnalysis.cpp:87-90 | a cached record is returned as is and nothing changes; otherwise one inference runs and its record is cached |
| PassResultAnalysis.FunctionAnalysisManager.IncrementCounter | llvm/lib/Analysis/MLPassResultPredictor.cpp:348 | the cached record's counter goes up by 1 (wrapping as an unsigned), and nothing else changes |
| PassResultAnalysis.FunctionAnalysisManager.PassHistory | llvm/lib/Analysis/MLPassResultPredictor.cpp:589 | the function's pass history, inserted empty when absent |
| PassResultPredictor.StageIndex | llvm/lib/Analysis/MLPassResultPredictor.cpp:326-341 | the first position of the name in the 11-entry stage table, or 11 exactly when the name is not in it |
| PassResultPredictor.FindStage | llvm/lib/Analysis/MLPassResultPredictor.cpp:340-341 | the search loop finds StageIndex(name) |
| PassResultPredictor.ReuseStep | llvm/lib/Analysis/MLPassResultPredictor.cpp:343-356 | with no cached record the fresh inference answers; while the incremented counter is below PredictionReuse the cached answer is reused and the counter goes up by 1; otherwise a fresh inference with counter 0 answers |
| PassResultPredictor.ReuseStepAsWritten | llvm/lib/Analysis/MLPassResultPredictor.cpp:343-356 | as written, any cached record answers, whatever the counter |
| PassResultPredictor.ReuseKeepsCounterBelowBound | llvm/lib/Analysis/MLPassResultPredictor.cpp:133-135 | with the corrected step, a cached counter stays below PredictionReuse |
| PassResultPredictor.AsWrittenIgnoresReuseBound | llvm/lib/Analysis/MLPassResultPredictor.cpp:343-356 | a record with counter 3 and PredictionReuse 4 is still reused as written, where a fresh inference answers differently |
| PassResultPredictor.ConsultCache | llvm/lib/Analysis/MLPassResultPredictor.cpp:343-356 | the answer and the new cache entry are those of ReuseStep over the cached record and a fresh inference; NumActualInference goes up by exactly 1 when no record is cached or the incremented counter reaches the reuse bound, and is unchanged otherwise |
| PassResultPredictor.PredictAll | llvm/lib/Analysis/MLPassResultPredictor.cpp:315-364 | RunPrediction off: true, nothing changes; trivial function (NotRunForTrivial and fewer than 5 instructions): true, only NumPredictionForTrivial moves; name outside the stage table: true, nothing changes; otherwise the reuse step answers, one prediction is counted, and NumActualInference goes up by 1 exactly when the reuse step recomputes; NumPrediction == True + False is kept |
| PassResultPredictor.HeuristicScore | llvm/lib/Analysis/MLPassResultPredictor.cpp:392-414 | a scorer answers exactly for the five heuristic pass names, and SROA is scored by the Reassociate scorer |
| PassResultPredictor.WriteLayout | llvm/lib/Analysis/MLPassResultPredictor.cpp:433-519 | the 87 setFeature calls leave the model's inputs equal to LayoutVector of the features |
| PassResultPredictor.Predict | llvm/lib/Analysis/MLPassResultPredictor.cpp:378-553 | no input: true, nothing changes; heuristic strategy: the scorer's answer is counted, and an unrecognised name gives true with the counters untouched; model strategy: a null model gives true uncounted, otherwise the answer is "score above 0.5" on the 87 features, counted; NumPrediction == True + False is kept |
| PassResultPredictor.CreateInput | llvm/lib/Analysis/MLPassResultPredictor.cpp:570-602 | an input exists exactly when RunPrediction is on and the name is an input pass of the strategy; it carries the function's properties, its pass history and the name |
| PassResultPredictor.HeuristicInputsAreScored | llvm/lib/Analysis/MLPassResultPredictor.cpp:583-590 | under the heuristic strategy, inputs are built for exactly the names a scorer answers for |
| PassResultPredictor.InputsWithoutModel | llvm/lib/Analysis/MLPassResultPredictor.cpp:563-568 | LCSSAPass and GVN get a model-path input but have no registered model, and every registered model's name gets an input |
| MLInlineAdvisor.InlinableCallee | llvm/lib/Analysis/MLInlineAdvisor.cpp:56-64 | a call is inlinable exactly when it has a direct callee that is not a declaration |
| MLInlineAdvisor.CallsLevelIsMax | llvm/lib/Analysis/MLInlineAdvisor.cpp:87-97 | the calls' level bounds (callee level + 1) over inlinable callees that have a level, and is 0 or attained; callees without a level are skipped |
| MLInlineAdvisor.SccLevelIsMax | llvm/lib/Analysis/MLInlineAdvisor.cpp:80-98 | an SCC's level bounds every defined member's call level and is 0 or attained by one |
| MLInlineAdvisor.AssignLevelSetsMembers | llvm/lib/Analysis/MLInlineAdvisor.cpp:99-104 | every defined function of the SCC gets the same level, and every other function keeps its level |
| MLInlineAdvisor.SccLevelOf | llvm/lib/Analysis/MLInlineAdvisor.cpp:82-98 | the first SCC loop computes SccLevel |
| MLInlineAdvisor.ComputeFunctionLevels | llvm/lib/Analysis/MLInlineAdvisor.cpp:80-105 | the constructor's SCC loop computes LevelsOf(sccs) |
| MLInlineAdvisor.LocalCalls | llvm/lib/Analysis/MLInlineAdvisor.cpp:120-123 | a function's local calls are its DirectCallsToDefinedFunctions |
| MLInlineAdvisor.GetModuleIRSize | llvm/lib/Analysis/MLInlineAdvisor.cpp:163-169 | the IR size summed over the defined functions |
| MLInlineAdvisor.TotalUpdate | llvm/lib/Analysis/MLInlineAdvisor.cpp:149-159 | replacing one defined function changes a module total by the difference of the two weights |
| MLInlineAdvisor.TotalRemove | llvm/lib/Analysis/MLInlineAdvisor.cpp:153-154 | deleting a defined function lowers a module total by its weight |
| MLInlineAdvisor.DeltaUpdateIsRecount | llvm/lib/Analysis/MLInlineAdvisor.cpp:138-160 | the node, edge and IR-size deltas of onSuccessfulInlining equal a recount of the module after inlining, so counters that track the module stay non-negative |
| MLInlineAdvisor.CountConstantArgs | llvm/lib/Analysis/MLInlineAdvisor.cpp:224-227 | NrCtantParams is the number of constant arguments, at most the number of arguments |
| MLInlineAdvisor.InlineFeaturesByIndex | llvm/lib/Analysis/MLInlineAdvisor.cpp:232-247 | the model's buffer holds each feature's value at that feature's index, so each of the 11 slots is written exactly once |
| MLInlineAdvisor.InlineModelRunner.SetFeatures | llvm/lib/Analysis/MLInlineAdvisor.cpp:232-247 | after the 11 writes, the buffer is the feature vector, whatever it held before |
| MLInlineAdvisor.Advisor.constructor | llvm/lib/Analysis/MLInlineAdvisor.cpp:66-106 | InitialIRSize and CurrentIRSize are the module's IR size, and FunctionLevels is LevelsOf over the bottom-up SCCs |
| MLInlineAdvisor.Advisor.OnPassEntry | llvm/lib/Analysis/MLInlineAdvisor.cpp:108-118 | NodeCount is the number of defined functions, and EdgeCount is the sum of their local calls |
| MLInlineAdvisor.Advisor.OnSuccessfulInlining | llvm/lib/Analysis/MLInlineAdvisor.cpp:130-161 | requires ForceStop false; CurrentIRSize gains IRSizeAfter − (CallerIRSize + CalleeIRSize), where IRSizeAfter omits a deleted callee; ForceStop becomes CurrentIRSize > threshold × InitialIRSize; NodeCount drops by 1 exactly when the callee was deleted; EdgeCount trades the old caller-and-callee edges for the new ones |
| MLInlineAdvisor.Advisor.GetAdvice | llvm/lib/Analysis/MLInlineAdvisor.cpp:171-261 | the cascade in order: never-inline or recursive gives false; ForceStop gives the mandatory flag; not inlinable gives false; mandatory gives an ML advice of true; otherwise the caller's level is inserted (0 if absent), the 11 features are written, and the model decides |

## Left out

- `toJSON` and `print` of both property records (FunctionPropertiesAnalysis.cpp:162-208) are serialisation to a JSON or stream library and are not modelled.
- `dump` and `dumpAllResult` (MLPassResultPredictor.cpp:176-307) are not modelled: they clone functions, run real passes and write files.
- The heuristic scorers `predict_LICM`, `predict_GVN`, `predict_ReassociatePass` and `predict_InstSimplifyPass` live in generated files that are not part of this model. They are function-valued fields of `Scorers`.
- The ahead-of-time compiled models are likewise not part of this model. Each is a `Network`: its input and output counts and a score function.
- `PassResultAnalysis.GetFunctionResultPrediction`: the body of `FunctionPropertiesInfo::toVec` is not part of this model (FunctionPropertiesAnalysis.h:35 only declares it). It is the catalog's `toVec` field, of which only the length 87 is known, from the assert at PassResultAnalysis.cpp:68. The model does not claim that it follows the 87-slot layout of MLPassResultPredictor.cpp:433-519.
- Instruction.def is not part of this model. Opcodes are numbered as in LLVM 12, from 1 to Freeze = 67, with OtherOpsEnd = 68. Every instruction carries one of these opcodes (the `Opcode` subset type). The layout, like toJSON's loop, covers only opcodes 1..66.
- The return value of a compiled model's `Run` is ignored by the source and is not modelled.
- The inlining model's decision is a function of its 11 inputs, `InlineModelRunner.decide`, because the runner class for inlining is not part of this model.
- The 14-slot small layout (MLPassResultPredictor.cpp:520-534) is not modelled, because `USE_NORMAL` is defined at line 259 and makes it dead code.
- The per-pass model branch of `predict` (lines 416-430) is inactive because `SIMPLE_LOG` is defined at line 258. It is modelled as the `PerPassModel` strategy, next to the active `Heuristic` strategy.
- The static `first` flag and the static pass manager of `predict_all` are replaced by the constant stage table `StagePasses`. The loop over `FPM.Passes` compares the pass names against that table.
- LoopInfo, TTI's size estimate (`getIRSize`), the call graph and its SCC iterator, `getAttributeBasedInliningDecision` and `getInliningCostEstimate` are foreign analyses. Their answers are inputs:
  - per-block loop depth and the top-level loop count;
  - an `irSize` function;
  - the SCCs in bottom-up order;
  - an optional trivial decision;
  - an optional cost estimate.
- Functions and call-graph nodes are identified by their names. `&Caller == &Callee` becomes name equality.
- The optimisation remarks (ORE) and the `MLInlineAdvice` remark methods are not modelled. `recordInliningImpl` and `recordInliningWithCalleeDeletedImpl` only call `onSuccessfulInlining` with `calleeWasDeleted` false and true.
- MLInlineAdvisor.h is not part of this model, so the advice constructor is not visible. The sizes and edges an ML advice carries (`CallerIRSize`, `CalleeIRSize`, `CallerAndCalleeEdges`) are taken as the caller's and callee's values at advice time.
- `SizeIncreaseThreshold` is a C++ `float` and is modelled as a `real`. IEEE rounding is not modelled.
- int64 counters and feature values are unbounded integers. Overflow is not modelled.
- `PassResultAnalysis.GetFunctionResultPrediction`: the source dereferences the context's `ModelRunner` without checking it, so a registry created first by the per-pass path would crash there. The model requires instead that a registry, when present, has a runner (`RunnerReady`).
- The pass history `PassResults` is carried into `PredictorInput` but nothing reads it; it is not modelled further.
- MLPassResultPredictor.h declares signatures that do not match the definitions, so it is not used.
- A checkpointed batch predictor over several upcoming passes does not exist in the source and is not modelled.
- Concurrency is not modelled.
- `PassResultPredictor.PredictAll` and `PassResultPredictor.ConsultCache` use the corrected reuse step (see Findings). As written, the source never recomputes a cached record; `ReuseStepAsWritten` models that behaviour.

## Findings

| source | as written | input that shows it | evidently intended | confidence | as-written member | corrected member |
|---|---|---|---|---|---|---|
| llvm/lib/Analysis/MLPassResultPredictor.cpp:343-356 | once the counter reaches PredictionReuse, the "recompute" branch calls `FAM.getResult`. That returns the already cached record, so the stale record answers again and its counter keeps growing. The reuse bound never forces a new inference. | cached record `([true], 3)`, PredictionReuse 4, a fresh inference giving `[false]`: as written the answer is true and the counter is 4; the bound asks for a new inference, whose answer is false | after PredictionReuse uses, drop the cached record and run a new inference, which restarts the counter at 0 | medium, not executed | PassResultPredictor.ReuseStepAsWritten, PassResultPredictor.AsWrittenIgnoresReuseBound | PassResultPredictor.ReuseStep, PassResultPredictor.ConsultCache, PassResultPredictor.ReuseKeepsCounterBelowBound |
