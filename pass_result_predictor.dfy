/**
 * MLPassResultPredictor.cpp, for functions: the decision whether a pass is
 * worth running on a function.
 *
 *  - predict_all answers from the all-passes model, whose record per
 *    function is cached and reused a bounded number of times;
 *  - predict answers for one pass from a heuristic scorer (the configuration
 *    the file is built with) or from that pass's own model;
 *  - createInput decides for which passes an input is made at all.
 *
 * Every path fails open: when no prediction is made the answer is true (run
 * the pass).
 */
module PassResultPredictor {
  import opened Wrappers
  import opened IR
  import opened FunctionProperties
  import opened FunctionPropertiesAnalysis
  import opened FeatureLayout
  import opened PredictionModel
  import opened Statistics
  import opened PassResultAnalysis

  /** The command-line options the predictor reads. */
  datatype Options = Options(RunPrediction: bool, NotRunForTrivial: bool, PredictionReuse: nat)

  /** The options' defaults: no prediction, trivial functions predicted too, reuse 4. */
  const DefaultOptions: Options := Options(false, false, 4)

  /** Functions with fewer instructions than this are trivial. */
  const TrivialSize: nat := 5

  /** Whether the options skip `f` as trivial. */
  predicate Trivial(opts: Options, f: Function) {
    opts.NotRunForTrivial && IR.InstructionCount(f.blocks) < TrivialSize
  }

  /** The passes of the stage table, in the order of the outputs of the
      all-passes model. */
  const StagePasses: seq<string> := [
    "SimplifyCFGPass", "SROA", "EarlyCSEPass", "InstSimplifyPass", "GVN",
    "LoopUnrollPass", "BDCEPass", "TailCallElimPass", "JumpThreadingPass",
    "CorrelatedValuePropagationPass", "InstCombinePass"]

  // ---------------------------------------------------------------------------
  // The stage table

  /** The first position of `name` in `s` at or after `from`, or |s|. */
  function IndexFrom(s: seq<string>, name: string, from: nat): (i: nat)
    requires from <= |s|
    ensures from <= i <= |s|
    ensures i < |s| ==> s[i] == name
    ensures forall k | from <= k < i :: s[k] != name
    decreases |s| - from
  {
    if from == |s| then |s| else if s[from] == name then from else IndexFrom(s, name, from + 1)
  }

  /** The output of the all-passes model that answers for pass `name`:
      its first position in the stage table, or |StagePasses| if it has none. */
  function StageIndex(name: string): (i: nat)
    ensures i <= |StagePasses|
    ensures i < |StagePasses| <==> name in StagePasses
    ensures i < |StagePasses| ==> StagePasses[i] == name
    ensures forall k | 0 <= k < i :: StagePasses[k] != name
  {
    IndexFrom(StagePasses, name, 0)
  }

  /** The search loop of predict_all over the stage table. */
  method FindStage(name: string) returns (i: nat)
    ensures i == StageIndex(name)
  {
    i := 0;
    while i < |StagePasses| && StagePasses[i] != name
      invariant i <= |StagePasses|
      invariant forall k | 0 <= k < i :: StagePasses[k] != name
      invariant IndexFrom(StagePasses, name, i) == StageIndex(name)
      decreases |StagePasses| - i
    {
      i := i + 1;
    }
  }

  // ---------------------------------------------------------------------------
  // Reusing the cached record

  /** The answer predict_all gives for stage i and the record it leaves in
      the cache. */
  datatype Outcome = Outcome(answer: bool, record: FunctionPassResultPrediction)

  /** One consultation of the record cache for stage i, as the reuse counter
      is meant to work: with no cached record, or once the cached record has
      been consulted PredictionReuse times in all, the answer comes from
      `recomputed`, a newly computed record; otherwise from the cached record,
      whose counter goes up by one. */
  function ReuseStep(cached: Option<FunctionPassResultPrediction>, recomputed: FunctionPassResultPrediction,
                     reuse: nat, i: nat): (o: Outcome)
    requires i < |recomputed.result|
    requires cached.Some? ==> i < |cached.value.result|
    ensures cached.None? ==> o == Outcome(recomputed.result[i], recomputed)
    ensures cached.Some? && Increment(cached.value.counter) < reuse ==>
              o.answer == cached.value.result[i] && o.record.result == cached.value.result
              && o.record.counter == Increment(cached.value.counter)
    ensures cached.Some? && Increment(cached.value.counter) >= reuse ==> o == Outcome(recomputed.result[i], recomputed)
  {
    match cached
    case None => Outcome(recomputed.result[i], recomputed)
    case Some(c) =>
      var n := Increment(c.counter);
      if n < reuse then Outcome(c.result[i], c.(counter := n)) else Outcome(recomputed.result[i], recomputed)
  }

  /** Whether the intended step runs an inference: when no record is cached,
      or when the cached record's incremented counter reaches the reuse bound. */
  predicate Recomputes(cached: Option<FunctionPassResultPrediction>, reuse: nat) {
    cached.None? || Increment(cached.value.counter) >= reuse
  }

  /** The same consultation as MLPassResultPredictor.cpp:343-356 writes it:
      the branch for a record consulted too often asks the analysis manager
      for the result again, which hands back the same cached record, so both
      branches answer from the cached record. */
  function ReuseStepAsWritten(cached: Option<FunctionPassResultPrediction>, recomputed: FunctionPassResultPrediction,
                              reuse: nat, i: nat): (o: Outcome)
    requires i < |recomputed.result|
    requires cached.Some? ==> i < |cached.value.result|
    ensures cached.Some? ==> o.answer == cached.value.result[i] && o.record.result == cached.value.result
    ensures cached.None? ==> o == Outcome(recomputed.result[i], recomputed)
  {
    match cached
    case None => Outcome(recomputed.result[i], recomputed)
    case Some(c) =>
      var n := Increment(c.counter);
      if n < reuse then Outcome(c.result[i], c.(counter := n)) else Outcome(c.result[i], c.(counter := n))
  }

  /** A record left in the cache has been consulted fewer than PredictionReuse
      times: the intended step keeps every cached counter below the reuse
      bound. */
  lemma ReuseKeepsCounterBelowBound(c: FunctionPassResultPrediction, recomputed: FunctionPassResultPrediction,
                                    reuse: nat, i: nat)
    requires i < |recomputed.result| && i < |c.result|
    requires recomputed.counter == 0 && 1 <= reuse
    requires c.counter < reuse
    ensures ReuseStep(Some(c), recomputed, reuse, i).record.counter < reuse
  {
  }

  /** As written, a record is answered from however often it was consulted:
      with reuse 4, a record consulted 3 times before is used again although
      a new inference answers differently, and the counter passes the bound. */
  lemma AsWrittenIgnoresReuseBound()
    ensures var c := FunctionPassResultPrediction([true], 3);
            var recomputed := FunctionPassResultPrediction([false], 0);
            ReuseStepAsWritten(Some(c), recomputed, 4, 0).answer != ReuseStep(Some(c), recomputed, 4, 0).answer
            && ReuseStepAsWritten(Some(c), recomputed, 4, 0).record.counter == 4
  {
  }

  // ---------------------------------------------------------------------------
  // predict_all

  /** Every cached record has one decision per output of the all-passes model. */
  ghost predicate CacheFits(fam: FunctionAnalysisManager, outputs: nat)
    reads fam
  {
    forall n | n in fam.cache :: |fam.cache[n].result| == outputs
  }

  /** The cache consultation of predict_all for stage i of `f`: the answer
      and the new cached record are those of ReuseStep. */
  method ConsultCache(f: Function, fam: FunctionAnalysisManager, i: nat, reuse: nat,
                      ctx: Context, stats: PredictionStatistics) returns (res: bool)
    requires ctx.Valid() && RunnerReady(ctx)
    requires i < ctx.catalog.all.outputCount
    requires CacheFits(fam, ctx.catalog.all.outputCount)
    modifies fam, ctx, stats, RunnerBuffers(ctx)
    ensures ctx.Valid() && RunnerReady(ctx) && CacheFits(fam, ctx.catalog.all.outputCount)
    ensures fam.PassResults == old(fam.PassResults)
    ensures var o := ReuseStep(old(fam.GetCachedResult(f)), Inference(ctx.catalog, f), reuse, i);
            res == o.answer && fam.cache == old(fam.cache)[f.name := o.record]
    ensures stats.NumActualInference
            == old(stats.NumActualInference) + (if Recomputes(old(fam.GetCachedResult(f)), reuse) then 1 else 0)
    ensures stats.NumPrediction == old(stats.NumPrediction)
    ensures stats.NumPredictionTrue == old(stats.NumPredictionTrue)
    ensures stats.NumPredictionFalse == old(stats.NumPredictionFalse)
    ensures stats.NumPredictionForTrivial == old(stats.NumPredictionForTrivial)
  {
    var cached := fam.GetCachedResult(f);
    if cached.Some? {
      fam.IncrementCounter(f);
      var counter := fam.cache[f.name].counter;
      if counter < reuse {
        res := fam.cache[f.name].result[i];
      } else {
        fam.Invalidate(f);
        var r := fam.GetResult(f, ctx, stats);
        res := r.result[i];
        assert fam.cache == old(fam.cache)[f.name := r];
      }
    } else {
      var r := fam.GetResult(f, ctx, stats);
      res := r.result[i];
    }
  }

  /** predict_all: whether pass `name` should run on `f`. */
  method PredictAll(opts: Options, f: Function, fam: FunctionAnalysisManager, name: string,
                    ctx: Context, stats: PredictionStatistics) returns (res: bool)
    requires ctx.Valid() && RunnerReady(ctx)
    requires ctx.catalog.all.outputCount >= |StagePasses|
    requires CacheFits(fam, ctx.catalog.all.outputCount)
    modifies fam, ctx, stats, RunnerBuffers(ctx)
    ensures ctx.Valid() && RunnerReady(ctx) && CacheFits(fam, ctx.catalog.all.outputCount)
    ensures fam.PassResults == old(fam.PassResults)
    ensures old(stats.Consistent()) ==> stats.Consistent()
    // prediction switched off: run the pass, nothing changes
    ensures !opts.RunPrediction ==>
              res && fam.cache == old(fam.cache) && unchanged(stats) && ctx.predictor == old(ctx.predictor)
    // a trivial function: run the pass, count it as trivial only
    ensures opts.RunPrediction && Trivial(opts, f) ==>
              res && fam.cache == old(fam.cache) && ctx.predictor == old(ctx.predictor)
              && stats.NumPredictionForTrivial == old(stats.NumPredictionForTrivial) + 1
              && stats.NumPrediction == old(stats.NumPrediction)
              && stats.NumPredictionTrue == old(stats.NumPredictionTrue)
              && stats.NumPredictionFalse == old(stats.NumPredictionFalse)
              && stats.NumActualInference == old(stats.NumActualInference)
    // a pass outside the stage table: run it, nothing changes
    ensures opts.RunPrediction && !Trivial(opts, f)
            && name !in StagePasses ==>
              res && fam.cache == old(fam.cache) && unchanged(stats) && ctx.predictor == old(ctx.predictor)
    // a pass of the stage table: the reuse step decides, and the prediction is counted
    ensures opts.RunPrediction && !Trivial(opts, f)
            && name in StagePasses ==>
              var o := ReuseStep(old(fam.GetCachedResult(f)), Inference(ctx.catalog, f),
                                 opts.PredictionReuse, StageIndex(name));
              res == o.answer && fam.cache == old(fam.cache)[f.name := o.record]
              && stats.NumPrediction == old(stats.NumPrediction) + 1
              && stats.NumPredictionTrue == old(stats.NumPredictionTrue) + (if res then 1 else 0)
              && stats.NumPredictionFalse == old(stats.NumPredictionFalse) + (if res then 0 else 1)
              && stats.NumPredictionForTrivial == old(stats.NumPredictionForTrivial)
              && stats.NumActualInference
                 == old(stats.NumActualInference)
                    + (if Recomputes(old(fam.GetCachedResult(f)), opts.PredictionReuse) then 1 else 0)
  {
    if !opts.RunPrediction {
      return true;
    }
    if Trivial(opts, f) {
      stats.NumPredictionForTrivial := stats.NumPredictionForTrivial + 1;
      return true;
    }
    var i := FindStage(name);
    if i == |StagePasses| {
      return true;
    }
    res := ConsultCache(f, fam, i, opts.PredictionReuse, ctx, stats);
    stats.RecordPrediction(res);
  }

  // ---------------------------------------------------------------------------
  // predict

  /** PredictorInput: the features of the function, its pass history and the
      name of the pass asked about. */
  datatype PredictorInput = PredictorInput(Features: FunctionPropertiesInfo,
                                           PassResults: seq<(string, bool)>,
                                           PassName: string)

  /** Where predict takes its answer from: the heuristic scorers (the
      configuration MLPassResultPredictor.cpp is built with), or each pass's
      own compiled model. */
  datatype Strategy = Heuristic | PerPassModel

  /** The heuristic scorers predict_LICM, predict_GVN, predict_ReassociatePass
      and predict_InstSimplifyPass; their bodies are generated code. */
  datatype Scorers = Scorers(
    licm: FunctionPropertiesInfo -> bool,
    gvn: FunctionPropertiesInfo -> bool,
    reassociate: FunctionPropertiesInfo -> bool,
    instSimplify: FunctionPropertiesInfo -> bool)

  const LICMAdaptor: string := "FunctionToLoopPassAdaptor<llvm::LICMPass>"

  /** The passes the heuristic configuration makes inputs for and scores. */
  const HeuristicPasses: seq<string> := [LICMAdaptor, "GVN", "SROA", "ReassociatePass", "InstSimplifyPass"]

  /** The heuristic answer for pass `name`, or None when no scorer answers
      for it. SROA is answered by the Reassociate scorer. */
  function HeuristicScore(s: Scorers, name: string, fpi: FunctionPropertiesInfo): (r: Option<bool>)
    ensures r.Some? <==> name in HeuristicPasses
    ensures name == "SROA" ==> r == Some(s.reassociate(fpi))
  {
    if name == LICMAdaptor then Some(s.licm(fpi))
    else if name == "GVN" then Some(s.gvn(fpi))
    else if name == "ReassociatePass" then Some(s.reassociate(fpi))
    else if name == "SROA" then Some(s.reassociate(fpi))
    else if name == "InstSimplifyPass" then Some(s.instSimplify(fpi))
    else None
  }

  /** Writes the 87 features of `fpi` into a per-pass model's input, slot by
      slot in layout order. */
  method WriteLayout(m: ModelImpl, fpi: FunctionPropertiesInfo)
    requires m.Valid() && m.compiled.arg0.Length == FeatureCount && WellFormed(fpi)
    modifies m.compiled.arg0
    ensures m.Valid()
    ensures m.compiled.arg0[..] == LayoutVector(fpi)
  {
    var v := LayoutVector(fpi);
    for i := 0 to FeatureCount
      invariant m.Valid()
      invariant m.compiled.arg0[..i] == v[..i]
    {
      m.SetFeature(i, SlotValue(fpi, Layout[i]));
    }
    assert m.compiled.arg0[..] == m.compiled.arg0[..FeatureCount];
  }

  /** The objects predict may write: the context's registry and every model buffer in it. */
  ghost function RegistryFootprint(ctx: Context): set<object>
    reads ctx, ctx.predictor
  {
    if ctx.predictor != null then {ctx.predictor as object} + ctx.predictor.ModelBuffers() else {}
  }

  /** predict: whether the pass an input was made for should run. */
  method Predict(input: Option<PredictorInput>, strategy: Strategy, scorers: Scorers,
                 ctx: Context, stats: PredictionStatistics) returns (res: bool)
    requires ctx.Valid()
    requires input.Some? ==> WellFormed(input.value.Features)
    modifies stats, ctx, RegistryFootprint(ctx)
    ensures ctx.Valid()
    ensures stats.NumPredictionForTrivial == old(stats.NumPredictionForTrivial)
    ensures stats.NumActualInference == old(stats.NumActualInference)
    ensures old(stats.Consistent()) ==> stats.Consistent()
    ensures input.None? ==> res && unchanged(stats) && unchanged(ctx)
    ensures input.Some? && strategy == Heuristic ==>
              unchanged(ctx)
              && var o := HeuristicScore(scorers, input.value.PassName, input.value.Features);
              (o.None? ==> res && unchanged(stats))
              && (o.Some? ==> res == o.value && stats.NumPrediction == old(stats.NumPrediction) + 1
                              && stats.NumPredictionTrue == old(stats.NumPredictionTrue) + (if res then 1 else 0)
                              && stats.NumPredictionFalse == old(stats.NumPredictionFalse) + (if res then 0 else 1))
    ensures input.Some? && strategy == PerPassModel ==>
              ctx.predictor != null && input.value.PassName in ctx.predictor.Models
              && (old(ctx.predictor) != null ==>
                    ctx.predictor == old(ctx.predictor) && ctx.predictor.ModelRunner == old(ctx.predictor.ModelRunner))
              && var name := input.value.PassName;
              (ctx.predictor.Models[name] == null ==> res && unchanged(stats))
              && (ctx.predictor.Models[name] != null ==>
                    (res <==> ctx.catalog.perPass(name).score(LayoutVector(input.value.Features), 0) > Threshold)
                    && stats.NumPrediction == old(stats.NumPrediction) + 1
                    && stats.NumPredictionTrue == old(stats.NumPredictionTrue) + (if res then 1 else 0)
                    && stats.NumPredictionFalse == old(stats.NumPredictionFalse) + (if res then 0 else 1))
  {
    if input.None? {
      return true;
    }
    var inp := input.value;
    var actuallyRun := true;
    match strategy {
      case Heuristic =>
        var o := HeuristicScore(scorers, inp.PassName, inp.Features);
        if o.Some? {
          res := o.value;
        } else {
          actuallyRun := false;
          res := true;
        }
      case PerPassModel =>
        if ctx.predictor == null {
          var registry := new FunctionPassResultPredictionModel(ctx.catalog);
          ctx.predictor := registry;
        }
        var model := ctx.predictor.Get(inp.PassName);
        if model == null {
          actuallyRun := false;
          res := true;
        } else {
          WriteLayout(model, inp.Features);
          res := model.Run();
        }
    }
    if actuallyRun {
      stats.RecordPrediction(res);
    }
  }

  // ---------------------------------------------------------------------------
  // createInput

  /** The passes the per-pass-model configuration makes inputs for. */
  const ModelInputPasses: seq<string> := [
    "SROA", "LoopUnrollPass", "BDCEPass", "EarlyCSEPass", "JumpThreadingPass",
    "TailCallElimPass", "SLPVectorizerPass", "LCSSAPass", "SimplifyCFGPass",
    "InstSimplifyPass", "GVN"]

  /** The passes a strategy makes inputs for. */
  function InputPasses(strategy: Strategy): seq<string> {
    match strategy
    case Heuristic => HeuristicPasses
    case PerPassModel => ModelInputPasses
  }

  /** The pass history the analysis manager keeps for `f` (empty if none yet). */
  function History(fam: FunctionAnalysisManager, f: Function): seq<(string, bool)>
    reads fam
  {
    if f.name in fam.PassResults then fam.PassResults[f.name] else []
  }

  /** createInput: an input for pass `name` on `f`, made only when prediction
      is on and the strategy knows the pass. Looking up the pass history
      creates an empty one for `f` if it had none. */
  method CreateInput(opts: Options, strategy: Strategy, f: Function, fam: FunctionAnalysisManager,
                     name: string) returns (input: Option<PredictorInput>)
    modifies fam
    ensures fam.cache == old(fam.cache)
    ensures input.Some? <==> opts.RunPrediction && name in InputPasses(strategy)
    ensures input.Some? ==>
              input.value == PredictorInput(Properties(f), old(History(fam, f)), name)
              && fam.PassResults == old(fam.PassResults)[f.name := old(History(fam, f))]
    ensures input.None? ==> fam.PassResults == old(fam.PassResults)
  {
    if !opts.RunPrediction {
      return None;
    }
    if name in InputPasses(strategy) {
      var features := GetFunctionPropertiesInfo(f);
      var history := fam.PassHistory(f);
      input := Some(PredictorInput(features, history, name));
    } else {
      input := None;
    }
  }

  /** With the heuristic configuration, every pass an input is made for is
      answered by a scorer, and every scored pass gets an input. */
  lemma HeuristicInputsAreScored(s: Scorers, name: string, fpi: FunctionPropertiesInfo)
    ensures name in InputPasses(Heuristic) <==> HeuristicScore(s, name, fpi).Some?
  {
  }

  /** With the per-pass-model configuration, inputs are made for LCSSAPass and
      GVN, which have no registered model: predict answers true for them
      without counting a prediction. */
  lemma InputsWithoutModel()
    ensures "LCSSAPass" in InputPasses(PerPassModel) && "LCSSAPass" !in RegisteredModels
    ensures "GVN" in InputPasses(PerPassModel) && "GVN" !in RegisteredModels
    ensures forall n | n in RegisteredModels :: n in InputPasses(PerPassModel)
  {
  }
}
