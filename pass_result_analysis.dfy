/**
 * PassResultAnalysis.cpp/.h: FunctionPassResultAnalysis, which runs the
 * all-passes model once on a function's 87 features and records one decision
 * per pass, and the part of the FunctionAnalysisManager the predictor talks
 * to: the cache of those records and the per-function pass history.
 */
module PassResultAnalysis {
  import opened Wrappers
  import opened IR
  import opened FunctionProperties
  import opened FunctionPropertiesAnalysis
  import opened FeatureLayout
  import opened PredictionModel
  import opened Statistics

  /** FunctionPassResultPrediction: one decision per output of the
      all-passes model, and how many times the record has been consulted
      (an `unsigned`, 0 when the record is made). */
  datatype FunctionPassResultPrediction = FunctionPassResultPrediction(result: seq<bool>, counter: nat)

  /** `counter++` on an `unsigned` (32 bits): wraps to 0 after 2^32 - 1. */
  function Increment(counter: nat): (n: nat)
    ensures counter + 1 < 0x1_0000_0000 ==> n == counter + 1
    ensures n < 0x1_0000_0000
  {
    (counter + 1) % 0x1_0000_0000
  }

  /** The record getFunctionResultPrediction makes for `f`: one decision per
      output of the all-passes model, true where the output's score for toVec
      of the features of `f` is above 0.5, and a zero counter. */
  ghost function Inference(c: Catalog, f: Function): FunctionPassResultPrediction {
    var x := c.toVec(Properties(f));
    FunctionPassResultPrediction(seq(c.all.outputCount, j requires 0 <= j => c.all.score(x, j) > Threshold), 0)
  }

  /** The buffers of the context's all-passes runner, if it has one. */
  ghost function RunnerBuffers(ctx: Context): set<object>
    reads ctx, ctx.predictor
  {
    if ctx.predictor != null && ctx.predictor.ModelRunner != null
    then {ctx.predictor.ModelRunner.compiled as object, ctx.predictor.ModelRunner.compiled.arg0}
    else {}
  }

  /** A context whose registry, if any, has an all-passes runner: a registry
      made by the per-pass prediction path has none, and the analysis would
      call through a null runner. */
  ghost predicate RunnerReady(ctx: Context)
    reads ctx, ctx.predictor
  {
    ctx.predictor != null ==> ctx.predictor.ModelRunner != null
  }

  /** getFunctionResultPrediction: makes the registry and its all-passes
      runner on first use (and only then), copies the 87 features of `f` into
      the runner's input, runs the model once and thresholds each output. */
  method GetFunctionResultPrediction(f: Function, ctx: Context, stats: PredictionStatistics)
    returns (fprp: FunctionPassResultPrediction)
    requires ctx.Valid() && RunnerReady(ctx)
    modifies ctx, stats, RunnerBuffers(ctx)
    ensures ctx.Valid() && ctx.predictor != null && ctx.predictor.ModelRunner != null
    ensures old(ctx.predictor) != null ==>
              ctx.predictor == old(ctx.predictor) && ctx.predictor.ModelRunner == old(ctx.predictor.ModelRunner)
    ensures old(ctx.predictor) == null ==>
              fresh(ctx.predictor) && fresh(ctx.predictor.ModelRunner) && ctx.predictor.Models == map[]
    ensures ctx.predictor.ModelRunner.compiled.arg0[..] == ctx.catalog.toVec(Properties(f))
    ensures fprp == Inference(ctx.catalog, f)
    ensures fprp.counter == 0
    ensures |fprp.result| == ctx.catalog.all.outputCount
    ensures forall j | 0 <= j < |fprp.result| ::
              fprp.result[j] <==> ctx.catalog.all.score(ctx.catalog.toVec(Properties(f)), j) > Threshold
    ensures stats.NumActualInference == old(stats.NumActualInference) + 1
    ensures stats.NumPrediction == old(stats.NumPrediction)
    ensures stats.NumPredictionTrue == old(stats.NumPredictionTrue)
    ensures stats.NumPredictionFalse == old(stats.NumPredictionFalse)
    ensures stats.NumPredictionForTrivial == old(stats.NumPredictionForTrivial)
  {
    if ctx.predictor == null {
      var registry := new FunctionPassResultPredictionModel(ctx.catalog);
      var runner := new AllRunner(ctx.catalog.all);
      registry.ModelRunner := runner;
      ctx.predictor := registry;
    }
    var pred := ctx.predictor.ModelRunner;
    var fpi := GetFunctionPropertiesInfo(f);
    var codeFeature := ctx.catalog.toVec(fpi);
    pred.SetFeatures(codeFeature);
    pred.Run();
    var result := pred.GetResult();
    stats.NumActualInference := stats.NumActualInference + 1;
    fprp := FunctionPassResultPrediction(result, 0);
  }

  /** The FunctionAnalysisManager of the predictor: the cached
      FunctionPassResultAnalysis record of each function (by name) and the
      pass history it keeps per function. */
  class FunctionAnalysisManager {
    var cache: map<string, FunctionPassResultPrediction>
    var PassResults: map<string, seq<(string, bool)>>

    constructor()
      ensures cache == map[] && PassResults == map[]
    {
      cache := map[];
      PassResults := map[];
    }

    /** getCachedResult: the record of `f` if one is cached. */
    function GetCachedResult(f: Function): (r: Option<FunctionPassResultPrediction>)
      reads this
      ensures r.Some? <==> f.name in cache
      ensures r.Some? ==> r.value == cache[f.name]
    {
      if f.name in cache then Some(cache[f.name]) else None
    }

    /** getResult: the cached record of `f`, or a newly computed one, which
        is then cached. */
    method GetResult(f: Function, ctx: Context, stats: PredictionStatistics)
      returns (r: FunctionPassResultPrediction)
      requires ctx.Valid() && RunnerReady(ctx)
      modifies this, ctx, stats, RunnerBuffers(ctx)
      ensures ctx.Valid() && RunnerReady(ctx)
      ensures PassResults == old(PassResults)
      ensures f.name in old(cache) ==>
                r == old(cache[f.name]) && cache == old(cache)
                && ctx.predictor == old(ctx.predictor) && unchanged(stats)
      ensures f.name !in old(cache) ==>
                r == Inference(ctx.catalog, f) && cache == old(cache)[f.name := r]
                && |r.result| == ctx.catalog.all.outputCount
                && (forall j | 0 <= j < |r.result| ::
                      r.result[j] <==> ctx.catalog.all.score(ctx.catalog.toVec(Properties(f)), j) > Threshold)
                && stats.NumActualInference == old(stats.NumActualInference) + 1
      ensures stats.NumPrediction == old(stats.NumPrediction)
      ensures stats.NumPredictionTrue == old(stats.NumPredictionTrue)
      ensures stats.NumPredictionFalse == old(stats.NumPredictionFalse)
      ensures stats.NumPredictionForTrivial == old(stats.NumPredictionForTrivial)
    {
      if f.name in cache {
        r := cache[f.name];
      } else {
        r := GetFunctionResultPrediction(f, ctx, stats);
        cache := cache[f.name := r];
      }
    }

    /** `FPP->counter++` on the cached record of `f`. */
    method IncrementCounter(f: Function)
      requires f.name in cache
      modifies this
      ensures cache == old(cache)[f.name := old(cache[f.name]).(counter := Increment(old(cache[f.name]).counter))]
      ensures PassResults == old(PassResults)
    {
      cache := cache[f.name := cache[f.name].(counter := Increment(cache[f.name].counter))];
    }

    /** PassResults[&F]: the pass history of `f`, created empty if it had none. */
    method PassHistory(f: Function) returns (h: seq<(string, bool)>)
      modifies this
      ensures h == (if f.name in old(PassResults) then old(PassResults[f.name]) else [])
      ensures PassResults == old(PassResults)[f.name := h] && cache == old(cache)
    {
      if f.name !in PassResults {
        PassResults := PassResults[f.name := []];
      }
      h := PassResults[f.name];
    }

    /** invalidate: drops the cached record of `f`. */
    method Invalidate(f: Function)
      modifies this
      ensures cache == old(cache) - {f.name} && PassResults == old(PassResults)
    {
      cache := cache - {f.name};
    }
  }
}
