/**
 * FunctionPassResultPredictionModel.h/.cpp: the ahead-of-time compiled
 * models with their input and output buffers, the per-pass model wrapper
 * ModelImpl, the all-passes runner of PassResultAnalysis.cpp, and the
 * registry that memoises one model per pass name and hangs off the
 * LLVMContext.
 *
 * A compiled model is foreign code: here it is a Network, i.e. its number of
 * inputs and outputs and the score each output takes for given inputs.
 */
module PredictionModel {
  import opened FunctionProperties
  import opened FeatureLayout

  /** The score threshold above which an output means "the pass changes the function". */
  const Threshold: real := 0.5

  /** What a compiled model computes: `score(x, j)` is output j for the inputs `x`. */
  datatype Network = Network(inputCount: nat, outputCount: nat, score: (seq<int>, nat) -> real)

  /** The outputs of `n` for the inputs `x`. */
  function Scores(n: Network, x: seq<int>): (s: seq<real>)
    ensures |s| == n.outputCount
    ensures forall j | 0 <= j < n.outputCount :: s[j] == n.score(x, j)
  {
    seq(n.outputCount, j requires 0 <= j => n.score(x, j))
  }

  /** The code the predictor calls whose body is not part of this model: the
      compiled models linked into the compiler (one per pass name, and the
      all-passes model AllPredictModel), and FunctionPropertiesInfo::toVec,
      which turns the features of a function into the all-passes model's
      inputs. */
  datatype Catalog = Catalog(perPass: string -> Network, all: Network,
                             toVec: FunctionPropertiesInfo -> seq<int>)

  /** The pass names FunctionPassResultPredictionModel::get registers a model for. */
  const RegisteredModels: seq<string> := [
    "SROA", "LoopUnrollPass", "BDCEPass", "EarlyCSEPass", "JumpThreadingPass",
    "TailCallElimPass", "SLPVectorizerPass", "SimplifyCFGPass", "InstSimplifyPass"]

  /** Every registered per-pass model and the all-passes model take 87
      features, every per-pass model has an output to read, and toVec makes
      87 features (the length getFunctionResultPrediction asserts). */
  ghost predicate CatalogComplete(c: Catalog) {
    (forall n | n in RegisteredModels :: c.perPass(n).inputCount == FeatureCount && c.perPass(n).outputCount >= 1)
    && c.all.inputCount == FeatureCount
    && (forall fpi: FunctionPropertiesInfo :: |c.toVec(fpi)| == FeatureCount)
  }

  /** An AOT compiled model object: its input buffer arg0 and its output
      buffer result0. */
  class CompiledModel {
    const network: Network
    const arg0: array<int>
    var result0: seq<real>

    ghost predicate Valid()
      reads this
    {
      arg0.Length == network.inputCount && |result0| == network.outputCount
    }

    constructor(n: Network)
      ensures network == n && Valid() && fresh(arg0)
      ensures arg0[..] == seq(n.inputCount, _ => 0)
    {
      network := n;
      arg0 := new int[n.inputCount](_ => 0);
      result0 := seq(n.outputCount, _ => 0.0);
    }

    /** Run: evaluates the network on the inputs and fills result0. */
    method Run()
      requires Valid()
      modifies this
      ensures Valid()
      ensures result0 == Scores(network, arg0[..])
    {
      result0 := Scores(network, arg0[..]);
    }
  }

  /** ModelImpl<T>: a per-pass model with a single output. */
  class ModelImpl {
    const compiled: CompiledModel

    /** The wrapped compiled model is valid and has an output to read. */
    ghost predicate Valid()
      reads this, compiled
    {
      compiled.Valid() && compiled.network.outputCount >= 1
    }

    constructor(n: Network)
      requires n.outputCount >= 1
      ensures Valid() && fresh(compiled) && fresh(compiled.arg0)
      ensures compiled.network == n
    {
      compiled := new CompiledModel(n);
    }

    /** setFeature: writes `value` to input slot `index`, and nothing else. */
    method SetFeature(index: nat, value: int)
      requires Valid() && index < compiled.arg0.Length
      modifies compiled.arg0
      ensures Valid()
      ensures GetFeature(index) == value
      ensures forall k | 0 <= k < compiled.arg0.Length && k != index :: compiled.arg0[k] == old(compiled.arg0[k])
      ensures compiled.arg0[..] == old(compiled.arg0[..])[index := value]
    {
      compiled.arg0[index] := value;
    }

    /** getFeature: the value of input slot `index`. */
    function GetFeature(index: nat): int
      requires index < compiled.arg0.Length
      reads compiled.arg0
    {
      compiled.arg0[index]
    }

    /** run: evaluates the model; true exactly when its first output is above 0.5. */
    method Run() returns (r: bool)
      requires Valid()
      modifies compiled
      ensures Valid()
      ensures r <==> compiled.network.score(compiled.arg0[..], 0) > Threshold
      ensures compiled.result0 == Scores(compiled.network, compiled.arg0[..])
    {
      compiled.Run();
      r := compiled.result0[0] > Threshold;
    }
  }

  /** AllPassResultPredictionModelRunner (PassResultAnalysis.cpp): the runner
      of the all-passes model, one output per pass of the stage table. */
  class AllRunner {
    const compiled: CompiledModel

    ghost predicate Valid()
      reads this, compiled
    {
      compiled.Valid()
    }

    constructor(n: Network)
      ensures Valid() && fresh(compiled) && fresh(compiled.arg0)
      ensures compiled.network == n
    {
      compiled := new CompiledModel(n);
    }

    /** setFeature: writes `value` to input slot `index`, and nothing else. */
    method SetFeature(index: nat, value: int)
      requires Valid() && index < compiled.arg0.Length
      modifies compiled.arg0
      ensures Valid()
      ensures GetFeature(index) == value
      ensures compiled.arg0[..] == old(compiled.arg0[..])[index := value]
    {
      compiled.arg0[index] := value;
    }

    /** getFeature: the value of input slot `index`. */
    function GetFeature(index: nat): int
      requires index < compiled.arg0.Length
      reads compiled.arg0
    {
      compiled.arg0[index]
    }

    /** The setFeature loop of getFunctionResultPrediction: writes `v[i]` to
        input slot i for every i. */
    method SetFeatures(v: seq<int>)
      requires Valid() && |v| == compiled.arg0.Length
      modifies compiled.arg0
      ensures Valid()
      ensures compiled.arg0[..] == v
    {
      for i := 0 to |v|
        invariant compiled.arg0[..i] == v[..i]
      {
        SetFeature(i, v[i]);
      }
      assert compiled.arg0[..] == compiled.arg0[..|v|];
    }

    /** run: evaluates the model. */
    method Run()
      requires Valid()
      modifies compiled
      ensures Valid()
      ensures compiled.result0 == Scores(compiled.network, compiled.arg0[..])
    {
      compiled.Run();
    }

    /** getResult: one decision per output, true exactly when that output's
        score is above 0.5. */
    method GetResult() returns (ret: seq<bool>)
      requires Valid()
      ensures |ret| == compiled.network.outputCount
      ensures forall i | 0 <= i < |ret| :: ret[i] <==> compiled.result0[i] > Threshold
    {
      ret := seq(compiled.network.outputCount, _ => false);
      for i := 0 to compiled.network.outputCount
        invariant |ret| == compiled.network.outputCount
        invariant forall k | 0 <= k < i :: ret[k] <==> compiled.result0[k] > Threshold
      {
        ret := ret[i := compiled.result0[i] > Threshold];
      }
    }
  }

  /** FunctionPassResultPredictionModel: the per-pass models built so far,
      keyed by pass name (a name without a model maps to null), and the
      runner of the all-passes model. */
  class FunctionPassResultPredictionModel {
    const catalog: Catalog
    var Models: map<string, ModelImpl?>
    var ModelRunner: AllRunner?

    /** Only registered names have a model, and every stored model is valid
        and is the compiled model registered under its name. */
    ghost predicate Valid()
      reads this, ModelObjects()
    {
      CatalogComplete(catalog)
      && forall n | n in Models && Models[n] != null ::
           n in RegisteredModels && Models[n].Valid() && Models[n].compiled.network == catalog.perPass(n)
    }

    /** The model objects in Models. */
    ghost function ModelObjects(): set<object>
      reads this
    {
      (set n | n in Models && Models[n] != null :: Models[n] as object)
      + (set n | n in Models && Models[n] != null :: Models[n].compiled as object)
    }

    /** Everything a model run may write: the buffers of every stored model. */
    ghost function ModelBuffers(): set<object>
      reads this
    {
      (set n | n in Models && Models[n] != null :: Models[n].compiled as object)
      + (set n | n in Models && Models[n] != null :: Models[n].compiled.arg0 as object)
    }

    constructor(c: Catalog)
      requires CatalogComplete(c)
      ensures Valid() && catalog == c && Models == map[] && ModelRunner == null
    {
      catalog := c;
      Models := map[];
      ModelRunner := null;
    }

    /** get: the model for pass `name`. A name seen before gets the stored
        entry back and nothing changes; otherwise a registered name gets a
        new model of its own and any other name gets null, and the answer is
        stored under the name. */
    method Get(name: string) returns (m: ModelImpl?)
      requires Valid()
      modifies this
      ensures Valid()
      ensures ModelRunner == old(ModelRunner)
      ensures name in Models && m == Models[name]
      ensures name in old(Models) ==> m == old(Models[name]) && Models == old(Models)
      ensures name !in old(Models) && name in RegisteredModels ==>
                m != null && fresh(m) && fresh(m.compiled) && fresh(m.compiled.arg0)
                && m.compiled.network == catalog.perPass(name)
                && Models == old(Models)[name := m]
      ensures name !in old(Models) && name !in RegisteredModels ==>
                m == null && Models == old(Models)[name := null]
      ensures m != null ==> name in RegisteredModels && m.Valid() && m.compiled.network == catalog.perPass(name)
    {
      if name in Models {
        m := Models[name];
        return;
      }
      if name in RegisteredModels {
        var model := new ModelImpl(catalog.perPass(name));
        Models := Models[name := model];
      } else {
        Models := Models[name := null];
      }
      m := Models[name];
    }
  }

  /** Asking the registry twice for the same name gives the same model. */
  method GetTwice(r: FunctionPassResultPredictionModel, name: string) returns (m1: ModelImpl?, m2: ModelImpl?)
    requires r.Valid()
    modifies r
    ensures m1 == m2
    ensures m1 != null <==> (name in old(r.Models) && old(r.Models[name]) != null)
                            || (name !in old(r.Models) && name in RegisteredModels)
  {
    m1 := r.Get(name);
    m2 := r.Get(name);
  }

  /** The LLVMContext, as far as the predictors use it: it owns the predictor
      registry, which is created on first use. */
  class Context {
    const catalog: Catalog
    var predictor: FunctionPassResultPredictionModel?

    constructor(c: Catalog)
      ensures catalog == c && predictor == null
    {
      catalog := c;
      predictor := null;
    }

    /** A registry, if present, is valid and was built from the context's compiled models. */
    ghost predicate Valid()
      reads this, predictor, if predictor != null then predictor.ModelObjects() else {}
      reads if predictor != null && predictor.ModelRunner != null then {predictor.ModelRunner, predictor.ModelRunner.compiled} else {}
    {
      CatalogComplete(catalog)
      && (predictor != null ==>
            predictor.Valid() && predictor.catalog == catalog
            && (predictor.ModelRunner != null ==>
                  predictor.ModelRunner.Valid() && predictor.ModelRunner.compiled.network == catalog.all))
    }
  }
}
