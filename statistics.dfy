/**
 * The STATISTIC counters of MLPassResultPredictor.cpp and
 * PassResultAnalysis.cpp that the predictors update: plain unbounded
 * counters (the LLVM Statistic plumbing around them is not modelled).
 */
module Statistics {

  class PredictionStatistics {
    var NumPrediction: nat
    var NumPredictionTrue: nat
    var NumPredictionFalse: nat
    var NumPredictionForTrivial: nat
    var NumActualInference: nat

    /** Every prediction counted is counted once as true or as false. */
    ghost predicate Consistent()
      reads this
    {
      NumPrediction == NumPredictionTrue + NumPredictionFalse
    }

    constructor()
      ensures Consistent()
      ensures NumPrediction == 0 && NumPredictionTrue == 0 && NumPredictionFalse == 0
      ensures NumPredictionForTrivial == 0 && NumActualInference == 0
    {
      NumPrediction, NumPredictionTrue, NumPredictionFalse := 0, 0, 0;
      NumPredictionForTrivial, NumActualInference := 0, 0;
    }

    /** Counts one prediction with answer `res`. */
    method RecordPrediction(res: bool)
      modifies this
      ensures NumPrediction == old(NumPrediction) + 1
      ensures NumPredictionTrue == old(NumPredictionTrue) + (if res then 1 else 0)
      ensures NumPredictionFalse == old(NumPredictionFalse) + (if res then 0 else 1)
      ensures NumPredictionForTrivial == old(NumPredictionForTrivial)
      ensures NumActualInference == old(NumActualInference)
      ensures old(Consistent()) ==> Consistent()
    {
      NumPrediction := NumPrediction + 1;
      if res {
        NumPredictionTrue := NumPredictionTrue + 1;
      } else {
        NumPredictionFalse := NumPredictionFalse + 1;
      }
    }
  }
}
