/**
 * InlineModelFeatureMaps.h: the features of the inlining model, each with
 * the index it is written to in the model's input buffer and the textual name
 * the model binds it by (FeatureNameMap, MLInlineAdvisor.cpp).
 */
module InlineModelFeatureMaps {
  import opened Wrappers

  /** InlineFeatureIndex, in the order of INLINE_FEATURE_ITERATOR. */
  datatype InlineFeatureIndex =
    | CalleeBasicBlockCount
    | CallSiteHeight
    | NodeCount
    | NrCtantParams
    | CostEstimate
    | EdgeCount
    | CallerUsers
    | CallerConditionallyExecutedBlocks
    | CallerBasicBlockCount
    | CalleeConditionallyExecutedBlocks
    | CalleeUsers

  /** NumberOfFeatures: the value of the enumerator after the last feature. */
  const NumberOfFeatures: nat := 11

  /** The index of a feature: its position in INLINE_FEATURE_ITERATOR. */
  function Index(f: InlineFeatureIndex): (i: nat)
    ensures i < NumberOfFeatures
  {
    match f
    case CalleeBasicBlockCount => 0
    case CallSiteHeight => 1
    case NodeCount => 2
    case NrCtantParams => 3
    case CostEstimate => 4
    case EdgeCount => 5
    case CallerUsers => 6
    case CallerConditionallyExecutedBlocks => 7
    case CallerBasicBlockCount => 8
    case CalleeConditionallyExecutedBlocks => 9
    case CalleeUsers => 10
  }

  /** The feature with index i; the inverse of Index. */
  function FromIndex(i: nat): (f: InlineFeatureIndex)
    requires i < NumberOfFeatures
    ensures Index(f) == i
  {
    match i
    case 0 => CalleeBasicBlockCount
    case 1 => CallSiteHeight
    case 2 => NodeCount
    case 3 => NrCtantParams
    case 4 => CostEstimate
    case 5 => EdgeCount
    case 6 => CallerUsers
    case 7 => CallerConditionallyExecutedBlocks
    case 8 => CallerBasicBlockCount
    case 9 => CalleeConditionallyExecutedBlocks
    case _ => CalleeUsers
  }

  /** Index is a bijection between the features and 0 .. NumberOfFeatures - 1. */
  lemma IndexBijection()
    ensures forall f: InlineFeatureIndex :: FromIndex(Index(f)) == f
    ensures forall f, g: InlineFeatureIndex :: Index(f) == Index(g) ==> f == g
    ensures forall i | 0 <= i < NumberOfFeatures :: Index(FromIndex(i)) == i
  {
    forall f: InlineFeatureIndex ensures FromIndex(Index(f)) == f {
      match f
      case CalleeBasicBlockCount =>
      case CallSiteHeight =>
      case NodeCount =>
      case NrCtantParams =>
      case CostEstimate =>
      case EdgeCount =>
      case CallerUsers =>
      case CallerConditionallyExecutedBlocks =>
      case CallerBasicBlockCount =>
      case CalleeConditionallyExecutedBlocks =>
      case CalleeUsers =>
    }
  }

  /** The textual name of a feature, as the model binds it. */
  function Name(f: InlineFeatureIndex): string {
    match f
    case CalleeBasicBlockCount => "callee_basic_block_count"
    case CallSiteHeight => "callsite_height"
    case NodeCount => "node_count"
    case NrCtantParams => "nr_ctant_params"
    case CostEstimate => "cost_estimate"
    case EdgeCount => "edge_count"
    case CallerUsers => "caller_users"
    case CallerConditionallyExecutedBlocks => "caller_conditionally_executed_blocks"
    case CallerBasicBlockCount => "caller_basic_block_count"
    case CalleeConditionallyExecutedBlocks => "callee_conditionally_executed_blocks"
    case CalleeUsers => "callee_users"
  }

  /** FeatureNameMap: the name of feature i at position i. */
  function FeatureNameMap(): (m: seq<string>)
    ensures |m| == NumberOfFeatures
    ensures forall f: InlineFeatureIndex :: m[Index(f)] == Name(f)
  {
    IndexBijection();
    seq(NumberOfFeatures, i requires 0 <= i < NumberOfFeatures => Name(FromIndex(i)))
  }

  /** The feature a model input name binds to, if any. */
  function FeatureNamed(s: string): (r: Option<InlineFeatureIndex>)
    ensures r.Some? ==> Name(r.value) == s
  {
    if s == "callee_basic_block_count" then Some(CalleeBasicBlockCount)
    else if s == "callsite_height" then Some(CallSiteHeight)
    else if s == "node_count" then Some(NodeCount)
    else if s == "nr_ctant_params" then Some(NrCtantParams)
    else if s == "cost_estimate" then Some(CostEstimate)
    else if s == "edge_count" then Some(EdgeCount)
    else if s == "caller_users" then Some(CallerUsers)
    else if s == "caller_conditionally_executed_blocks" then Some(CallerConditionallyExecutedBlocks)
    else if s == "caller_basic_block_count" then Some(CallerBasicBlockCount)
    else if s == "callee_conditionally_executed_blocks" then Some(CalleeConditionallyExecutedBlocks)
    else if s == "callee_users" then Some(CalleeUsers)
    else None
  }

  /** Every feature's name binds back to that feature. */
  lemma NameBindsBack(f: InlineFeatureIndex)
    ensures FeatureNamed(Name(f)) == Some(f)
  {
    match f
    case CalleeBasicBlockCount =>
    case CallSiteHeight =>
      assert "callsite_height"[4] != "callee_basic_block_count"[4];
    case NodeCount =>
    case NrCtantParams =>
      assert "nr_ctant_params"[0] != "callsite_height"[0];
    case CostEstimate =>
    case EdgeCount =>
      assert "edge_count"[0] != "node_count"[0];
    case CallerUsers =>
    case CallerConditionallyExecutedBlocks =>
    case CallerBasicBlockCount =>
      assert "caller_basic_block_count"[5] != "callee_basic_block_count"[5];
    case CalleeConditionallyExecutedBlocks =>
      assert "callee_conditionally_executed_blocks"[5] != "caller_conditionally_executed_blocks"[5];
    case CalleeUsers =>
      assert "callee_users"[5] != "caller_users"[5];
  }

  /** The names in FeatureNameMap are pairwise distinct. */
  lemma FeatureNamesDistinct()
    ensures forall i, j | 0 <= i < j < NumberOfFeatures :: FeatureNameMap()[i] != FeatureNameMap()[j]
  {
    IndexBijection();
    forall i, j | 0 <= i < j < NumberOfFeatures
      ensures FeatureNameMap()[i] != FeatureNameMap()[j]
    {
      var f, g := FromIndex(i), FromIndex(j);
      NameBindsBack(f);
      NameBindsBack(g);
    }
  }
}
