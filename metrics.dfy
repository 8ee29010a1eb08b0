/**
  The `metrics` argument of run_multi_obj_exp and the metric each scheme hands to the
  optimizer. The source inspects Python types at run time ("is it a list?"); here the two
  shapes are the constructors of a datatype.
 */
module Metrics {

  import opened Outcomes

  /** The metric identifiers the experiments name. */
  datatype MetricId = RocAuc | RocAucPenalty | Rmse | RmsePenalty | ComputationTime | Structural

  /** One element of the `metrics` argument: a metric identifier, or a list of them. */
  datatype MetricItem = Id(id: MetricId) | Ids(ids: seq<MetricId>)

  /** The metric handed to the optimizer for one scheme: a single identifier, or a list of
      identifiers (a multi-objective run; the source tests `type(metric) is list`). */
  datatype MetricSpec = Scalar(id: MetricId) | ListOf(ids: seq<MetricId>)

  /** The metrics used when the caller passes none (None or an empty list). */
  const DefaultMetrics: seq<MetricItem> := [Id(RocAuc), Id(ComputationTime)]

  /** `if not metrics: metrics = [ROCAUC, computation_time]`. */
  function EffectiveMetrics(metrics: seq<MetricItem>): seq<MetricItem>
  {
    if metrics == [] then DefaultMetrics else metrics
  }

  /** `any([type(m) is list for m in metrics])`, element by element. */
  function AnyList(metrics: seq<MetricItem>): bool
  {
    if metrics == [] then false else metrics[0].Ids? || AnyList(metrics[1..])
  }

  /** An element of `metrics` used as the metric of one scheme. */
  function SpecOf(item: MetricItem): MetricSpec
  {
    match item
    case Id(x) => Scalar(x)
    case Ids(xs) => ListOf(xs)
  }

  /** The identifiers of a list that holds no nested list, in order. */
  function IdsOf(metrics: seq<MetricItem>): (r: seq<MetricId>)
    requires forall i :: 0 <= i < |metrics| ==> metrics[i].Id?
    ensures |r| == |metrics|
    ensures forall i :: 0 <= i < |metrics| ==> r[i] == metrics[i].id
  {
    if metrics == [] then [] else [metrics[0].id] + IdsOf(metrics[1..])
  }

  /** The metric of scheme `typeNum`: when some element of `metrics` is a list, each scheme
      takes its own element `metrics[typeNum]` (an index past the end raises, None here);
      otherwise every scheme takes the whole list. */
  function ChooseMetric(metrics: seq<MetricItem>, typeNum: nat): (r: Option<MetricSpec>)
    ensures (exists i :: 0 <= i < |metrics| && metrics[i].Ids?) ==>
              (r.Some? <==> typeNum < |metrics|) &&
              (typeNum < |metrics| ==> r == Some(SpecOf(metrics[typeNum])))
    ensures (forall i :: 0 <= i < |metrics| ==> metrics[i].Id?) ==>
              r.Some? && r.value.ListOf? && |r.value.ids| == |metrics| &&
              forall i :: 0 <= i < |metrics| ==> r.value.ids[i] == metrics[i].id
  {
    AnyListExists(metrics);
    if AnyList(metrics) then
      if typeNum < |metrics| then Some(SpecOf(metrics[typeNum])) else None
    else
      Some(ListOf(IdsOf(metrics)))
  }

  /** AnyList holds exactly when some element is a list. */
  lemma {:induction false} AnyListExists(metrics: seq<MetricItem>)
    ensures AnyList(metrics) <==> exists i :: 0 <= i < |metrics| && metrics[i].Ids?
  {
    if metrics != [] {
      AnyListExists(metrics[1..]);
      if AnyList(metrics[1..]) {
        var i :| 0 <= i < |metrics[1..]| && metrics[1..][i].Ids?;
        assert metrics[i + 1].Ids?;
      }
      if exists i :: 0 <= i < |metrics| && metrics[i].Ids? {
        var i :| 0 <= i < |metrics| && metrics[i].Ids?;
        if i > 0 {
          assert metrics[1..][i - 1].Ids?;
        }
      }
    }
  }

  /** With no metrics given, every scheme runs multi-objective on ROC-AUC and computation time. */
  lemma DefaultMetricIsPair(typeNum: nat)
    ensures ChooseMetric(EffectiveMetrics([]), typeNum) == Some(ListOf([RocAuc, ComputationTime]))
  {
    var r := ChooseMetric(DefaultMetrics, typeNum);
    assert DefaultMetrics[0].Id? && DefaultMetrics[1].Id?;
    assert r.value.ids == [RocAuc, ComputationTime];
  }

  /** A caller-supplied non-empty `metrics` is kept as it is. */
  lemma GivenMetricsKept(metrics: seq<MetricItem>)
    requires metrics != []
    ensures EffectiveMetrics(metrics) == metrics
  {
  }

  /** Without nested lists the choice does not depend on the scheme. */
  lemma UniformChoice(metrics: seq<MetricItem>, i: nat, j: nat)
    requires forall k :: 0 <= k < |metrics| ==> metrics[k].Id?
    ensures ChooseMetric(metrics, i) == ChooseMetric(metrics, j)
  {
    AnyListExists(metrics);
  }

  /** The mixed argument of the single- versus multi-objective experiment: the first two
      schemes run single-objective, the third runs on a list of two metrics. */
  lemma SingleVersusMultiObjectiveChoice()
    ensures ChooseMetric([Id(RocAuc), Id(RocAucPenalty), Ids([RocAuc, Structural])], 0) == Some(Scalar(RocAuc))
    ensures ChooseMetric([Id(RocAuc), Id(RocAucPenalty), Ids([RocAuc, Structural])], 1) == Some(Scalar(RocAucPenalty))
    ensures ChooseMetric([Id(RocAuc), Id(RocAucPenalty), Ids([RocAuc, Structural])], 2) == Some(ListOf([RocAuc, Structural]))
    ensures ChooseMetric([Id(RocAuc), Id(RocAucPenalty), Ids([RocAuc, Structural])], 3) == None
  {
    var m := [Id(RocAuc), Id(RocAucPenalty), Ids([RocAuc, Structural])];
    assert m[2].Ids?;
  }

}
