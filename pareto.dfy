/**
  The Pareto snapshot taken from the optimizer's final archive after each run, and the
  downsampling of the collected snapshots at the end of a sweep.
 */
module Pareto {

  import opened Outcomes
  import opened Fitness

  /** `[quality_list, complexity_list]` of one front. */
  datatype ParetoSnapshot = ParetoSnapshot(quality: seq<real>, complexity: seq<real>)

  /** A front whose quality and complexity can both be read: extractable, and every fitness
      a vector with a component 1. */
  predicate FrontReadable(front: Population)
  {
    && Extractable(front)
    && forall i :: 0 <= i < |front| ==> front[i].fitness.Multi? && |front[i].fitness.values| >= 2
  }

  /** The archive history of a run whose last element can be read as a front. */
  predicate ArchiveReadable(archive: seq<Population>)
  {
    |archive| > 0 && FrontReadable(archive[|archive| - 1])
  }

  /** `[ind.fitness.values[1] for ind in front]`. */
  function Complexities(front: Population): (r: seq<real>)
    requires forall i :: 0 <= i < |front| ==> front[i].fitness.Multi? && |front[i].fitness.values| >= 2
    ensures |r| == |front|
    ensures forall i :: 0 <= i < |front| ==> r[i] == front[i].fitness.values[1]
  {
    if front == [] then [] else [front[0].fitness.values[1]] + Complexities(front[1..])
  }

  /** The snapshot of the last archive element: quality with the sign convention of the task type,
      complexity as stored (component 1, no sign change), both indexed like the front. */
  function TakeSnapshot(task: TaskType, archive: seq<Population>): (s: ParetoSnapshot)
    requires ArchiveReadable(archive)
    ensures var front := archive[|archive| - 1];
      && |s.quality| == |front| && |s.complexity| == |front|
      && forall i :: 0 <= i < |front| ==>
           s.quality[i] == Signed(task, front[i].fitness.values[0]) &&
           s.complexity[i] == front[i].fitness.values[1]
  {
    var front := archive[|archive| - 1];
    ParetoSnapshot(ExtractQualityList(task, front), Complexities(front))
  }

  /** `j * k`, by repeated addition, so that index arithmetic stays linear for the solver. */
  function Times(j: nat, k: nat): (p: nat)
  {
    if j == 0 then 0 else Times(j - 1, k) + k
  }

  lemma {:induction false} TimesIsProduct(j: nat, k: nat)
    ensures Times(j, k) == j * k
  {
    if j > 0 {
      TimesIsProduct(j - 1, k);
      assert j * k == (j - 1) * k + k;
    }
  }

  /** For a positive factor, the order of the products is the order of the multipliers. */
  lemma {:induction false} TimesMonotone(a: nat, b: nat, k: nat)
    requires k >= 1
    ensures a < b <==> Times(a, k) < Times(b, k)
    decreases a + b
  {
    if a > 0 && b > 0 {
      TimesMonotone(a - 1, b - 1, k);
    } else if a == 0 && b > 0 {
      TimesPositive(b, k);
    } else if b == 0 && a > 0 {
      TimesPositive(a, k);
    }
  }

  lemma {:induction false} TimesPositive(a: nat, k: nat)
    requires a > 0 && k >= 1
    ensures Times(a, k) >= k
  {
    if a > 1 {
      TimesPositive(a - 1, k);
    }
  }

  /** `[s[i] for i in range(0, len(s), k)]`: the elements at indices 0, k, 2k, ... in
      order; ceil(|s| / k) of them, the least count c with c * k >= |s|. */
  function PickEvery<T>(s: seq<T>, k: nat): (r: seq<T>)
    requires k >= 1
    ensures Picked(s, k, r)
    decreases |s|
  {
    if |s| == 0 then []
    else if |s| <= k then
      assert Times(1, k) == k;
      [s[0]]
    else
      var rest := PickEvery(s[k..], k);
      PickedPrepend(s, k, rest);
      [s[0]] + rest
  }

  /** `r` holds the elements of `s` at the multiples of `k`, in order, and no more. */
  ghost predicate Picked<T>(s: seq<T>, k: nat, r: seq<T>)
    requires k >= 1
  {
    && Times(|r|, k) >= |s|
    && (|s| > 0 ==> Times(|r| - 1, k) < |s|)
    && forall j {:trigger r[j]} :: 0 <= j < |r| ==> Times(j, k) < |s| && r[j] == s[Times(j, k)]
  }

  lemma PickedPrepend<T>(s: seq<T>, k: nat, rest: seq<T>)
    requires 1 <= k < |s|
    requires Picked(s[k..], k, rest)
    ensures Picked(s, k, [s[0]] + rest)
  {
    var r := [s[0]] + rest;
    assert Times(|r|, k) == Times(|rest|, k) + k;
    assert |rest| > 0;
    assert Times(|rest|, k) == Times(|rest| - 1, k) + k;
    forall j | 0 <= j < |r|
      ensures Times(j, k) < |s| && r[j] == s[Times(j, k)]
    {
      if j > 0 {
        assert Times(j, k) == Times(j - 1, k) + k;
        assert r[j] == rest[j - 1] == s[k..][Times(j - 1, k)];
      }
    }
  }

  /** A sequence made of `m` groups of `k` keeps exactly one element per group. */
  lemma PickEveryGroups<T>(s: seq<T>, k: nat, m: nat)
    requires k >= 1 && |s| == Times(m, k)
    ensures |PickEvery(s, k)| == m
  {
    var c := |PickEvery(s, k)|;
    if m > 0 {
      TimesPositive(m, k);
      TimesMonotone(c - 1, m, k);
      TimesMonotone(c, m, k);
    }
  }

  /** With step one nothing is dropped. */
  lemma {:induction false} PickEveryOne<T>(s: seq<T>)
    ensures PickEvery(s, 1) == s
    decreases |s|
  {
    if |s| > 1 {
      PickEveryOne(s[1..]);
    }
  }

  /** The snapshots shown at the end of a sweep: all of them for one run, every `runs`-th
      otherwise. A step of zero makes `range` raise (None). */
  function DownsampleFronts(fronts: seq<ParetoSnapshot>, runs: nat): (r: Option<seq<ParetoSnapshot>>)
    ensures r.None? <==> runs == 0
    ensures runs >= 1 ==> r == Some(PickEvery(fronts, runs))
  {
    if runs == 1 then
      PickEveryOne(fronts);
      Some(fronts)
    else if runs == 0 then None
    else Some(PickEvery(fronts, runs))
  }

}
