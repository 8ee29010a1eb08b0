/** run_multi_obj_exp as the loops it is written with, proved to compute the sweep
    specification of module Sweep. */
module Driver {

  import opened Outcomes
  import opened Fitness
  import opened Metrics
  import opened Config
  import opened Pareto
  import opened Naming
  import opened Sweep
  import opened SweepProperties

  /** Lines 151-160: one CSV row per quality value, until an index runs past the chains or
      the complexity list. `complete` tells whether every quality value got its row. */
  method AppendRows(computationTime: Chain -> real, inp: SweepInputs, cell: Cell, rq: RunQuality,
                    chains: seq<Chain>, csv0: seq<CsvLine>) returns (csv: seq<CsvLine>, complete: bool)
    requires cell.typeNum < |inp.labels|
    ensures csv == csv0 + CellRows(inp, computationTime, cell, rq, chains)
    ensures complete <==> |csv| == |csv0| + |rq.quality|
  {
    csv := csv0;
    var isRegular := inp.regularType == Decremental;
    var i := 0;
    while i < |rq.quality|
      invariant 0 <= i <= RowLimit(rq, chains)
      invariant csv == csv0 + CellRows(inp, computationTime, cell, rq, chains)[..i]
    {
      var compl: real;
      if rq.complexity.Some? {
        if i >= |rq.complexity.value| {
          return csv, false;
        }
        compl := rq.complexity.value[i];
      } else {
        if i >= |chains| {
          return csv, false;
        }
        compl := computationTime(chains[i]);
      }
      if i >= |chains| {
        return csv, false;
      }
      csv := csv + [Row(cell.typeNum, inp.labels[cell.typeNum], cell.run, compl, cell.timeAmount,
                        isRegular, rq.quality[i], chains[i].nodeCount, chains[i].depth)];
      i := i + 1;
    }
    complete := true;
  }

  /** Lines 115-170: record one optimizer result. */
  method RecordResult(env: Collaborators, inp: SweepInputs, st0: SweepState, cell: Cell,
                      metric: MetricSpec, res: RunResult) returns (st: SweepState)
    ensures st == RecordRun(env, inp, st0, cell, metric, res)
  {
    st := st0;
    var k := cell.typeNum;
    if k >= |st.allHistory| || k >= |inp.labels| || k >= |st.historyQuality| {
      return st.(aborted := true);
    }
    st := st.(allHistory := st.allHistory[k := st.allHistory[k] + [res.composer]]);
    var tmpFolder := RunFolder(cell.run + 1);
    var composerAsFlag := true;
    st := st.(saves := st.saves + [ComposerHistory(tmpFolder, inp.datasetName, inp.labels[k], cell.run + 1, composerAsFlag)]);
    var qualities := RunQualities(metric, res.metrics);
    if qualities.None? {
      return st.(aborted := true);
    }
    var rq := qualities.value;
    var archive := res.composer.archiveHistory;
    if inp.visualizePareto {
      if !ArchiveReadable(archive) {
        return st.(aborted := true);
      }
      var paretoFront := archive[|archive| - 1];
      var qualityList := ExtractQualityList(inp.task, paretoFront);
      var complexityList := Complexities(paretoFront);
      st := st.(paretoFronts := st.paretoFronts + [ParetoSnapshot(qualityList, complexityList)]);
    }
    if !HistoryReadable(metric.ListOf?, res.composer.individuals, archive) {
      return st.(aborted := true);
    }
    var historical := GenerationQualities(inp.task, metric.ListOf?, res.composer.individuals, archive);
    st := st.(historyQuality := st.historyQuality[k := st.historyQuality[k] + [historical]]);
    var csv, complete := AppendRows(env.computationTime, inp, cell, rq, res.chains, st.csv);
    st := st.(csv := csv);
    if !complete {
      return st.(aborted := true);
    }
    st := st.(saves := st.saves + [ComposerHistory(DatasetFolder, inp.datasetName, inp.labels[k], cell.run, true)]);
  }

  /** Lines 81-170: one cell of the sweep, from a state no exception has left. */
  method RunCell(env: Collaborators, inp: SweepInputs, metrics: seq<MetricItem>, st0: SweepState, cell: Cell)
    returns (st: SweepState)
    requires metrics == EffectiveMetrics(inp.metrics)
    requires !st0.aborted
    ensures st == Step(env, inp, st0, cell)
  {
    st := st0.(n := st0.n + 1);
    if st.crossoverTypes == [] {
      st := st.(crossoverTypes := DefaultCrossover);
    }
    if st.mutationTypes == [] {
      st := st.(mutationTypes := DefaultMutation);
    }
    var k := cell.typeNum;
    if k >= |inp.depthConfig| || k >= |MaxDepths| || k >= |StartDepths| {
      return st.(aborted := true);
    }
    var withAutoDepth := inp.depthConfig[k];
    var maxDepthInExp := MaxDepths[k];
    var startDepthInExp := StartDepths[k];
    var chosen := ChooseMetric(metrics, k);
    if chosen.None? || k >= |inp.selectionTypes| {
      return st.(aborted := true);
    }
    var params := OptimizerParams(inp.selectionTypes[k], st.crossoverTypes, st.mutationTypes,
                                  inp.regularType, cell.scheme, withAutoDepth);
    if k >= |inp.popSizes| {
      return st.(aborted := true);
    }
    var call := OptimizerCall(inp.trainPath, inp.testPath, cell.timeAmount, params, inp.popSizes[k],
                              inp.iterations, maxDepthInExp, startDepthInExp, chosen.value, inp.task, st.n);
    st := st.(calls := st.calls + [call]);
    var outcome := env.optimize(call);
    if outcome.None? {
      return st.(aborted := true);
    }
    st := RecordResult(env, inp, st, cell, call.metric, outcome.value);
  }

  /** The run loop `for run in range(runs)` (lines 80-170) for one budget and scheme. */
  method RunRuns(env: Collaborators, inp: SweepInputs, metrics: seq<MetricItem>, st0: SweepState,
                 timeAmount: int, k: nat) returns (st: SweepState)
    requires metrics == EffectiveMetrics(inp.metrics)
    requires !st0.aborted && k < |inp.schemes|
    ensures st == Fold(env, inp, st0, RunCells(timeAmount, k, inp.schemes[k], 0, inp.runs))
  {
    st := st0;
    for run := 0 to inp.runs
      invariant !st.aborted
      invariant Fold(env, inp, st, RunCells(timeAmount, k, inp.schemes[k], run, inp.runs))
             == Fold(env, inp, st0, RunCells(timeAmount, k, inp.schemes[k], 0, inp.runs))
    {
      var cell := Cell(timeAmount, k, inp.schemes[k], run);
      ghost var rest := RunCells(timeAmount, k, inp.schemes[k], run + 1, inp.runs);
      FoldCons(env, inp, st, cell, rest);
      st := RunCell(env, inp, metrics, st, cell);
      if st.aborted {
        FoldAborted(env, inp, st, rest);
        return;
      }
    }
  }

  /** The scheme loop `for type_num, scheme_type in enumerate(genetic_schemes_set)` (lines
      79-170) for one budget. */
  method RunSchemes(env: Collaborators, inp: SweepInputs, metrics: seq<MetricItem>, st0: SweepState,
                    timeAmount: int) returns (st: SweepState)
    requires metrics == EffectiveMetrics(inp.metrics)
    requires !st0.aborted
    ensures st == Fold(env, inp, st0, SchemeCells(timeAmount, inp.schemes, 0, inp.runs))
  {
    st := st0;
    for k := 0 to |inp.schemes|
      invariant !st.aborted
      invariant Fold(env, inp, st, SchemeCells(timeAmount, inp.schemes, k, inp.runs))
             == Fold(env, inp, st0, SchemeCells(timeAmount, inp.schemes, 0, inp.runs))
    {
      ghost var rest := SchemeCells(timeAmount, inp.schemes, k + 1, inp.runs);
      FoldConcat(env, inp, st, RunCells(timeAmount, k, inp.schemes[k], 0, inp.runs), rest);
      st := RunRuns(env, inp, metrics, st, timeAmount, k);
      if st.aborted {
        FoldAborted(env, inp, st, rest);
        return;
      }
    }
  }

  /** Lines 174-195, after a sweep no exception has left. */
  method Conclude(inp: SweepInputs, st0: SweepState) returns (report: SweepReport)
    requires !st0.aborted
    ensures report == Finish(inp, st0)
  {
    var st := st0;
    var quality: Option<seq<seq<QualityHistory>>> := None;
    if inp.runs > 1 {
      quality := Some(st.historyQuality);
    }
    var pareto: Option<seq<ParetoSnapshot>> := None;
    if inp.visualizePareto {
      var kept: seq<ParetoSnapshot>;
      if inp.runs == 1 {
        kept := st.paretoFronts;
      } else if inp.runs == 0 {
        return SweepReport(st.(aborted := true), quality, None, None);
      } else {
        kept := PickEvery(st.paretoFronts, inp.runs);
      }
      pareto := Some(kept);
      st := st.(saves := st.saves + [ParetoSet(inp.datasetName + "_pareto_set_gp")]);
    }
    var hv: Option<seq<seq<Composer>>> := None;
    if inp.visualizeHv {
      hv := Some(st.allHistory);
    }
    report := SweepReport(st, quality, pareto, hv);
  }

  /** run_multi_obj_exp: the budget loop around the scheme and run loops, then the
      comparisons of lines 174-195. An exception in a cell ends the sweep with the state
      reached so far and nothing handed to the visualisation code. */
  method RunMultiObjExp(env: Collaborators, inp: SweepInputs) returns (report: SweepReport)
    ensures report == SweepSpec(env, inp)
  {
    ghost var target := Fold(env, inp, Initial(inp), SweepCells(inp));
    var st := Initial(inp);
    var metrics := EffectiveMetrics(inp.metrics);
    var timeAmount := TimeStep;
    while timeAmount <= MaxAmountOfTime
      invariant !st.aborted
      invariant Fold(env, inp, st, TimeCells(BudgetsFrom(timeAmount, TimeStep, MaxAmountOfTime), inp.schemes, inp.runs)) == target
      decreases MaxAmountOfTime - timeAmount
    {
      ghost var later := TimeCells(BudgetsFrom(timeAmount + TimeStep, TimeStep, MaxAmountOfTime), inp.schemes, inp.runs);
      FoldConcat(env, inp, st, SchemeCells(timeAmount, inp.schemes, 0, inp.runs), later);
      st := RunSchemes(env, inp, metrics, st, timeAmount);
      if st.aborted {
        FoldAborted(env, inp, st, later);
        return SweepReport(st, None, None, None);
      }
      timeAmount := timeAmount + TimeStep;
    }
    report := Conclude(inp, st);
  }

}
