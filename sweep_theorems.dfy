/** What one call of run_multi_obj_exp does, from its inputs: how many optimizer calls it
    makes and how each is configured, what it collects per scheme, the CSV file it writes,
    the artefacts it saves and the report it returns. */
module SweepTheorems {

  import opened Outcomes
  import opened Naming
  import opened Config
  import opened Pareto
  import opened Sweep
  import opened Enumeration
  import opened SweepProperties

  /** The state when the three sweep loops end. */
  function Swept(env: Collaborators, inp: SweepInputs): SweepState
  {
    Fold(env, inp, Initial(inp), SweepCells(inp))
  }

  /** A sweep that raises nothing calls the optimizer once per scheme and run. */
  lemma SweepCallCount(env: Collaborators, inp: SweepInputs)
    ensures var fin := Swept(env, inp);
      !fin.aborted ==> fin.n == |inp.schemes| * inp.runs && |fin.calls| == fin.n
  {
    var fin := Swept(env, inp);
    if !fin.aborted {
      StepKeepsAborted(env, inp);
      StepCountsAndLogs(env, inp);
      SweepCellsShape(inp);
      RunCounter(StepOf(env, inp), Initial(inp), SweepCells(inp));
      RunCallLog(StepOf(env, inp), Initial(inp), SweepCells(inp));
    }
  }

  /** In a sweep that raises nothing, the call for scheme k and run r is call number
      k * runs + r + 1, with the 800-minute budget, the settings of scheme index k and the
      caller's operator lists, or the defaults where the caller gave none. */
  lemma SweepCallAt(env: Collaborators, inp: SweepInputs, k: nat, r: nat)
    requires k < |inp.schemes| && r < inp.runs
    ensures var fin := Swept(env, inp);
      var i := Slot(k, r, inp.runs);
      !fin.aborted ==>
        && i < |fin.calls|
        && CallMatches(inp, WithDefault(inp.crossoverTypes, DefaultCrossover), WithDefault(inp.mutationTypes, DefaultMutation),
                       Cell(800, k, inp.schemes[k], r), i + 1, fin.calls[i])
        && env.optimize(fin.calls[i]).Some?
  {
    var fin := Swept(env, inp);
    if !fin.aborted {
      StepKeepsAborted(env, inp);
      StepCountsAndLogs(env, inp);
      SweepCellsShape(inp);
      RunCallAt(env, inp, StepOf(env, inp), Initial(inp), SweepCells(inp), Slot(k, r, inp.runs));
    }
  }

  /** A sweep that raises nothing keeps, for each label, one composer and one quality history
      per run for the scheme indices and none for any further label. */
  lemma SweepHistories(env: Collaborators, inp: SweepInputs, j: nat)
    requires j < |inp.labels|
    ensures var fin := Swept(env, inp);
      !fin.aborted ==>
        && |fin.allHistory| == |inp.labels| && |fin.historyQuality| == |inp.labels|
        && |fin.allHistory[j]| == (if j < |inp.schemes| then inp.runs else 0)
        && |fin.historyQuality[j]| == (if j < |inp.schemes| then inp.runs else 0)
  {
    var fin := Swept(env, inp);
    if !fin.aborted {
      StepKeepsAborted(env, inp);
      StepHistories(env, inp);
      SweepCellsShape(inp);
      RunHistories(StepOf(env, inp), Initial(inp), SweepCells(inp));
    }
  }

  /** With Pareto visualisation, a sweep that raises nothing takes one snapshot per call, and
      the snapshot for scheme k and run r comes from the last archive element of that call's
      result. */
  lemma SweepParetoAt(env: Collaborators, inp: SweepInputs, k: nat, r: nat)
    requires k < |inp.schemes| && r < inp.runs
    ensures var fin := Swept(env, inp);
      var i := Slot(k, r, inp.runs);
      !fin.aborted && inp.visualizePareto ==>
        && |fin.paretoFronts| == |inp.schemes| * inp.runs
        && i < |fin.calls| && i < |fin.paretoFronts|
        && env.optimize(fin.calls[i]).Some?
        && var archive := env.optimize(fin.calls[i]).value.composer.archiveHistory;
           ArchiveReadable(archive) && fin.paretoFronts[i] == TakeSnapshot(inp.task, archive)
  {
    var fin := Swept(env, inp);
    if !fin.aborted && inp.visualizePareto {
      StepKeepsAborted(env, inp);
      StepCountsAndLogs(env, inp);
      StepPareto(env, inp);
      SweepCellsShape(inp);
      RunParetoLog(env, inp, StepOf(env, inp), Initial(inp), SweepCells(inp));
      RunParetoAt(env, inp, StepOf(env, inp), Initial(inp), SweepCells(inp), Slot(k, r, inp.runs));
    }
  }

  /** In a sweep that raises nothing, cell k * runs + r attempts the best-result save of
      scheme k's run r, as line 123 writes it, and then its history save. */
  lemma SweepSavesAt(env: Collaborators, inp: SweepInputs, k: nat, r: nat)
    requires k < |inp.schemes| && r < inp.runs
    ensures var fin := Swept(env, inp);
      var i := Slot(k, r, inp.runs);
      var c := Cell(800, k, inp.schemes[k], r);
      !fin.aborted ==>
        && |fin.saves| == 2 * (|inp.schemes| * inp.runs)
        && k < |inp.labels| && 2 * i + 1 < |fin.saves|
        && fin.saves[2 * i] == BestSaveAsWritten(inp, c)
        && fin.saves[2 * i + 1] == HistorySave(inp, c)
  {
    var fin := Swept(env, inp);
    if !fin.aborted {
      StepKeepsAborted(env, inp);
      StepCountsAndLogs(env, inp);
      SweepCellsShape(inp);
      RunSavesAt(inp, StepOf(env, inp), Initial(inp), SweepCells(inp), Slot(k, r, inp.runs));
    }
  }

  /** As written, the best-result save of run r writes the files named
      `{dataset}_{label}_run_number_{r+1}_history_of_quality` and `..._history_of_individuals`:
      the names the history save of run r + 1 uses, in the per-run folder instead of the
      dataset folder. */
  lemma SweepBestSaveNames(env: Collaborators, inp: SweepInputs, k: nat, r: nat)
    requires k < |inp.schemes| && r < inp.runs
    ensures var fin := Swept(env, inp);
      var i := Slot(k, r, inp.runs);
      var c := Cell(800, k, inp.schemes[k], r);
      !fin.aborted ==>
        && k < |inp.labels| && 2 * i < |fin.saves|
        && var files := SaveFiles(fin.saves[2 * i]);
           && files == [ExperimentName(inp.datasetName, inp.labels[k], r + 1) + HistoryQualitySuffix,
                        ExperimentName(inp.datasetName, inp.labels[k], r + 1) + HistoryIndividualsSuffix]
           && files == SaveFiles(HistorySave(inp, c.(run := r + 1)))
           && fin.saves[2 * i].dir == RunFolder(r + 1)
  {
    SweepSavesAt(env, inp, k, r);
  }

  /** The corrected best-result save never writes a file under a name that a history save
      of any run writes. */
  lemma BestSaveNeverHistoryFile(inp: SweepInputs, c: Cell, c': Cell)
    requires c.typeNum < |inp.labels| && c'.typeNum < |inp.labels|
    ensures var best := SaveFiles(BestSave(inp, c));
      var history := SaveFiles(HistorySave(inp, c'));
      && |best| == 2 && |history| == 2
      && best[0] != history[0] && best[0] != history[1]
      && best[1] != history[0] && best[1] != history[1]
  {
    var a := ExperimentName(inp.datasetName, inp.labels[c.typeNum], c.run + 1);
    var b := ExperimentName(inp.datasetName, inp.labels[c'.typeNum], c'.run);
    BestNamesNeverHistoryNames(a, b);
    ArtefactKindsNeverClash("", a, false, "", b, true);
    ArtefactKindsNeverClash("", b, true, "", a, false);
  }

  /** A sweep that raises nothing keeps, as entry r of scheme index k, the composer of call
      k * runs + r and the quality history read from it (lines 116 and 141-149). */
  lemma SweepHistoriesAt(env: Collaborators, inp: SweepInputs, k: nat, r: nat)
    requires k < |inp.schemes| && r < inp.runs
    ensures var fin := Swept(env, inp);
      var i := Slot(k, r, inp.runs);
      !fin.aborted ==>
        && i < |fin.calls| && env.optimize(fin.calls[i]).Some?
        && k < |fin.allHistory| && r < |fin.allHistory[k]|
        && k < |fin.historyQuality| && r < |fin.historyQuality[k]|
        && var res := env.optimize(fin.calls[i]).value;
           && fin.allHistory[k][r] == res.composer
           && HistoryReadable(fin.calls[i].metric.ListOf?, res.composer.individuals, res.composer.archiveHistory)
           && fin.historyQuality[k][r] == HistoricalQuality(inp.task, fin.calls[i].metric, res.composer)
  {
    var fin := Swept(env, inp);
    if !fin.aborted {
      var i := Slot(k, r, inp.runs);
      SweepSavesAt(env, inp, k, r);
      StepKeepsAborted(env, inp);
      StepCountsAndLogs(env, inp);
      StepHistories(env, inp);
      StepHistoryContents(env, inp);
      SweepCellsShape(inp);
      RunHistoriesAt(env, inp, StepOf(env, inp), Initial(inp), SweepCells(inp), i);
    }
  }

  /** A sweep that raises nothing writes the header and then, cell by cell in loop order, the
      rows of that cell's optimizer result. */
  lemma SweepCsvRows(env: Collaborators, inp: SweepInputs)
    ensures var fin := Swept(env, inp);
      !fin.aborted ==>
        SweepSpec(env, inp).state.csv == [Header(HeaderColumns)] + RowsOf(ResultRowsOf(env, inp), SweepCells(inp), fin.calls)
  {
    var fin := Swept(env, inp);
    if !fin.aborted {
      StepKeepsAborted(env, inp);
      StepCountsAndLogs(env, inp);
      StepWritesRows(env, inp);
      RunCsvRows(ResultRowsOf(env, inp), StepOf(env, inp), Initial(inp), SweepCells(inp));
      assert fin.calls[0..] == fin.calls;
    }
  }

  /** Whatever happens, the CSV file starts with the header, and every later line is a
      result row of a scheme index, its label, a run index, the 800-minute budget and the
      regularization flag. */
  lemma SweepCsv(env: Collaborators, inp: SweepInputs)
    ensures var csv := SweepSpec(env, inp).state.csv;
      && 1 <= |csv| && csv[0] == Header(HeaderColumns)
      && forall i :: 1 <= i < |csv| ==> RowFits(inp, csv[i]) && csv[i].tOpt == 800
  {
    var fin := Swept(env, inp);
    assert SweepSpec(env, inp).state.csv == fin.csv;
    StepAppendsRows(env, inp);
    TimeCellsInRange(Budgets(TimeStep, MaxAmountOfTime), inp.schemes, inp.runs);
    RunRows(inp, StepOf(env, inp), Initial(inp), SweepCells(inp));
    assert fin.csv[..1] == [Header(HeaderColumns)];
    SweepBudgets();
  }

  /** The report of a sweep that raises nothing carries the quality histories exactly when
      there is more than one run, the composer histories exactly when hypervolume is asked
      for, and the downsampled Pareto snapshots, saved as the Pareto set, exactly when Pareto
      visualisation is. */
  lemma SweepReportShape(env: Collaborators, inp: SweepInputs)
    ensures var fin := Swept(env, inp);
      var report := SweepSpec(env, inp);
      !report.state.aborted ==>
        && !fin.aborted
        && report.qualityComparison == (if inp.runs > 1 then Some(fin.historyQuality) else None)
        && report.hvComparison == (if inp.visualizeHv then Some(fin.allHistory) else None)
        && report.paretoComparison == (if inp.visualizePareto then Some(PickEvery(fin.paretoFronts, inp.runs)) else None)
        && report.state.saves == fin.saves + (if inp.visualizePareto then [ParetoSet(inp.datasetName + "_pareto_set_gp")] else [])
  {
  }

  /** With Pareto visualisation, the report of a sweep that raises nothing compares, per
      scheme, the snapshot of its first run. */
  lemma SweepParetoComparison(env: Collaborators, inp: SweepInputs, j: nat)
    requires j < |inp.schemes|
    ensures var fin := Swept(env, inp);
      var report := SweepSpec(env, inp);
      !report.state.aborted && inp.visualizePareto ==>
        && inp.runs >= 1
        && report.paretoComparison.Some?
        && |report.paretoComparison.value| == |inp.schemes|
        && Slot(j, 0, inp.runs) < |fin.paretoFronts|
        && report.paretoComparison.value[j] == fin.paretoFronts[Slot(j, 0, inp.runs)]
  {
    var fin := Swept(env, inp);
    if !SweepSpec(env, inp).state.aborted && inp.visualizePareto {
      SweepReportShape(env, inp);
      assert inp.runs >= 1;
      StepKeepsAborted(env, inp);
      StepPareto(env, inp);
      SweepCellsShape(inp);
      RunParetoLog(env, inp, StepOf(env, inp), Initial(inp), SweepCells(inp));
      TimesIsProduct(|inp.schemes|, inp.runs);
      PickEveryGroups(fin.paretoFronts, inp.runs, |inp.schemes|);
      TimesMonotone(j, |inp.schemes|, inp.runs);
    }
  }

  /** A sweep that raises an exception returns no comparison at all. */
  lemma SweepAbortedReport(env: Collaborators, inp: SweepInputs)
    ensures var report := SweepSpec(env, inp);
      report.state.aborted ==>
        report.qualityComparison.None? && report.paretoComparison.None? && report.hvComparison.None?
  {
  }

}
