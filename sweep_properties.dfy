/** Properties of the sweep specification. The fold lemmas are proved once for any step
    function that keeps a handful of per-cell contracts (the Step* lemmas show that the step of
    run_multi_obj_exp keeps each of them); the Sweep lemmas at the end apply them to a whole call. */
module SweepProperties {

  import opened Outcomes
  import opened Fitness
  import opened Metrics
  import opened Config
  import opened Pareto
  import opened Naming
  import opened Sweep
  import opened Enumeration

  type StepFn = (SweepState, Cell) -> SweepState

  // ---------------------------------------------------------------- per-cell contracts

  /** Once an exception has left the function, a cell changes nothing. */
  ghost predicate KeepsAborted(step: StepFn)
  {
    forall s: SweepState, c: Cell :: s.aborted ==> step(s, c) == s
  }

  /** A completed cell counts one `n` and leaves the operator lists defaulted. */
  ghost predicate CountsCells(step: StepFn)
  {
    forall s: SweepState, c: Cell :: !s.aborted && !step(s, c).aborted ==>
      && step(s, c).n == s.n + 1
      && step(s, c).crossoverTypes == WithDefault(s.crossoverTypes, DefaultCrossover)
      && step(s, c).mutationTypes == WithDefault(s.mutationTypes, DefaultMutation)
  }

  /** `call` is the optimizer call of lines 87-113 for cell `c`: the cell's budget and scheme,
      the scheme index's depth option, selection types, population size and metric, the
      depth limits 3 and 2, and the given operator lists, task, generations and paths. */
  predicate CallMatches(inp: SweepInputs, crossover: seq<CrossoverType>, mutation: seq<MutationType>,
                        c: Cell, attempt: nat, call: OptimizerCall)
  {
    var k := c.typeNum;
    && k < |inp.depthConfig| && k < |inp.selectionTypes| && k < |inp.popSizes| && k < |MaxDepths|
    && Some(call.metric) == ChooseMetric(EffectiveMetrics(inp.metrics), k)
    && call.timeBudget == c.timeAmount
    && call.attempt == attempt
    && call.params.selectionTypes == inp.selectionTypes[k]
    && call.params.crossoverTypes == crossover
    && call.params.mutationTypes == mutation
    && call.params.regularization == inp.regularType
    && call.params.scheme == c.scheme
    && call.params.withAutoDepth == inp.depthConfig[k]
    && call.popSize == inp.popSizes[k]
    && call.generations == inp.iterations
    && call.maxDepth == 3 && call.startDepth == 2
    && call.task == inp.task
    && call.trainPath == inp.trainPath && call.testPath == inp.testPath
  }

  /** A completed cell logs one optimizer call after the earlier ones. */
  ghost predicate AppendsCall(step: StepFn)
  {
    forall s: SweepState, c: Cell :: !s.aborted && !step(s, c).aborted ==>
      |step(s, c).calls| == |s.calls| + 1 && step(s, c).calls[..|s.calls|] == s.calls
  }

  /** A completed cell logs one successful optimizer call, configured for that cell. */
  ghost predicate LogsCall(env: Collaborators, inp: SweepInputs, step: StepFn)
  {
    && AppendsCall(step)
    && forall s: SweepState, c: Cell :: !s.aborted && !step(s, c).aborted ==>
      && |step(s, c).calls| == |s.calls| + 1
      && CallMatches(inp, WithDefault(s.crossoverTypes, DefaultCrossover), WithDefault(s.mutationTypes, DefaultMutation),
                     c, s.n + 1, step(s, c).calls[|s.calls|])
      && env.optimize(step(s, c).calls[|s.calls|]).Some?
  }

  /** A completed cell appends one composer and one quality history under its scheme index
      and nowhere else. */
  ghost predicate RecordsHistory(step: StepFn)
  {
    forall s: SweepState, c: Cell :: !s.aborted && !step(s, c).aborted ==>
      && |step(s, c).allHistory| == |s.allHistory|
      && |step(s, c).historyQuality| == |s.historyQuality|
      && (forall k :: 0 <= k < |s.allHistory| ==>
            |step(s, c).allHistory[k]| == |s.allHistory[k]| + (if k == c.typeNum then 1 else 0) &&
            step(s, c).allHistory[k][..|s.allHistory[k]|] == s.allHistory[k])
      && (forall k :: 0 <= k < |s.historyQuality| ==>
            |step(s, c).historyQuality[k]| == |s.historyQuality[k]| + (if k == c.typeNum then 1 else 0) &&
            step(s, c).historyQuality[k][..|s.historyQuality[k]|] == s.historyQuality[k])
  }

  /** The entries a completed cell appends under its scheme index are the composer of its
      optimizer result and the quality history read from that composer. */
  ghost predicate RecordsHistoryContents(env: Collaborators, inp: SweepInputs, step: StepFn)
  {
    forall s: SweepState, c: Cell :: !s.aborted && !step(s, c).aborted ==>
      var s' := step(s, c);
      var k := c.typeNum;
      && |s.calls| < |s'.calls| && env.optimize(s'.calls[|s.calls|]).Some?
      && var call := s'.calls[|s.calls|];
         var res := env.optimize(call).value;
         && k < |s.allHistory| && k < |s'.allHistory| && |s.allHistory[k]| < |s'.allHistory[k]|
         && s'.allHistory[k][|s.allHistory[k]|] == res.composer
         && k < |s.historyQuality| && k < |s'.historyQuality| && |s.historyQuality[k]| < |s'.historyQuality[k]|
         && HistoryReadable(call.metric.ListOf?, res.composer.individuals, res.composer.archiveHistory)
         && s'.historyQuality[k][|s.historyQuality[k]|] == HistoricalQuality(inp.task, call.metric, res.composer)
  }

  /** The rows a cell writes for the result of `call` (none when the call raised or its
      metrics cannot be read). */
  function ResultRows(env: Collaborators, inp: SweepInputs, c: Cell, call: OptimizerCall): seq<CsvLine>
  {
    match env.optimize(call)
    case None => []
    case Some(res) =>
      match RunQualities(call.metric, res.metrics)
      case None => []
      case Some(rq) => if c.typeNum < |inp.labels| then CellRows(inp, env.computationTime, c, rq, res.chains) else []
  }

  type RowsFn = (Cell, OptimizerCall) -> seq<CsvLine>

  /** ResultRows of the sweep's collaborators and inputs. */
  function ResultRowsOf(env: Collaborators, inp: SweepInputs): RowsFn
  {
    (c: Cell, call: OptimizerCall) => ResultRows(env, inp, c, call)
  }

  /** The rows of the cells, each for its own call, in cell order. */
  function RowsOf(rows: RowsFn, cells: seq<Cell>, calls: seq<OptimizerCall>): seq<CsvLine>
    decreases |cells|
  {
    if cells == [] || calls == [] then []
    else rows(cells[0], calls[0]) + RowsOf(rows, cells[1..], calls[1..])
  }

  /** A completed cell appends the rows `rows` gives for it and its own call. */
  ghost predicate WritesRows(rows: RowsFn, step: StepFn)
  {
    forall s: SweepState, c: Cell :: !s.aborted && !step(s, c).aborted ==>
      && |s.calls| < |step(s, c).calls|
      && step(s, c).csv == s.csv + rows(c, step(s, c).calls[|s.calls|])
  }

  /** With Pareto visualisation, a completed cell appends the snapshot of its result's last
      archive element; without it, nothing. */
  ghost predicate RecordsPareto(env: Collaborators, inp: SweepInputs, step: StepFn)
  {
    forall s: SweepState, c: Cell :: !s.aborted && !step(s, c).aborted ==>
      && |s.calls| < |step(s, c).calls|
      && env.optimize(step(s, c).calls[|s.calls|]).Some?
      && var archive := env.optimize(step(s, c).calls[|s.calls|]).value.composer.archiveHistory;
         && (inp.visualizePareto ==> ArchiveReadable(archive))
         && step(s, c).paretoFronts == s.paretoFronts + (if inp.visualizePareto then [TakeSnapshot(inp.task, archive)] else [])
  }

  /** A completed cell attempts the best-result save and then the history save. */
  ghost predicate SavesBoth(inp: SweepInputs, step: StepFn)
  {
    forall s: SweepState, c: Cell :: !s.aborted && !step(s, c).aborted ==>
      c.typeNum < |inp.labels| && step(s, c).saves == s.saves + [BestSaveAsWritten(inp, c), HistorySave(inp, c)]
  }

  /** A result row as lines 151-160 write it, for a cell of the sweep. */
  predicate RowFits(inp: SweepInputs, line: CsvLine)
  {
    && line.Row?
    && line.expNumber < |inp.schemes| && line.expNumber < |inp.labels|
    && line.expType == inp.labels[line.expNumber]
    && line.iteration < inp.runs
    && line.tOpt in Budgets(TimeStep, MaxAmountOfTime)
    && line.regular == (inp.regularType == Decremental)
  }

  /** `s1`'s CSV lines are `s0`'s followed by result rows only. */
  predicate CsvGrows(inp: SweepInputs, s0: SweepState, s1: SweepState)
  {
    && |s0.csv| <= |s1.csv| && s1.csv[..|s0.csv|] == s0.csv
    && forall i :: |s0.csv| <= i < |s1.csv| ==> RowFits(inp, s1.csv[i])
  }

  /** Any cell of the sweep, completed or not, only appends result rows to the CSV file. */
  ghost predicate AppendsRows(inp: SweepInputs, step: StepFn)
  {
    forall s: SweepState, c: Cell :: InRange(Budgets(TimeStep, MaxAmountOfTime), inp.schemes, inp.runs, c) ==> CsvGrows(inp, s, step(s, c))
  }

  // ---------------------------------------------------------------- quality histories

  /** HistoryReadable read index-wise: every generation's population is extractable and, for a
      list metric, the archive has an extractable element for every generation. */
  lemma {:induction false} HistoryReadableAt(pair: bool, individuals: seq<Population>, archive: seq<Population>)
    ensures HistoryReadable(pair, individuals, archive) <==>
      && (forall g :: 0 <= g < |individuals| ==> Extractable(individuals[g]))
      && (pair ==> |individuals| <= |archive| && forall g :: 0 <= g < |individuals| ==> Extractable(archive[g]))
    decreases |individuals|
  {
    if individuals != [] && !(pair && archive == []) {
      var rest := if pair then archive[1..] else archive;
      HistoryReadableAt(pair, individuals[1..], rest);
      if (forall g :: 0 <= g < |individuals| ==> Extractable(individuals[g])) &&
         (pair ==> |individuals| <= |archive| && forall g :: 0 <= g < |individuals| ==> Extractable(archive[g])) {
        assert Extractable(individuals[0]);
        assert forall g :: 0 <= g < |individuals| - 1 ==> individuals[1..][g] == individuals[g + 1];
        if pair {
          assert Extractable(archive[0]);
          assert forall g :: 0 <= g < |individuals| - 1 ==> rest[g] == archive[g + 1];
        }
      }
      if HistoryReadable(pair, individuals, archive) {
        forall g | 0 <= g < |individuals|
          ensures Extractable(individuals[g])
          ensures pair ==> g < |archive| && Extractable(archive[g])
        {
          if g > 0 {
            assert individuals[g] == individuals[1..][g - 1];
            if pair {
              assert archive[g] == rest[g - 1];
            }
          }
        }
      }
    }
  }

  /** Generation g of a quality history holds the qualities of that generation's population
      followed, for a list metric, by those of that generation's archive element. */
  lemma {:induction false} GenerationQualitiesAt(task: TaskType, pair: bool, individuals: seq<Population>,
                                                 archive: seq<Population>, g: nat)
    requires HistoryReadable(pair, individuals, archive) && g < |individuals|
    ensures Extractable(individuals[g]) && (pair ==> g < |archive| && Extractable(archive[g]))
    ensures GenerationQualities(task, pair, individuals, archive)[g]
         == ExtractQualityList(task, individuals[g]) + (if pair then ExtractQualityList(task, archive[g]) else [])
    ensures |GenerationQualities(task, pair, individuals, archive)[g]|
         == |individuals[g]| + (if pair then |archive[g]| else 0)
    decreases g
  {
    if g > 0 {
      var rest := if pair then archive[1..] else archive;
      GenerationQualitiesAt(task, pair, individuals[1..], rest, g - 1);
      assert individuals[1..][g - 1] == individuals[g];
      if pair {
        assert rest[g - 1] == archive[g];
      }
    }
  }

  // ---------------------------------------------------------------- folds of any step

  lemma {:induction false} RunAborted(step: StepFn, st: SweepState, cells: seq<Cell>)
    requires KeepsAborted(step) && st.aborted
    ensures Run(step, st, cells) == st
    decreases |cells|
  {
    if cells != [] {
      assert step(st, cells[0]) == st;
      RunAborted(step, st, cells[1..]);
    }
  }

  /** Processing `a + b` is processing `a`, then `b`. */
  lemma {:induction false} RunConcat(step: StepFn, st: SweepState, a: seq<Cell>, b: seq<Cell>)
    ensures Run(step, st, a + b) == Run(step, Run(step, st, a), b)
    decreases |a|
  {
    if a == [] {
      assert a + b == b;
    } else {
      assert (a + b)[0] == a[0];
      assert (a + b)[1..] == a[1..] + b;
      RunConcat(step, step(st, a[0]), a[1..], b);
    }
  }

  /** A fold that completes started from a live state, and so did its first cell. */
  lemma RunCompletedStart(step: StepFn, st: SweepState, cells: seq<Cell>)
    requires KeepsAborted(step) && cells != [] && !Run(step, st, cells).aborted
    ensures !st.aborted && !step(st, cells[0]).aborted
  {
    if st.aborted {
      RunAborted(step, st, cells);
    } else if step(st, cells[0]).aborted {
      RunAborted(step, step(st, cells[0]), cells[1..]);
    }
  }

  /** A completed fold counts one `n` per cell; from the first cell on, the operator lists
      are the defaulted ones and stay so. */
  lemma {:induction false} RunCounter(step: StepFn, st: SweepState, cells: seq<Cell>)
    requires KeepsAborted(step) && CountsCells(step)
    requires !Run(step, st, cells).aborted
    ensures var fin := Run(step, st, cells);
      && fin.n == st.n + |cells|
      && (cells != [] ==>
            && fin.crossoverTypes == WithDefault(st.crossoverTypes, DefaultCrossover)
            && fin.mutationTypes == WithDefault(st.mutationTypes, DefaultMutation))
    decreases |cells|
  {
    if cells != [] {
      RunCompletedStart(step, st, cells);
      RunCounter(step, step(st, cells[0]), cells[1..]);
      WithDefaultStable(st.crossoverTypes, DefaultCrossover);
      WithDefaultStable(st.mutationTypes, DefaultMutation);
    }
  }

  /** A completed fold logs one call per cell after the calls made before it. */
  lemma {:induction false} RunCallLog(step: StepFn, st: SweepState, cells: seq<Cell>)
    requires KeepsAborted(step) && AppendsCall(step)
    requires !Run(step, st, cells).aborted
    ensures var fin := Run(step, st, cells);
      |fin.calls| == |st.calls| + |cells| && fin.calls[..|st.calls|] == st.calls
    decreases |cells|
  {
    if cells != [] {
      var st1 := step(st, cells[0]);
      RunCompletedStart(step, st, cells);
      RunCallLog(step, st1, cells[1..]);
      var fin := Run(step, st1, cells[1..]);
      assert fin.calls[..|st.calls|] == fin.calls[..|st1.calls|][..|st.calls|];
    }
  }

  /** In a completed fold, the call logged for cell i was configured for cell i with call
      number n + i + 1 and the operator lists as defaulted at the first cell, and it succeeded. */
  lemma {:induction false} RunCallAt(env: Collaborators, inp: SweepInputs, step: StepFn, st: SweepState,
                                     cells: seq<Cell>, i: nat)
    requires KeepsAborted(step) && CountsCells(step) && LogsCall(env, inp, step)
    requires !Run(step, st, cells).aborted && i < |cells|
    ensures var fin := Run(step, st, cells);
      && |st.calls| + i < |fin.calls|
      && CallMatches(inp, WithDefault(st.crossoverTypes, DefaultCrossover), WithDefault(st.mutationTypes, DefaultMutation),
                     cells[i], st.n + i + 1, fin.calls[|st.calls| + i])
      && env.optimize(fin.calls[|st.calls| + i]).Some?
    decreases i
  {
    var st1 := step(st, cells[0]);
    RunCompletedStart(step, st, cells);
    RunCallLog(step, st1, cells[1..]);
    var fin := Run(step, st1, cells[1..]);
    if i == 0 {
      assert fin.calls[|st.calls|] == fin.calls[..|st1.calls|][|st.calls|];
    } else {
      WithDefaultStable(st.crossoverTypes, DefaultCrossover);
      WithDefaultStable(st.mutationTypes, DefaultMutation);
      RunCallAt(env, inp, step, st1, cells[1..], i - 1);
      assert cells[1..][i - 1] == cells[i];
    }
  }

  /** A completed fold appends to the composer list and to the quality-history list of each
      scheme index one entry per cell of that index. */
  lemma {:induction false} RunHistories(step: StepFn, st: SweepState, cells: seq<Cell>)
    requires KeepsAborted(step) && RecordsHistory(step)
    requires !Run(step, st, cells).aborted
    ensures var fin := Run(step, st, cells);
      && |fin.allHistory| == |st.allHistory|
      && |fin.historyQuality| == |st.historyQuality|
      && (forall k :: 0 <= k < |st.allHistory| ==>
            |fin.allHistory[k]| == |st.allHistory[k]| + CountScheme(cells, k) &&
            fin.allHistory[k][..|st.allHistory[k]|] == st.allHistory[k])
      && (forall k :: 0 <= k < |st.historyQuality| ==>
            |fin.historyQuality[k]| == |st.historyQuality[k]| + CountScheme(cells, k) &&
            fin.historyQuality[k][..|st.historyQuality[k]|] == st.historyQuality[k])
    decreases |cells|
  {
    if cells != [] {
      var st1 := step(st, cells[0]);
      RunCompletedStart(step, st, cells);
      RunHistories(step, st1, cells[1..]);
      var fin := Run(step, st1, cells[1..]);
      forall k | 0 <= k < |st.allHistory|
        ensures |fin.allHistory[k]| == |st.allHistory[k]| + CountScheme(cells, k)
        ensures fin.allHistory[k][..|st.allHistory[k]|] == st.allHistory[k]
      {
        assert fin.allHistory[k][..|st.allHistory[k]|] == fin.allHistory[k][..|st1.allHistory[k]|][..|st.allHistory[k]|];
        assert st1.allHistory[k][..|st.allHistory[k]|] == st.allHistory[k];
      }
      forall k | 0 <= k < |st.historyQuality|
        ensures |fin.historyQuality[k]| == |st.historyQuality[k]| + CountScheme(cells, k)
        ensures fin.historyQuality[k][..|st.historyQuality[k]|] == st.historyQuality[k]
      {
        assert fin.historyQuality[k][..|st.historyQuality[k]|]
            == fin.historyQuality[k][..|st1.historyQuality[k]|][..|st.historyQuality[k]|];
        assert st1.historyQuality[k][..|st.historyQuality[k]|] == st.historyQuality[k];
      }
    }
  }

  /** The first cell of a completed fold: what it adds under its scheme index survives the
      later cells. */
  lemma RunHistoryHead(env: Collaborators, inp: SweepInputs, step: StepFn, st: SweepState, cells: seq<Cell>)
    requires KeepsAborted(step) && AppendsCall(step) && RecordsHistory(step)
    requires RecordsHistoryContents(env, inp, step)
    requires !Run(step, st, cells).aborted && cells != []
    ensures var fin := Run(step, st, cells);
      var k := cells[0].typeNum;
      && k < |st.allHistory| && k < |st.historyQuality|
      && k < |fin.allHistory| && |st.allHistory[k]| < |fin.allHistory[k]|
      && k < |fin.historyQuality| && |st.historyQuality[k]| < |fin.historyQuality[k]|
      && |st.calls| < |fin.calls| && env.optimize(fin.calls[|st.calls|]).Some?
      && var call := fin.calls[|st.calls|];
         var res := env.optimize(call).value;
         && fin.allHistory[k][|st.allHistory[k]|] == res.composer
         && HistoryReadable(call.metric.ListOf?, res.composer.individuals, res.composer.archiveHistory)
         && fin.historyQuality[k][|st.historyQuality[k]|] == HistoricalQuality(inp.task, call.metric, res.composer)
  {
    var st1 := step(st, cells[0]);
    RunCompletedStart(step, st, cells);
    RunCallLog(step, st1, cells[1..]);
    RunHistories(step, st1, cells[1..]);
    var fin := Run(step, st1, cells[1..]);
    var k := cells[0].typeNum;
    assert fin.calls[|st.calls|] == fin.calls[..|st1.calls|][|st.calls|];
    assert fin.allHistory[k][|st.allHistory[k]|] == fin.allHistory[k][..|st1.allHistory[k]|][|st.allHistory[k]|];
    assert fin.historyQuality[k][|st.historyQuality[k]|]
        == fin.historyQuality[k][..|st1.historyQuality[k]|][|st.historyQuality[k]|];
  }

  /** In a completed fold, the entry the cell i adds under its scheme index k, after the
      entries of earlier cells of index k, is the composer of call i and its quality history. */
  lemma RunHistoriesAt(env: Collaborators, inp: SweepInputs, step: StepFn, st: SweepState,
                        cells: seq<Cell>, i: nat)
    requires KeepsAborted(step) && AppendsCall(step) && RecordsHistory(step)
    requires RecordsHistoryContents(env, inp, step)
    requires !Run(step, st, cells).aborted && i < |cells|
    requires cells[i].typeNum < |st.allHistory| && cells[i].typeNum < |st.historyQuality|
    ensures var fin := Run(step, st, cells);
      var k := cells[i].typeNum;
      var j := |st.allHistory[k]| + CountScheme(cells[..i], k);
      var q := |st.historyQuality[k]| + CountScheme(cells[..i], k);
      && k < |fin.allHistory| && j < |fin.allHistory[k]|
      && k < |fin.historyQuality| && q < |fin.historyQuality[k]|
      && |st.calls| + i < |fin.calls| && env.optimize(fin.calls[|st.calls| + i]).Some?
      && var call := fin.calls[|st.calls| + i];
         var res := env.optimize(call).value;
         && fin.allHistory[k][j] == res.composer
         && HistoryReadable(call.metric.ListOf?, res.composer.individuals, res.composer.archiveHistory)
         && fin.historyQuality[k][q] == HistoricalQuality(inp.task, call.metric, res.composer)
  {
    var mid, after := Run(step, st, cells[..i]), cells[i..];
    RunSplitAt(step, st, cells, i);
    assert after[0] == cells[i];
    RunHistoryHead(env, inp, step, mid, after);
  }

  /** A completed fold, cut before cell i: the first i cells completed, with i calls and the
      entries of their scheme indices. */
  lemma RunSplitAt(step: StepFn, st: SweepState, cells: seq<Cell>, i: nat)
    requires KeepsAborted(step) && AppendsCall(step) && RecordsHistory(step)
    requires !Run(step, st, cells).aborted && i < |cells|
    requires cells[i].typeNum < |st.allHistory| && cells[i].typeNum < |st.historyQuality|
    ensures var mid := Run(step, st, cells[..i]);
      var k := cells[i].typeNum;
      && !mid.aborted && Run(step, mid, cells[i..]) == Run(step, st, cells)
      && |mid.calls| == |st.calls| + i
      && k < |mid.allHistory| && |mid.allHistory[k]| == |st.allHistory[k]| + CountScheme(cells[..i], k)
      && k < |mid.historyQuality| && |mid.historyQuality[k]| == |st.historyQuality[k]| + CountScheme(cells[..i], k)
  {
    var before, after := cells[..i], cells[i..];
    assert cells == before + after;
    RunConcat(step, st, before, after);
    var mid := Run(step, st, before);
    if mid.aborted {
      RunAborted(step, mid, after);
    }
    RunHistories(step, st, before);
    RunCallLog(step, st, before);
  }

  /** A completed fold appends to the CSV file the rows of each cell for its own call, in
      cell order. */
  lemma {:induction false} RunCsvRows(rows: RowsFn, step: StepFn, st: SweepState, cells: seq<Cell>)
    requires KeepsAborted(step) && AppendsCall(step) && WritesRows(rows, step)
    requires !Run(step, st, cells).aborted
    ensures var fin := Run(step, st, cells);
      |st.calls| <= |fin.calls| && fin.csv == st.csv + RowsOf(rows, cells, fin.calls[|st.calls|..])
    decreases |cells|
  {
    if cells != [] {
      var st1 := step(st, cells[0]);
      RunCompletedStart(step, st, cells);
      RunCallLog(step, st1, cells[1..]);
      RunCsvRows(rows, step, st1, cells[1..]);
      var fin := Run(step, st1, cells[1..]);
      var later := fin.calls[|st.calls|..];
      assert later[0] == fin.calls[..|st1.calls|][|st.calls|];
      assert later[1..] == fin.calls[|st1.calls|..];
    }
  }

  /** A completed fold appends one Pareto snapshot per cell when visualisation is on, none
      otherwise, after the snapshots taken before it. */
  lemma {:induction false} RunParetoLog(env: Collaborators, inp: SweepInputs, step: StepFn, st: SweepState, cells: seq<Cell>)
    requires KeepsAborted(step) && RecordsPareto(env, inp, step)
    requires !Run(step, st, cells).aborted
    ensures var fin := Run(step, st, cells);
      && |fin.paretoFronts| == |st.paretoFronts| + (if inp.visualizePareto then |cells| else 0)
      && fin.paretoFronts[..|st.paretoFronts|] == st.paretoFronts
    decreases |cells|
  {
    if cells != [] {
      var st1 := step(st, cells[0]);
      RunCompletedStart(step, st, cells);
      RunParetoLog(env, inp, step, st1, cells[1..]);
      var fin := Run(step, st1, cells[1..]);
      assert fin.paretoFronts[..|st.paretoFronts|] == fin.paretoFronts[..|st1.paretoFronts|][..|st.paretoFronts|];
    }
  }

  /** With visualisation on, snapshot i of a completed fold is taken from the last archive
      element of the result of call i. */
  lemma {:induction false} RunParetoAt(env: Collaborators, inp: SweepInputs, step: StepFn, st: SweepState,
                                       cells: seq<Cell>, i: nat)
    requires KeepsAborted(step) && LogsCall(env, inp, step) && RecordsPareto(env, inp, step)
    requires !Run(step, st, cells).aborted && i < |cells| && inp.visualizePareto
    ensures var fin := Run(step, st, cells);
      && |st.calls| + i < |fin.calls| && |st.paretoFronts| + i < |fin.paretoFronts|
      && env.optimize(fin.calls[|st.calls| + i]).Some?
      && var archive := env.optimize(fin.calls[|st.calls| + i]).value.composer.archiveHistory;
         ArchiveReadable(archive) && fin.paretoFronts[|st.paretoFronts| + i] == TakeSnapshot(inp.task, archive)
    decreases i
  {
    var st1 := step(st, cells[0]);
    RunCompletedStart(step, st, cells);
    RunCallLog(step, st1, cells[1..]);
    RunParetoLog(env, inp, step, st1, cells[1..]);
    var fin := Run(step, st1, cells[1..]);
    if i == 0 {
      assert fin.calls[|st.calls|] == fin.calls[..|st1.calls|][|st.calls|];
      assert fin.paretoFronts[|st.paretoFronts|] == fin.paretoFronts[..|st1.paretoFronts|][|st.paretoFronts|];
    } else {
      RunParetoAt(env, inp, step, st1, cells[1..], i - 1);
    }
  }

  /** A completed fold attempts, per cell i, the best-result save and then the history save,
      as save attempts 2i and 2i + 1. */
  lemma {:induction false} RunSavesAt(inp: SweepInputs, step: StepFn, st: SweepState, cells: seq<Cell>, i: nat)
    requires KeepsAborted(step) && SavesBoth(inp, step)
    requires !Run(step, st, cells).aborted && i < |cells|
    ensures var fin := Run(step, st, cells);
      && |fin.saves| == |st.saves| + 2 * |cells|
      && cells[i].typeNum < |inp.labels|
      && fin.saves[|st.saves| + 2 * i] == BestSaveAsWritten(inp, cells[i])
      && fin.saves[|st.saves| + 2 * i + 1] == HistorySave(inp, cells[i])
    decreases i
  {
    var st1 := step(st, cells[0]);
    RunCompletedStart(step, st, cells);
    RunSavesLog(inp, step, st1, cells[1..]);
    var fin := Run(step, st1, cells[1..]);
    if i == 0 {
      assert fin.saves[|st.saves|] == fin.saves[..|st1.saves|][|st.saves|];
      assert fin.saves[|st.saves| + 1] == fin.saves[..|st1.saves|][|st.saves| + 1];
    } else {
      RunSavesAt(inp, step, st1, cells[1..], i - 1);
      assert cells[1..][i - 1] == cells[i];
    }
  }

  lemma {:induction false} RunSavesLog(inp: SweepInputs, step: StepFn, st: SweepState, cells: seq<Cell>)
    requires KeepsAborted(step) && SavesBoth(inp, step)
    requires !Run(step, st, cells).aborted
    ensures var fin := Run(step, st, cells);
      |fin.saves| == |st.saves| + 2 * |cells| && fin.saves[..|st.saves|] == st.saves
    decreases |cells|
  {
    if cells != [] {
      var st1 := step(st, cells[0]);
      RunCompletedStart(step, st, cells);
      RunSavesLog(inp, step, st1, cells[1..]);
      var fin := Run(step, st1, cells[1..]);
      assert fin.saves[..|st.saves|] == fin.saves[..|st1.saves|][..|st.saves|];
    }
  }

  /** Whether or not it completes, a fold over cells of the sweep only appends result rows. */
  lemma {:induction false} RunRows(inp: SweepInputs, step: StepFn, st: SweepState, cells: seq<Cell>)
    requires AppendsRows(inp, step)
    requires forall i :: 0 <= i < |cells| ==> InRange(Budgets(TimeStep, MaxAmountOfTime), inp.schemes, inp.runs, cells[i])
    ensures CsvGrows(inp, st, Run(step, st, cells))
    decreases |cells|
  {
    if cells != [] {
      var st1 := step(st, cells[0]);
      assert CsvGrows(inp, st, st1);
      RunRows(inp, step, st1, cells[1..]);
      var fin := Run(step, st1, cells[1..]);
      assert fin.csv[..|st.csv|] == fin.csv[..|st1.csv|][..|st.csv|];
    }
  }

  // ---------------------------------------------------------------- the step of the sweep

  /** The optimizer call a cell makes from state `st`: counted and with the operator defaults
      applied (lines 81-113). */
  function CellCall(inp: SweepInputs, st: SweepState, c: Cell): Option<OptimizerCall>
  {
    BuildCall(inp, EffectiveMetrics(inp.metrics), WithDefault(st.crossoverTypes, DefaultCrossover),
              WithDefault(st.mutationTypes, DefaultMutation), c, st.n + 1)
  }

  lemma CellCallMatches(inp: SweepInputs, st: SweepState, c: Cell)
    requires CellCall(inp, st, c).Some?
    ensures CallMatches(inp, WithDefault(st.crossoverTypes, DefaultCrossover), WithDefault(st.mutationTypes, DefaultMutation),
                        c, st.n + 1, CellCall(inp, st, c).value)
  {
  }

  /** What one cell that raises nothing adds to the state: one call, the composer and one
      quality history under its scheme index, one Pareto snapshot when asked for, one row per
      quality value and the two save attempts. */
  lemma StepCompleted(env: Collaborators, inp: SweepInputs, st: SweepState, c: Cell)
    requires !st.aborted && !Step(env, inp, st, c).aborted
    ensures var st' := Step(env, inp, st, c);
      var call := CellCall(inp, st, c);
      && call.Some? && env.optimize(call.value).Some?
      && var res := env.optimize(call.value).value;
         var k := c.typeNum;
         && st'.n == st.n + 1
         && st'.crossoverTypes == WithDefault(st.crossoverTypes, DefaultCrossover)
         && st'.mutationTypes == WithDefault(st.mutationTypes, DefaultMutation)
         && st'.calls == st.calls + [call.value]
         && k < |inp.labels| && k < |st.allHistory| && k < |st.historyQuality|
         && st'.allHistory == st.allHistory[k := st.allHistory[k] + [res.composer]]
         && HistoryReadable(call.value.metric.ListOf?, res.composer.individuals, res.composer.archiveHistory)
         && st'.historyQuality == st.historyQuality[k := st.historyQuality[k] + [HistoricalQuality(inp.task, call.value.metric, res.composer)]]
         && (inp.visualizePareto ==> ArchiveReadable(res.composer.archiveHistory))
         && st'.paretoFronts == st.paretoFronts + (if inp.visualizePareto then [TakeSnapshot(inp.task, res.composer.archiveHistory)] else [])
         && RunQualities(call.value.metric, res.metrics).Some?
         && var rq := RunQualities(call.value.metric, res.metrics).value;
            && RowLimit(rq, res.chains) == |rq.quality|
            && st'.csv == st.csv + CellRows(inp, env.computationTime, c, rq, res.chains)
            && st'.saves == st.saves + [BestSaveAsWritten(inp, c), HistorySave(inp, c)]
  {
  }

  /** Any cell of the sweep, completed or not, appends only rows of its own scheme label,
      run and budget. */
  lemma StepRows(env: Collaborators, inp: SweepInputs, st: SweepState, c: Cell)
    requires InRange(Budgets(TimeStep, MaxAmountOfTime), inp.schemes, inp.runs, c)
    ensures CsvGrows(inp, st, Step(env, inp, st, c))
  {
    var st' := Step(env, inp, st, c);
    if !st.aborted && |st.csv| < |st'.csv| {
      var call := CellCall(inp, st, c);
      assert call.Some? && env.optimize(call.value).Some?;
      var res := env.optimize(call.value).value;
      var rq := RunQualities(call.value.metric, res.metrics).value;
      assert c.typeNum < |inp.labels|;
      var rows := CellRows(inp, env.computationTime, c, rq, res.chains);
      assert st'.csv == st.csv + rows;
      forall i | |st.csv| <= i < |st'.csv|
        ensures RowFits(inp, st'.csv[i])
      {
        assert st'.csv[i] == rows[i - |st.csv|];
      }
    }
  }

  lemma StepKeepsAborted(env: Collaborators, inp: SweepInputs)
    ensures KeepsAborted(StepOf(env, inp))
  {
  }

  lemma StepCountsAndLogs(env: Collaborators, inp: SweepInputs)
    ensures var step := StepOf(env, inp);
      CountsCells(step) && LogsCall(env, inp, step) && SavesBoth(inp, step)
  {
    var step := StepOf(env, inp);
    forall s: SweepState, c: Cell | !s.aborted && !step(s, c).aborted
      ensures step(s, c).n == s.n + 1
      ensures step(s, c).crossoverTypes == WithDefault(s.crossoverTypes, DefaultCrossover)
      ensures step(s, c).mutationTypes == WithDefault(s.mutationTypes, DefaultMutation)
      ensures |step(s, c).calls| == |s.calls| + 1 && step(s, c).calls[..|s.calls|] == s.calls
      ensures CallMatches(inp, WithDefault(s.crossoverTypes, DefaultCrossover), WithDefault(s.mutationTypes, DefaultMutation),
                          c, s.n + 1, step(s, c).calls[|s.calls|])
      ensures env.optimize(step(s, c).calls[|s.calls|]).Some?
      ensures c.typeNum < |inp.labels| && step(s, c).saves == s.saves + [BestSaveAsWritten(inp, c), HistorySave(inp, c)]
    {
      StepCompleted(env, inp, s, c);
      CellCallMatches(inp, s, c);
      assert step(s, c).calls[..|s.calls|] == s.calls;
    }
  }

  lemma StepHistories(env: Collaborators, inp: SweepInputs)
    ensures RecordsHistory(StepOf(env, inp))
  {
    var step := StepOf(env, inp);
    forall s: SweepState, c: Cell | !s.aborted && !step(s, c).aborted
      ensures |step(s, c).allHistory| == |s.allHistory| && |step(s, c).historyQuality| == |s.historyQuality|
      ensures forall k :: 0 <= k < |s.allHistory| ==>
            |step(s, c).allHistory[k]| == |s.allHistory[k]| + (if k == c.typeNum then 1 else 0) &&
            step(s, c).allHistory[k][..|s.allHistory[k]|] == s.allHistory[k]
      ensures forall k :: 0 <= k < |s.historyQuality| ==>
            |step(s, c).historyQuality[k]| == |s.historyQuality[k]| + (if k == c.typeNum then 1 else 0) &&
            step(s, c).historyQuality[k][..|s.historyQuality[k]|] == s.historyQuality[k]
    {
      StepCompleted(env, inp, s, c);
    }
  }

  lemma StepHistoryContents(env: Collaborators, inp: SweepInputs)
    ensures RecordsHistoryContents(env, inp, StepOf(env, inp))
  {
    var step := StepOf(env, inp);
    forall s: SweepState, c: Cell | !s.aborted && !step(s, c).aborted
      ensures var s' := step(s, c);
        var k := c.typeNum;
        && |s.calls| < |s'.calls| && env.optimize(s'.calls[|s.calls|]).Some?
        && var call := s'.calls[|s.calls|];
           var res := env.optimize(call).value;
           && k < |s.allHistory| && k < |s'.allHistory| && |s.allHistory[k]| < |s'.allHistory[k]|
           && s'.allHistory[k][|s.allHistory[k]|] == res.composer
           && k < |s.historyQuality| && k < |s'.historyQuality| && |s.historyQuality[k]| < |s'.historyQuality[k]|
           && HistoryReadable(call.metric.ListOf?, res.composer.individuals, res.composer.archiveHistory)
           && s'.historyQuality[k][|s.historyQuality[k]|] == HistoricalQuality(inp.task, call.metric, res.composer)
    {
      StepCompleted(env, inp, s, c);
      assert step(s, c).calls[|s.calls|] == CellCall(inp, s, c).value;
    }
  }

  lemma StepWritesRows(env: Collaborators, inp: SweepInputs)
    ensures WritesRows(ResultRowsOf(env, inp), StepOf(env, inp))
  {
    var step := StepOf(env, inp);
    forall s: SweepState, c: Cell | !s.aborted && !step(s, c).aborted
      ensures |s.calls| < |step(s, c).calls|
      ensures step(s, c).csv == s.csv + ResultRowsOf(env, inp)(c, step(s, c).calls[|s.calls|])
    {
      StepCompleted(env, inp, s, c);
      assert step(s, c).calls[|s.calls|] == CellCall(inp, s, c).value;
    }
  }

  lemma StepPareto(env: Collaborators, inp: SweepInputs)
    ensures RecordsPareto(env, inp, StepOf(env, inp))
  {
    var step := StepOf(env, inp);
    forall s: SweepState, c: Cell | !s.aborted && !step(s, c).aborted
      ensures |s.calls| < |step(s, c).calls| && env.optimize(step(s, c).calls[|s.calls|]).Some?
      ensures var archive := env.optimize(step(s, c).calls[|s.calls|]).value.composer.archiveHistory;
         && (inp.visualizePareto ==> ArchiveReadable(archive))
         && step(s, c).paretoFronts == s.paretoFronts + (if inp.visualizePareto then [TakeSnapshot(inp.task, archive)] else [])
    {
      StepCompleted(env, inp, s, c);
      assert step(s, c).calls[|s.calls|] == CellCall(inp, s, c).value;
    }
  }

  lemma StepAppendsRows(env: Collaborators, inp: SweepInputs)
    ensures AppendsRows(inp, StepOf(env, inp))
  {
    var step := StepOf(env, inp);
    forall s: SweepState, c: Cell | InRange(Budgets(TimeStep, MaxAmountOfTime), inp.schemes, inp.runs, c)
      ensures CsvGrows(inp, s, step(s, c))
    {
      StepRows(env, inp, s, c);
    }
  }

  /** Once an exception has left run_multi_obj_exp, the remaining cells change nothing. */
  lemma FoldAborted(env: Collaborators, inp: SweepInputs, st: SweepState, cells: seq<Cell>)
    requires st.aborted
    ensures Fold(env, inp, st, cells) == st
  {
    StepKeepsAborted(env, inp);
    RunAborted(StepOf(env, inp), st, cells);
  }

  /** Processing `a + b` is processing `a`, then `b`. */
  lemma FoldConcat(env: Collaborators, inp: SweepInputs, st: SweepState, a: seq<Cell>, b: seq<Cell>)
    ensures Fold(env, inp, st, a + b) == Fold(env, inp, Fold(env, inp, st, a), b)
  {
    RunConcat(StepOf(env, inp), st, a, b);
  }

  /** The first cell is processed first. */
  lemma FoldCons(env: Collaborators, inp: SweepInputs, st: SweepState, c: Cell, rest: seq<Cell>)
    ensures Fold(env, inp, st, [c] + rest) == Fold(env, inp, Step(env, inp, st, c), rest)
  {
    assert ([c] + rest)[0] == c;
    assert ([c] + rest)[1..] == rest;
  }

}
