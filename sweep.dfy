/**
  The sweep-and-aggregation engine of run_multi_obj_exp, as a specification: the cells of
  the sweep in the order the loops visit them, what one cell does to the accumulated state
  (Step), the whole sweep as a fold of Step over the cells, and what happens after the
  loops (Finish). The methods in module Driver are proved to compute exactly this.
 */
module Sweep {

  import opened Outcomes
  import opened Fitness
  import opened Metrics
  import opened Config
  import opened Pareto
  import opened Naming

  /** `max_amount_of_time` and `step` of run_multi_obj_exp, in minutes. */
  const MaxAmountOfTime: int := 800
  const TimeStep: int := 800

  /** A produced pipeline, as far as a result row reads it: `len(chain.nodes)` and `chain.depth`.
      `id` tells apart distinct chain objects of equal shape, which the computation-time metric
      may score differently. */
  datatype Chain = Chain(id: nat, nodeCount: nat, depth: nat)

  /** `composer.history`: per generation, the archive (non-dominated set) and the population. */
  datatype Composer = Composer(archiveHistory: seq<Population>, individuals: seq<Population>)

  /** The metrics the optimizer reports: one list, or one list per objective. */
  datatype CalculatedMetrics = Flat(values: seq<real>) | Columns(columns: seq<seq<real>>)

  /** `(calculated_metrics, chains, composer)` as run_credit_scoring_problem returns them. */
  datatype RunResult = RunResult(metrics: CalculatedMetrics, chains: seq<Chain>, composer: Composer)

  /** Everything one optimizer invocation is given. `attempt` is the cell counter `n`; it
      stands for the run-to-run randomness of the optimizer, so that repeated runs of one
      configuration may return different results. */
  datatype OptimizerCall = OptimizerCall(
    trainPath: string,
    testPath: string,
    timeBudget: int,
    params: OptimizerParams,
    popSize: int,
    generations: int,
    maxDepth: int,
    startDepth: int,
    metric: MetricSpec,
    task: TaskType,
    attempt: nat)

  /** The code outside this model that the sweep calls: the optimizer (None when it raises)
      and the computation-time metric of a chain. */
  datatype Collaborators = Collaborators(
    optimize: OptimizerCall -> Option<RunResult>,
    computationTime: Chain -> real)

  /** A line of the best-results CSV file. */
  datatype CsvLine =
    | Header(columns: seq<string>)
    | Row(expNumber: nat, expType: string, iteration: nat, complexity: real, tOpt: int,
          regular: bool, quality: real, nModels: nat, nLayers: nat)

  const HeaderColumns: seq<string> :=
    ["exp_number", "exp_type", "iteration", "complexity", "t_opt", "regular", "AUC", "n_models", "n_layers"]

  /** Where save_composer_history writes: the per-run folder `{number}_experiment` or the
      dataset folder of the results directory. */
  datatype SaveDir = RunFolder(number: nat) | DatasetFolder

  /** One attempted save: save_composer_history of the experiment
      `{dataset}_{label}_run_number_{number}` with its history flag, or np.save of the Pareto
      set under a file name. SaveFiles gives the names written. */
  datatype SaveRequest =
    | ComposerHistory(dir: SaveDir, datasetName: string, expLabel: string, number: nat, historySaveFlag: bool)
    | ParetoSet(fileName: string)

  /** One run's quality history: one list of quality values per generation. */
  type QualityHistory = seq<seq<real>>

  /** The arguments of run_multi_obj_exp that the engine reads. Unset crossover, mutation
      and metric lists (None or empty) are the empty sequence. */
  datatype SweepInputs = SweepInputs(
    selectionTypes: seq<seq<SelectionType>>,
    labels: seq<string>,
    schemes: seq<GeneticScheme>,
    depthConfig: seq<bool>,
    iterations: int,
    runs: nat,
    popSizes: seq<int>,
    crossoverTypes: seq<CrossoverType>,
    metrics: seq<MetricItem>,
    mutationTypes: seq<MutationType>,
    regularType: RegularizationType,
    trainPath: string,
    testPath: string,
    datasetName: string,
    visualizePareto: bool,
    visualizeHv: bool,
    task: TaskType)

  /** One sweep cell: a time budget, a scheme (its index and value) and a run index. */
  datatype Cell = Cell(timeAmount: int, typeNum: nat, scheme: GeneticScheme, run: nat)

  /** The local state of run_multi_obj_exp that outlives a cell, plus the logs of what it
      handed to the outside: optimizer calls, CSV lines and save attempts. `aborted` is set
      when an exception leaves the function. */
  datatype SweepState = SweepState(
    n: nat,
    crossoverTypes: seq<CrossoverType>,
    mutationTypes: seq<MutationType>,
    calls: seq<OptimizerCall>,
    allHistory: seq<seq<Composer>>,
    historyQuality: seq<seq<QualityHistory>>,
    paretoFronts: seq<ParetoSnapshot>,
    csv: seq<CsvLine>,
    saves: seq<SaveRequest>,
    aborted: bool)

  /** The final state and what the sweep hands to the visualisation code: the quality
      histories (only for more than one run), the downsampled Pareto snapshots (only when
      Pareto visualisation is on) and the composers (only when hypervolume visualisation is on). */
  datatype SweepReport = SweepReport(
    state: SweepState,
    qualityComparison: Option<seq<seq<QualityHistory>>>,
    paretoComparison: Option<seq<ParetoSnapshot>>,
    hvComparison: Option<seq<seq<Composer>>>)

  // ---------------------------------------------------------------- enumeration of cells

  /** The budgets the outer `while` visits from `timeAmount` on: it runs while the budget is
      at most `maxAmount` and adds `step` after each pass. */
  function BudgetsFrom(timeAmount: int, step: int, maxAmount: int): seq<int>
    requires step > 0
    decreases maxAmount - timeAmount
  {
    if timeAmount > maxAmount then [] else [timeAmount] + BudgetsFrom(timeAmount + step, step, maxAmount)
  }

  /** The budgets of a sweep: the outer loop starts at `step`. */
  function Budgets(step: int, maxAmount: int): seq<int>
    requires step > 0
  {
    BudgetsFrom(step, step, maxAmount)
  }

  /** The run loop `for run in range(runs)`, from run `r` on. */
  function RunCells(t: int, k: nat, scheme: GeneticScheme, r: nat, runs: nat): seq<Cell>
    decreases runs - r
  {
    if r >= runs then [] else [Cell(t, k, scheme, r)] + RunCells(t, k, scheme, r + 1, runs)
  }

  /** The scheme loop `for type_num, scheme_type in enumerate(...)`, from index `k` on. */
  function SchemeCells(t: int, schemes: seq<GeneticScheme>, k: nat, runs: nat): seq<Cell>
    decreases |schemes| - k
  {
    if k >= |schemes| then [] else RunCells(t, k, schemes[k], 0, runs) + SchemeCells(t, schemes, k + 1, runs)
  }

  /** All cells for a list of budgets: time-major, then scheme, then run. */
  function TimeCells(budgets: seq<int>, schemes: seq<GeneticScheme>, runs: nat): seq<Cell>
    decreases |budgets|
  {
    if budgets == [] then [] else SchemeCells(budgets[0], schemes, 0, runs) + TimeCells(budgets[1..], schemes, runs)
  }

  /** The cells of one run_multi_obj_exp call, with its fixed budget and step. */
  function SweepCells(inp: SweepInputs): seq<Cell>
  {
    TimeCells(Budgets(TimeStep, MaxAmountOfTime), inp.schemes, inp.runs)
  }

  // ---------------------------------------------------------------- one cell

  /** Lines 81-86: count the cell and apply the operator defaults if still unset. */
  function BeginCell(st: SweepState): SweepState
  {
    st.(n := st.n + 1,
        crossoverTypes := WithDefault(st.crossoverTypes, DefaultCrossover),
        mutationTypes := WithDefault(st.mutationTypes, DefaultMutation))
  }

  /** Lines 87-113 up to the call: the configuration of a cell, or None when one of the
      per-scheme lookups is past the end of its list (an IndexError). */
  function BuildCall(inp: SweepInputs, metrics: seq<MetricItem>, crossover: seq<CrossoverType>,
                     mutation: seq<MutationType>, cell: Cell, attempt: nat): (r: Option<OptimizerCall>)
    ensures var k := cell.typeNum;
      r.Some? <==> k < |inp.depthConfig| && k < |MaxDepths| && k < |inp.selectionTypes| &&
                   k < |inp.popSizes| && ChooseMetric(metrics, k).Some?
    ensures r.Some? ==> var k := cell.typeNum;
      && r.value.params == OptimizerParams(inp.selectionTypes[k], crossover, mutation, inp.regularType,
                                           cell.scheme, inp.depthConfig[k])
      && r.value.timeBudget == cell.timeAmount && r.value.attempt == attempt
      && Some(r.value.metric) == ChooseMetric(metrics, k)
  {
    var k := cell.typeNum;
    if k < |inp.depthConfig| && k < |MaxDepths| && k < |StartDepths| then
      match ChooseMetric(metrics, k)
      case None => None
      case Some(metric) =>
        if k < |inp.selectionTypes| && k < |inp.popSizes| then
          Some(OptimizerCall(inp.trainPath, inp.testPath, cell.timeAmount,
                             OptimizerParams(inp.selectionTypes[k], crossover, mutation, inp.regularType,
                                             cell.scheme, inp.depthConfig[k]),
                             inp.popSizes[k], inp.iterations, MaxDepths[k], StartDepths[k], metric, inp.task, attempt))
        else None
    else None
  }

  /** The quality list of a run and, for a list metric, its complexity list (lines 127-131). */
  datatype RunQuality = RunQuality(quality: seq<real>, complexity: Option<seq<real>>)

  /** A metric list yields `calculated_metrics[0]` and `[1]`; a single metric yields the
      list itself, over which the row loop iterates (an empty list of columns is the empty
      list `[]` too). Any other shape makes the cell raise before it writes a row (None). */
  function RunQualities(metric: MetricSpec, m: CalculatedMetrics): (r: Option<RunQuality>)
    ensures r.Some? ==> (r.value.complexity.Some? <==> metric.ListOf?)
  {
    match metric
    case ListOf(_) =>
      if m.Columns? && |m.columns| >= 2 then Some(RunQuality(m.columns[0], Some(m.columns[1]))) else None
    case Scalar(_) =>
      if m.Flat? then Some(RunQuality(m.values, None))
      else if m.columns == [] then Some(RunQuality([], None))
      else None
  }

  /** The generation histories the history comprehension reads without raising: every
      population extractable and, for a list metric, an archive element for each generation
      that is extractable too. Stated generation by generation; HistoryReadableAt in module
      SweepProperties gives the index-wise reading. */
  predicate HistoryReadable(pair: bool, individuals: seq<Population>, archive: seq<Population>)
    decreases |individuals|
  {
    individuals == [] ||
    (&& Extractable(individuals[0])
     && (pair ==> archive != [] && Extractable(archive[0]))
     && HistoryReadable(pair, individuals[1..], if pair then archive[1..] else archive))
  }

  /** Lines 141-148: per generation, the qualities of the population followed, for a list
      metric, by the qualities of that generation's archive (GenerationQualitiesAt). */
  function GenerationQualities(task: TaskType, pair: bool, individuals: seq<Population>,
                               archive: seq<Population>): (h: QualityHistory)
    requires HistoryReadable(pair, individuals, archive)
    ensures |h| == |individuals|
    decreases |individuals|
  {
    if individuals == [] then []
    else
      var rest := GenerationQualities(task, pair, individuals[1..], if pair then archive[1..] else archive);
      [ExtractQualityList(task, individuals[0]) + (if pair then ExtractQualityList(task, archive[0]) else [])] + rest
  }

  function HistoricalQuality(task: TaskType, metric: MetricSpec, composer: Composer): QualityHistory
    requires HistoryReadable(metric.ListOf?, composer.individuals, composer.archiveHistory)
  {
    GenerationQualities(task, metric.ListOf?, composer.individuals, composer.archiveHistory)
  }

  /** How many rows the row loop writes before an index runs past `chains` or the
      complexity list (an IndexError), at most one per quality value. */
  function RowLimit(rq: RunQuality, chains: seq<Chain>): (m: nat)
    ensures m <= |rq.quality| && m <= |chains|
    ensures rq.complexity.Some? ==> m <= |rq.complexity.value|
    ensures m == |rq.quality| || m == |chains| || (rq.complexity.Some? && m == |rq.complexity.value|)
  {
    var m0 := if |rq.quality| <= |chains| then |rq.quality| else |chains|;
    match rq.complexity
    case None => m0
    case Some(c) => if m0 <= |c| then m0 else |c|
  }

  /** The row added_result_to_csv writes for quality value `i` (lines 151-160). */
  function CsvRow(inp: SweepInputs, computationTime: Chain -> real, cell: Cell, rq: RunQuality,
                  chains: seq<Chain>, i: nat): CsvLine
    requires cell.typeNum < |inp.labels| && i < RowLimit(rq, chains)
  {
    var complexity := match rq.complexity
      case Some(c) => c[i]
      case None => computationTime(chains[i]);
    Row(cell.typeNum, inp.labels[cell.typeNum], cell.run, complexity, cell.timeAmount,
        inp.regularType == Decremental, rq.quality[i], chains[i].nodeCount, chains[i].depth)
  }

  /** The rows one cell writes, in order. */
  function CellRows(inp: SweepInputs, computationTime: Chain -> real, cell: Cell, rq: RunQuality,
                    chains: seq<Chain>): (rows: seq<CsvLine>)
    requires cell.typeNum < |inp.labels|
    ensures |rows| == RowLimit(rq, chains)
    ensures forall i :: 0 <= i < |rows| ==> rows[i] == CsvRow(inp, computationTime, cell, rq, chains, i)
  {
    seq(RowLimit(rq, chains), i requires 0 <= i < RowLimit(rq, chains) => CsvRow(inp, computationTime, cell, rq, chains, i))
  }

  /** The file names a save attempt writes, before np.save adds its extension. */
  function SaveFiles(req: SaveRequest): seq<string>
  {
    match req
    case ComposerHistory(_, datasetName, expLabel, number, flag) =>
      var names := ArtefactNames(ExperimentName(datasetName, expLabel, number), flag);
      [names.0, names.1]
    case ParetoSet(fileName) => [fileName]
  }

  /** Lines 117-125 as evidently intended: the best metrics and chains of the run, in the
      per-run folder, under the best-result names (`history_save_flag` left false). */
  function BestSave(inp: SweepInputs, cell: Cell): SaveRequest
    requires cell.typeNum < |inp.labels|
  {
    ComposerHistory(RunFolder(cell.run + 1), inp.datasetName, inp.labels[cell.typeNum], cell.run + 1, false)
  }

  /** Lines 117-125 as written, the save the sweep attempts: line 123 passes the composer
      object in the position of `history_save_flag`, and an object is true in a condition. */
  function BestSaveAsWritten(inp: SweepInputs, cell: Cell): SaveRequest
    requires cell.typeNum < |inp.labels|
  {
    var composerAsFlag := true;
    ComposerHistory(RunFolder(cell.run + 1), inp.datasetName, inp.labels[cell.typeNum], cell.run + 1, composerAsFlag)
  }

  /** Lines 161-170: the quality and individuals histories, in the dataset folder. */
  function HistorySave(inp: SweepInputs, cell: Cell): SaveRequest
    requires cell.typeNum < |inp.labels|
  {
    ComposerHistory(DatasetFolder, inp.datasetName, inp.labels[cell.typeNum], cell.run, true)
  }

  /** One cell, lines 81-170. Once an exception has left the function nothing more happens. */
  function Step(env: Collaborators, inp: SweepInputs, st: SweepState, cell: Cell): SweepState
  {
    if st.aborted then st
    else
      var st1 := BeginCell(st);
      match BuildCall(inp, EffectiveMetrics(inp.metrics), st1.crossoverTypes, st1.mutationTypes, cell, st1.n)
      case None => st1.(aborted := true)
      case Some(call) =>
        var st2 := st1.(calls := st1.calls + [call]);
        match env.optimize(call)
        case None => st2.(aborted := true)
        case Some(res) => RecordRun(env, inp, st2, cell, call.metric, res)
  }

  /** Lines 115-170: what one optimizer result adds to the state. */
  function RecordRun(env: Collaborators, inp: SweepInputs, st: SweepState, cell: Cell,
                     metric: MetricSpec, res: RunResult): SweepState
  {
    var k := cell.typeNum;
    if !(k < |inp.labels| && k < |st.allHistory| && k < |st.historyQuality|) then st.(aborted := true)
    else
      var st1 := st.(allHistory := st.allHistory[k := st.allHistory[k] + [res.composer]],
                     saves := st.saves + [BestSaveAsWritten(inp, cell)]);
      match RunQualities(metric, res.metrics)
      case None => st1.(aborted := true)
      case Some(rq) =>
        var archive := res.composer.archiveHistory;
        if inp.visualizePareto && !ArchiveReadable(archive) then st1.(aborted := true)
        else
          var st2 := if inp.visualizePareto
                     then st1.(paretoFronts := st1.paretoFronts + [TakeSnapshot(inp.task, archive)])
                     else st1;
          if !HistoryReadable(metric.ListOf?, res.composer.individuals, archive) then st2.(aborted := true)
          else
            var st3 := st2.(historyQuality := st2.historyQuality[k := st2.historyQuality[k] + [HistoricalQuality(inp.task, metric, res.composer)]]);
            var rows := CellRows(inp, env.computationTime, cell, rq, res.chains);
            var st4 := st3.(csv := st3.csv + rows);
            if |rows| < |rq.quality| then st4.(aborted := true)
            else st4.(saves := st4.saves + [HistorySave(inp, cell)])
  }

  // ---------------------------------------------------------------- the whole sweep

  /** The cells processed one after the other by `step`. */
  function Run(step: (SweepState, Cell) -> SweepState, st: SweepState, cells: seq<Cell>): SweepState
    decreases |cells|
  {
    if cells == [] then st else Run(step, step(st, cells[0]), cells[1..])
  }

  function StepOf(env: Collaborators, inp: SweepInputs): (SweepState, Cell) -> SweepState
  {
    (st: SweepState, cell: Cell) => Step(env, inp, st, cell)
  }

  /** The cells processed one after the other by run_multi_obj_exp. */
  function Fold(env: Collaborators, inp: SweepInputs, st: SweepState, cells: seq<Cell>): SweepState
  {
    Run(StepOf(env, inp), st, cells)
  }

  /** Lines 65-77: the CSV header written, empty accumulators, the caller's operator lists. */
  function Initial(inp: SweepInputs): SweepState
  {
    SweepState(0, inp.crossoverTypes, inp.mutationTypes, [],
               seq(|inp.labels|, _ => []), seq(|inp.labels|, _ => []),
               [], [Header(HeaderColumns)], [], false)
  }

  /** Lines 174-195, after the loops. */
  function Finish(inp: SweepInputs, st: SweepState): SweepReport
  {
    if st.aborted then SweepReport(st, None, None, None)
    else
      var quality := if inp.runs > 1 then Some(st.historyQuality) else None;
      var hv := if inp.visualizeHv then Some(st.allHistory) else None;
      if inp.visualizePareto then
        match DownsampleFronts(st.paretoFronts, inp.runs)
        case None => SweepReport(st.(aborted := true), quality, None, None)
        case Some(kept) =>
          SweepReport(st.(saves := st.saves + [ParetoSet(inp.datasetName + "_pareto_set_gp")]),
                      quality, Some(kept), hv)
      else SweepReport(st, quality, None, hv)
  }

  /** run_multi_obj_exp from start to end. */
  function SweepSpec(env: Collaborators, inp: SweepInputs): SweepReport
  {
    Finish(inp, Fold(env, inp, Initial(inp), SweepCells(inp)))
  }

}
