# The multi-objective scheme sweep, modelled in Dafny

This project models the sweep-and-aggregation engine of
`experiments/multi_objective_schemes_experiment.py`. That engine compares genetic-programming
schemes of the composer.

`run_multi_obj_exp` works in this order:

1. It walks three nested loops: time budget, then scheme, then run.
2. For every cell it:
   - counts the cell;
   - fills in default crossover and mutation operators while they are unset;
   - chooses the scheme's metric;
   - calls the optimizer.
3. From each result it:
   - keeps the composer;
   - records a per-generation quality history;
   - takes a Pareto snapshot from the last archive element;
   - writes one CSV row per quality value;
   - attempts two artefact saves. The first is the per-run best save, which as written in
     line 123 goes under the history file names (see "## Findings"). The sweep model follows
     the code as written.
4. After the loops it downsamples the snapshots to every `runs`-th one. It then hands the
   collected histories to the visualisation code.

The project also models these helpers:
- `extract_quality_list`, with its sign convention;
- the artefact names of `save_composer_history`;
- the scheme labels built by `exp_self_config_vs_fix_params`.

Modules, in dependency order:

- `Outcomes`: `Option`.
- `Fitness`: scalar and vector fitness, `extract_quality_list`.
- `Metrics`: the `metrics` argument, its default, and the per-scheme metric choice.
- `Config`: the enumerations, the operator defaults and the fixed depth limits.
- `Pareto`: the snapshot of a front, and the downsampling of snapshots.
- `Naming`: `os.path.join` (POSIX rules), the artefact names, experiment names, and scheme labels.
- `Sweep`: the specification of the sweep. It contains:
  - the cells in loop order;
  - what one cell does to the accumulated state (`Step`, `RecordRun`);
  - the whole sweep as a fold of `Step` over the cells;
  - what happens after the loops (`Finish`).
- `Enumeration`: the budgets and the shape of the cell sequence.
- `SweepProperties`: fold lemmas proved once for any step function that keeps a few per-cell
  contracts, the proof that the sweep's own step keeps them, and the per-generation reading
  of the quality history.
- `SweepTheorems`: what a whole call does. It states:
  - the number of optimizer calls and how each is configured;
  - the histories and snapshots it collects;
  - the CSV file and the save attempts;
  - the report it returns.
- `Driver`: the method form of `run_multi_obj_exp`. It uses the same `while` loop over budgets
  and `for` loops over schemes and runs, and a `while` loop over the CSV rows. Each method is
  proved to compute the specification in `Sweep`.

The optimizer and the computation-time metric are code outside this model. They are parameters
of the sweep (`Sweep.Collaborators`). The optimizer is a function from the full call
configuration to a result, or `None` when it raises. The call carries the cell counter `n`,
so that repeated runs of one configuration may return different results.

An exception that leaves the function is modelled as an `aborted` state. After an abort no cell
has any effect, and nothing is handed to the visualisation code. Exceptions that the source
catches and prints, in the three `try` blocks (lines 117-125, 161-170 and 188-192), are not
aborts. The saves are modelled as attempts in a log.

Two modelling choices that follow the code's own tests:
- A metric is multi-objective when it is a list of any length (`type(metric) is list`);
  nothing requires it to be a pair. This also holds for the default `[ROCAUC, computation_time]`, which every
  scheme then uses as one list.
- Crossover or mutation lists that are `None` and ones that are empty behave identically,
  because the code only looks at `not x`. Both are the empty sequence here.

## Model

| member | source | states |
|---|---|---|
| `Fitness.ExtractQualityList` | experiments/multi_objective_schemes_experiment.py:46-52 | one value per individual, in order; value i is individual i's scalar fitness or vector component 0, negated for classification and kept for regression; the branch is fixed by the kind of `pop[0]`; the empty population is excluded because `pop[0]` is read |
| `Fitness.FirstComponents` | experiments/multi_objective_schemes_experiment.py:47-49 | the vector branch: same length, element i is component 0 of individual i with the task type's sign |
| `Fitness.Scalars` | experiments/multi_objective_schemes_experiment.py:50-52 | the scalar branch: same length, element i is the fitness of individual i with the task type's sign |
| `Fitness.Negated` | experiments/multi_objective_schemes_experiment.py:48-51 | every value sign-inverted, index by index |
| `Fitness.ClassificationNegatesRegression` | experiments/multi_objective_schemes_experiment.py:47-52 | extraction under the classification convention is the regression extraction with every sign inverted |
| `Fitness.ExtractConcat` | experiments/multi_objective_schemes_experiment.py:46-52 | extraction works individual by individual: two populations of the same fitness kind extract together as they do one after the other |
| `Metrics.IdsOf` | experiments/multi_objective_schemes_experiment.py:95 | a list without nested lists, used whole, keeps its identifiers in order |
| `Metrics.ChooseMetric` | experiments/multi_objective_schemes_experiment.py:92-95 | if some element is a list, scheme k gets element k (and an index past the end raises); otherwise every scheme gets the whole list as one list metric |
| `Metrics.AnyListExists` | experiments/multi_objective_schemes_experiment.py:92 | the `any(...)` test holds exactly when some element is a list |
| `Metrics.DefaultMetricIsPair` | experiments/multi_objective_schemes_experiment.py:70-71 | with no metrics given, every scheme uses the list `[ROCAUC, computation_time]` |
| `Metrics.GivenMetricsKept` | experiments/multi_objective_schemes_experiment.py:70-71 | a non-empty `metrics` is not replaced |
| `Metrics.UniformChoice` | experiments/multi_objective_schemes_experiment.py:92-95 | without nested lists, the metric does not depend on the scheme index |
| `Metrics.SingleVersusMultiObjectiveChoice` | experiments/multi_objective_schemes_experiment.py:234-235 | the mixed metrics of the single- versus multi-objective experiment give two single metrics, then a list metric, then an IndexError for a fourth scheme |
| `Config.WithDefault` | experiments/multi_objective_schemes_experiment.py:83-86 | the default replaces an unset list, and only an unset one; a non-empty list is kept as given |
| `Config.WithDefaultStable` | experiments/multi_objective_schemes_experiment.py:83-86 | once the fallback has applied, applying it again in later cells changes nothing |
| `Pareto.Complexities` | experiments/multi_objective_schemes_experiment.py:137 | one value per front member, component 1 of its fitness, with no sign change |
| `Pareto.TakeSnapshot` | experiments/multi_objective_schemes_experiment.py:133-139 | quality and complexity lists both as long as the last archive element; quality is component 0 with the task type's sign, complexity is component 1 unchanged |
| `Pareto.PickEvery` | experiments/multi_objective_schemes_experiment.py:184 | the elements at 0, k, 2k, ..., in order, and exactly ceil(len/k) of them |
| `Pareto.PickEveryGroups` | experiments/multi_objective_schemes_experiment.py:184 | from m groups of k snapshots, m are kept |
| `Pareto.PickEveryOne` | experiments/multi_objective_schemes_experiment.py:181-184 | with step one no snapshot is dropped, so the `runs == 1` branch agrees with the general one |
| `Pareto.DownsampleFronts` | experiments/multi_objective_schemes_experiment.py:180-184 | `runs == 0` raises (`range` step zero); otherwise every `runs`-th snapshot is kept |
| `Naming.PathJoin` | experiments/multi_objective_schemes_experiment.py:36-40 | an absolute name replaces the directory; otherwise the path starts with the directory, ends with the name and has one separator only where needed |
| `Naming.PathJoinInjective` | experiments/multi_objective_schemes_experiment.py:36-40 | within one directory, different relative names give different paths |
| `Naming.ArtefactNames` | experiments/multi_objective_schemes_experiment.py:36-40 | both names start with the experiment name; they end `_best_metric`/`_best_chains`, or `_history_of_quality`/`_history_of_individuals` when the history flag is set |
| `Naming.ArtefactPaths` | experiments/multi_objective_schemes_experiment.py:36-40 | the two paths save_composer_history writes: each ends with its artefact name of `ArtefactNames`, so with the flag's suffix; distinct non-absolute experiment names give disjoint paths in one directory (`Naming.ArtefactPathsInjective`) and the two files of one save never share a path (`Naming.ArtefactKindsNeverClash`) |
| `Naming.PathJoinEndsWithName` | experiments/multi_objective_schemes_experiment.py:36 | every joined path ends in its artefact name |
| `Naming.ArtefactKindsNeverClash` | experiments/multi_objective_schemes_experiment.py:36-40 | a metrics path is never a chains path, and a history path never a best-result path, whatever the directories and experiment names |
| `Naming.ArtefactPathsInjective` | experiments/multi_objective_schemes_experiment.py:36-40 | within one directory, artefacts of different experiments never share a path |
| `Naming.NatToString` | experiments/multi_objective_schemes_experiment.py:122 | `str(n)`: non-empty, decimal digits only, no leading zero |
| `Naming.NatToStringRoundTrip` | experiments/multi_objective_schemes_experiment.py:122 | reading the digits back gives the run number |
| `Naming.ExperimentName` | experiments/multi_objective_schemes_experiment.py:122 | `{dataset}_{label}_run_number_` followed by the run number's digits and nothing else: the name starts with that prefix, ends with the digits, and is exactly as long as the two together |
| `Naming.BestArtefactNamesAsWritten` | experiments/multi_objective_schemes_experiment.py:123 | as written, the per-run best save gets the history suffixes |
| `Naming.BestSaveAsWrittenLooksLikeHistorySave` | experiments/multi_objective_schemes_experiment.py:123 | as written, the best save of run index r is named like the history save of run index r + 1, and not like a best save |
| `Naming.BestArtefactNames` | experiments/multi_objective_schemes_experiment.py:36-37 | as intended, the best save ends `_best_metric`/`_best_chains` |
| `Naming.BestNamesNeverHistoryNames` | experiments/multi_objective_schemes_experiment.py:36-40 | as intended, no best artefact is ever named like a history artefact |
| `Naming.SchemeLabel` | experiments/multi_objective_schemes_experiment.py:207-210 | the label starts with the scheme's value and ` GP`, and ends ` with fixed max_depth` exactly when the depth is not configured automatically |
| `Naming.DepthConfigLabel` | experiments/multi_objective_schemes_experiment.py:207-209 | the depth-flag text: empty with automatic depth, ` with fixed max_depth` otherwise; `Naming.SchemeLabel` states the resulting suffix both ways and `Naming.SchemeLabelInjective` that the flag is recoverable from the label |
| `Naming.SchemeLabelInjective` | experiments/multi_objective_schemes_experiment.py:207-210 | two labels are equal only for the same scheme and the same depth option |
| `Naming.BuildLabels` | experiments/multi_objective_schemes_experiment.py:205-211 | one label per scheme, in order, label i being that of scheme i and depth option i |
| `Naming.SelfConfigLabelsDistinct` | experiments/multi_objective_schemes_experiment.py:202-211 | the four labels of the self-configuration experiment are pairwise distinct |
| `Sweep.BuildCall` | experiments/multi_objective_schemes_experiment.py:87-113 | a cell's call exists exactly when the per-scheme lookups are in range and a metric is chosen; it carries the cell's budget and scheme, the scheme's selection types and depth option, the chosen metric and the given operator lists |
| `Sweep.RunQualities` | experiments/multi_objective_schemes_experiment.py:127-131 | a complexity list is read exactly for a list metric |
| `Sweep.GenerationQualities` | experiments/multi_objective_schemes_experiment.py:141-148 | one quality list per generation |
| `Sweep.RowLimit` | experiments/multi_objective_schemes_experiment.py:151-160 | the rows written stop at the first of: the quality list's end, the chains' end, the complexity list's end |
| `Sweep.CellRows` | experiments/multi_objective_schemes_experiment.py:151-160 | row i carries scheme index and label, run, complexity (list value or computation time), budget, regularization flag, quality i and chain i's node count and depth |
| `Sweep.BudgetsFrom` | experiments/multi_objective_schemes_experiment.py:78-172 | the budgets the `while` loop visits from a start value: while at most the maximum, adding the step after each pass (shape proved in `Enumeration.BudgetsCount`) |
| `Sweep.Budgets` | experiments/multi_objective_schemes_experiment.py:61-78 | the loop starts at `step` (`Enumeration.SweepBudgets`) |
| `Sweep.RunCells` | experiments/multi_objective_schemes_experiment.py:80 | `for run in range(runs)`: the cells of one scheme's runs, in order |
| `Sweep.SchemeCells` | experiments/multi_objective_schemes_experiment.py:79 | `enumerate(genetic_schemes_set)`: each scheme's run cells, index by index |
| `Sweep.TimeCells` | experiments/multi_objective_schemes_experiment.py:78-80 | budget-major, then scheme, then run (`Enumeration.SweepCellsShape`) |
| `Sweep.SweepCells` | experiments/multi_objective_schemes_experiment.py:61-80 | the cells of one call, with the fixed budget and step |
| `Sweep.BeginCell` | experiments/multi_objective_schemes_experiment.py:81-86 | `n` counted and each operator list replaced by its default while unset |
| `Sweep.Step` | experiments/multi_objective_schemes_experiment.py:81-170 | one cell: the call built or an IndexError, the optimizer's result or its exception, then `RecordRun`; nothing once aborted (`SweepProperties.StepCompleted` and the `SweepProperties.Step*` lemmas listed at `Sweep.StepOf`) |
| `Sweep.Run` | experiments/multi_objective_schemes_experiment.py:78-172 | the cells processed one after another by a step function; for any step that keeps the per-cell contracts, the `SweepProperties.Run*` lemmas state the call log, histories, snapshots, saves and CSV it produces, and `SweepProperties.RunSplitAt` splits it at any cell |
| `Sweep.StepOf` | experiments/multi_objective_schemes_experiment.py:81-170 | the step of run_multi_obj_exp as a function value; the `SweepProperties.Step*` lemmas (`StepKeepsAborted`, `StepCountsAndLogs`, `StepHistories`, `StepHistoryContents`, `StepPareto`, `StepAppendsRows`, `StepWritesRows`) show that it keeps each per-cell contract the fold lemmas assume |
| `Sweep.Fold` | experiments/multi_objective_schemes_experiment.py:78-172 | the three nested loops over budgets, schemes and runs as `Run` of the sweep's step; `SweepProperties.FoldAborted` states that an exception ends it and `SweepProperties.FoldConcat` that it splits over concatenated cells |
| `Sweep.RecordRun` | experiments/multi_objective_schemes_experiment.py:115-170 | the composer appended, the best save as written attempted, the metric's columns read, the snapshot taken, the quality history appended, the rows written and the history save attempted, each reading that raises an abort |
| `Sweep.HistoryReadable` | experiments/multi_objective_schemes_experiment.py:141-148 | the histories the comprehension reads without raising (read index-wise in `SweepProperties.HistoryReadableAt`) |
| `Sweep.HistoricalQuality` | experiments/multi_objective_schemes_experiment.py:141-148 | the quality history of a composer, as `GenerationQualities` over its populations and archive |
| `Sweep.CsvRow` | experiments/multi_objective_schemes_experiment.py:157-160 | the fields of one `add_result_to_csv` call |
| `Sweep.SaveFiles` | experiments/multi_objective_schemes_experiment.py:36-40 | the two file names a composer-history save writes, or the Pareto set's name |
| `Sweep.BestSave` | experiments/multi_objective_schemes_experiment.py:117-125 | the best save as evidently intended: per-run folder, number r + 1, history flag false |
| `Sweep.BestSaveAsWritten` | experiments/multi_objective_schemes_experiment.py:117-125 | the best save as written: the composer in the flag position, so the flag is set |
| `Sweep.HistorySave` | experiments/multi_objective_schemes_experiment.py:161-170 | the history save: dataset folder, number r, history flag true |
| `Sweep.Initial` | experiments/multi_objective_schemes_experiment.py:65-77 | the header written, one empty composer list and quality-history list per label, no snapshots, `n` zero and the caller's operator lists |
| `Sweep.Finish` | experiments/multi_objective_schemes_experiment.py:174-195 | after the loops: quality histories when `runs > 1`, the downsampled snapshots and their save with Pareto visualisation (raising for `runs == 0`), composers with hypervolume visualisation (`SweepTheorems.SweepReportShape`) |
| `Sweep.SweepSpec` | experiments/multi_objective_schemes_experiment.py:55-195 | run_multi_obj_exp from start to end: `Finish` of the fold of all sweep cells from `Initial`; `Driver.RunMultiObjExp` is proved to return it, and the `SweepTheorems` lemmas state its calls, histories, CSV, saves and report |
| `SweepProperties.ResultRows` | experiments/multi_objective_schemes_experiment.py:151-160 | the rows a cell writes for its call's result |
| `SweepProperties.RowsOf` | experiments/multi_objective_schemes_experiment.py:151-160 | the rows of a sequence of cells, each for its own call, in order |
| `Metrics.EffectiveMetrics` | experiments/multi_objective_schemes_experiment.py:70-71 | `if not metrics`: the default pair replaces an unset list (`Metrics.DefaultMetricIsPair`, `Metrics.GivenMetricsKept`) |
| `Metrics.AnyList` | experiments/multi_objective_schemes_experiment.py:92 | the `any(...)` test, element by element (`Metrics.AnyListExists`) |
| `Fitness.Extractable` | experiments/multi_objective_schemes_experiment.py:46-52 | the populations `extract_quality_list` reads without raising: non-empty, every fitness of the kind of the first one, vectors non-empty |
| `Pareto.FrontReadable` | experiments/multi_objective_schemes_experiment.py:134-137 | a front whose quality and complexity lists can both be read |
| `Pareto.ArchiveReadable` | experiments/multi_objective_schemes_experiment.py:134-137 | an archive history whose last element is a readable front |
| `Enumeration.CountSchemeCellsBefore` | experiments/multi_objective_schemes_experiment.py:79-80 | before run r of scheme index k, the loops have visited exactly r cells of index k |
| `Enumeration.BudgetsCount` | experiments/multi_objective_schemes_experiment.py:69-78 | the budget loop visits step, 2·step, ...: floor(max/step) budgets |
| `Enumeration.SweepBudgets` | experiments/multi_objective_schemes_experiment.py:61-62 | with 800 and 800 the budget loop runs once, at 800 |
| `Enumeration.SweepCellsShape` | experiments/multi_objective_schemes_experiment.py:77-81 | the cells are scheme-major then run, `len(schemes) · runs` of them; cell k·runs + r is scheme k's run r at 800; each scheme index has `runs` cells |
| `Enumeration.TimeCellsInRange` | experiments/multi_objective_schemes_experiment.py:78-80 | every cell has a visited budget, a scheme index with its scheme, and a run index |
| `SweepProperties.HistoryReadableAt` | experiments/multi_objective_schemes_experiment.py:141-148 | the history comprehension raises nothing exactly when every population is extractable and, for a list metric, every generation has an extractable archive element |
| `SweepProperties.GenerationQualitiesAt` | experiments/multi_objective_schemes_experiment.py:141-148 | generation g's entry is the extraction of `individuals[g]`, followed by that of `archive_history[g]` for a list metric; its length is the sum of the two population sizes |
| `SweepProperties.RunCounter` | experiments/multi_objective_schemes_experiment.py:81-86 | a completed fold adds one to `n` per cell, and the operator lists are the defaulted ones from the first cell on |
| `SweepProperties.RunCallLog` | experiments/multi_objective_schemes_experiment.py:105-113 | a completed fold makes one optimizer call per cell, after the earlier calls |
| `SweepProperties.RunCallAt` | experiments/multi_objective_schemes_experiment.py:83-113 | call i is configured for cell i, has number n + i + 1 and uses the operator lists as defaulted at the first cell |
| `SweepProperties.RunHistories` | experiments/multi_objective_schemes_experiment.py:116-149 | each scheme index gets one composer and one quality history per cell of that index, appended after its earlier entries |
| `SweepProperties.RunParetoLog` | experiments/multi_objective_schemes_experiment.py:133-139 | one snapshot per cell with visualisation on, none with it off |
| `SweepProperties.RunParetoAt` | experiments/multi_objective_schemes_experiment.py:133-139 | snapshot i is taken from the last archive element of call i's result |
| `SweepProperties.RunSavesAt` | experiments/multi_objective_schemes_experiment.py:117-170 | cell i attempts the best save as line 123 writes it (history flag set by the composer) and then the history save, as attempts 2i and 2i + 1 |
| `SweepProperties.RunRows` | experiments/multi_objective_schemes_experiment.py:151-160 | completed or not, a fold only appends result rows of a scheme index, its label, a run index and a visited budget |
| `SweepProperties.StepCompleted` | experiments/multi_objective_schemes_experiment.py:81-170 | a cell that raises nothing adds one call, its result's composer and the quality history read from it under its index, a snapshot when asked, one row per quality value, and the best save as written followed by the history save |
| `SweepProperties.CellCall` | experiments/multi_objective_schemes_experiment.py:81-113 | the optimizer call one cell builds from the state it meets: counter plus one and the operator defaults applied; `SweepProperties.CellCallMatches` states that when it exists it is the call described by `CallMatches` (budget, scheme, per-scheme options, metric, depth limits 3 and 2, paths) |
| `SweepProperties.StepRows` | experiments/multi_objective_schemes_experiment.py:151-160 | any cell, raising or not, appends only rows of its own label, run and budget |
| `SweepProperties.RunHistoryHead` | experiments/multi_objective_schemes_experiment.py:116-149 | the composer and quality history the first cell of a completed fold adds survive the later cells |
| `SweepProperties.RunHistoriesAt` | experiments/multi_objective_schemes_experiment.py:116-149 | in a completed fold, the entry cell i adds under its scheme index, after the entries of earlier cells of that index, is the composer of call i's result and the quality history read from it |
| `SweepProperties.RunSplitAt` | experiments/multi_objective_schemes_experiment.py:78-170 | a completed fold cut before cell i: the first i cells completed with i calls and their entries per scheme index |
| `SweepProperties.RunCsvRows` | experiments/multi_objective_schemes_experiment.py:151-160 | a completed fold appends, cell by cell in order, the rows of each cell's own call |
| `SweepProperties.StepHistoryContents` | experiments/multi_objective_schemes_experiment.py:116-149 | a completed cell appends its result's composer and the quality history read from that composer |
| `SweepProperties.StepWritesRows` | experiments/multi_objective_schemes_experiment.py:151-160 | a completed cell appends the rows of its own call's result |
| `SweepProperties.FoldAborted` | experiments/multi_objective_schemes_experiment.py:78-170 | once an exception has left the function, the remaining cells change nothing |
| `SweepTheorems.Swept` | experiments/multi_objective_schemes_experiment.py:78-172 | the state when the three loops end, before line 174; the `SweepTheorems` lemmas below state what it holds (calls, histories, snapshots, saves, CSV), completed or aborted |
| `SweepTheorems.SweepCallCount` | experiments/multi_objective_schemes_experiment.py:77-81 | a sweep that raises nothing ends with `n == len(schemes) · runs`, one call per cell |
| `SweepTheorems.SweepCallAt` | experiments/multi_objective_schemes_experiment.py:83-113 | the call for scheme k, run r is call number k·runs + r + 1, with budget 800, scheme k's settings, and the caller's operator lists or the defaults where none were given |
| `SweepTheorems.SweepHistories` | experiments/multi_objective_schemes_experiment.py:141-149 | each scheme index ends with `runs` composers and `runs` quality histories, and any further label with none |
| `SweepTheorems.SweepHistoriesAt` | experiments/multi_objective_schemes_experiment.py:116-149 | entry r of scheme index k is the composer of call k·runs + r and the quality history read from it |
| `SweepTheorems.SweepParetoAt` | experiments/multi_objective_schemes_experiment.py:133-139 | with visualisation on, exactly one snapshot per run, from that run's last archive element |
| `SweepTheorems.SweepSavesAt` | experiments/multi_objective_schemes_experiment.py:117-170 | scheme k's run r attempts its best save as line 123 writes it, in folder `r+1_experiment` numbered r + 1 with the history flag set, then its history save in the dataset folder numbered r |
| `SweepTheorems.SweepBestSaveNames` | experiments/multi_objective_schemes_experiment.py:117-125 | as written, the best save of run r writes `{dataset}_{label}_run_number_{r+1}_history_of_quality` and `_history_of_individuals` in the per-run folder: the file names of the history save of run r + 1 |
| `SweepTheorems.BestSaveNeverHistoryFile` | experiments/multi_objective_schemes_experiment.py:117-125 | the corrected best save writes no file under a name that any history save writes |
| `SweepTheorems.SweepCsvRows` | experiments/multi_objective_schemes_experiment.py:66-68 | a sweep that raises nothing writes the header and then, cell by cell in loop order, the rows of each cell's optimizer result |
| `SweepTheorems.SweepCsv` | experiments/multi_objective_schemes_experiment.py:66-68 | whatever happens, the CSV file starts with the header, and every later line is a row of a scheme's label, a run index, budget 800 and the regularization flag |
| `SweepTheorems.SweepReportShape` | experiments/multi_objective_schemes_experiment.py:174-195 | quality histories are handed on exactly for more than one run, composers exactly with hypervolume visualisation, and the downsampled snapshots, also saved, exactly with Pareto visualisation |
| `SweepTheorems.SweepParetoComparison` | experiments/multi_objective_schemes_experiment.py:180-184 | the compared snapshots are one per scheme, each from that scheme's first run |
| `SweepTheorems.SweepAbortedReport` | experiments/multi_objective_schemes_experiment.py:174-195 | a sweep that raises hands nothing to the visualisation code |
| `Driver.AppendRows` | experiments/multi_objective_schemes_experiment.py:151-160 | the row loop appends exactly the cell's rows and reports whether every quality value got its row |
| `Driver.RecordResult` | experiments/multi_objective_schemes_experiment.py:115-170 | recording a result computes `RecordRun`, with the best save as line 123 writes it |
| `Driver.RunCell` | experiments/multi_objective_schemes_experiment.py:81-113 | one loop body computes `Step` |
| `Driver.RunRuns` | experiments/multi_objective_schemes_experiment.py:80-170 | the run loop computes the fold over one scheme's run cells |
| `Driver.RunSchemes` | experiments/multi_objective_schemes_experiment.py:79-170 | the scheme loop computes the fold over one budget's cells |
| `Driver.Conclude` | experiments/multi_objective_schemes_experiment.py:174-195 | the code after the loops computes `Finish` |
| `Driver.RunMultiObjExp` | experiments/multi_objective_schemes_experiment.py:55-195 | the whole function computes the sweep specification, so every `SweepTheorems` lemma describes its result |

## Left out

- `run_credit_scoring_problem` (optimizer and model training) and `MetricsRepository`'s computation-time metric are code outside this model; they are parameters (`Sweep.Collaborators`).
- File writing is modelled as logs of CSV lines and save attempts. The header write (lines 66-68) and the row writes (lines 156-159) sit outside every `try`, so in the source a failing CSV writer would end the function; the model treats both writes as always succeeding. Not modelled: header and row formatting, `os.makedirs`, the hard-coded Windows result directories (only which folder, run or dataset, is kept), and the `.npy` extension and payloads of `np.save`.
- The paths are joined with POSIX rules (`Naming.PathJoin`); the Windows rules of `ntpath` are not modelled.
- Visualisation calls (`viz_pareto_fronts_comparison`, `viz_hv_comparison`, `results_preprocess_and_quality_visualisation`) are not modelled; the report holds what they would be given. The `quality_label` and `xy_labels` strings are not modelled.
- `gc.collect()`, `datetime.timedelta` (the budget is passed as minutes) and `round(roc_auc, 4)` (qualities are exact reals) are not modelled.
- `Sweep.RecordRun`: a result whose metrics do not have the metric's shape aborts at lines 127-131. The source may only raise later, at the row loop, before it writes the first row. For a single metric, an empty list of columns is the empty list `[]` and is read like a flat one. The calls, CSV lines and save attempts come out the same; the histories differ, but after an abort nothing reads them.
- `Fitness.Extractable`: a population that mixes scalar and vector fitness is not extractable, and the model aborts the sweep at that cell. For regression with a scalar first fitness, the source instead puts the fitness objects of the later vector individuals into the list and raises nothing. Nothing in this file computes with a history built that way: it is appended, saved inside a `try`, and handed on only when `runs > 1`. With `runs == 1` the source writes the cell's rows, attempts the history save and goes on to the next cell.
- `None` for `labels`, `genetic_schemes_set`, `depth_config` or `name_of_dataset` is not modelled. It makes the source raise at lines 65-88; the model takes sequences and strings.
- Negative `runs` is not modelled (`runs` is a natural number). The arguments `history_file` and `objectives_names` only reach code outside this model.
- `inds_history_gp` is created but never appended to, so the history save stores lists that stay empty. The save's payload is not modelled.
- `baseline/b_xgboost.py` is not part of this model.

## Findings

| source | as written | input that shows it | evidently intended | confidence | as-written member | corrected member |
|---|---|---|---|---|---|---|
| experiments/multi_objective_schemes_experiment.py:123 | `save_composer_history(experiment_path, name_of_experiment, calculated_metrics, chains, composer)` passes `composer` in the position of `history_save_flag`; a composer object is true, so the per-run best metrics and chains are saved as `_history_of_quality`/`_history_of_individuals` | any completed cell, e.g. run index 0: its best artefacts are named `{dataset}_{label}_run_number_1_history_of_quality`, the names the history save of run index 1 uses | the best artefacts named `_best_metric`/`_best_chains` (the flag left at its default `False`) | not executed | `SweepTheorems.SweepBestSaveNames` | `SweepTheorems.BestSaveNeverHistoryFile` |
