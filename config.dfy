/**
  The optimizer configuration a sweep cell builds: the enumerations it is made of, the
  operator defaults, and the per-scheme depth limits fixed by run_multi_obj_exp.
 */
module Config {

  /** Genetic scheme variants, with their enumeration values as used in labels. */
  datatype GeneticScheme = SteadyState | Generational | ParameterFree

  function SchemeValue(s: GeneticScheme): string
  {
    match s
    case SteadyState => "steady_state"
    case Generational => "generational"
    case ParameterFree => "parameter_free"
  }

  datatype SelectionType = Tournament | Nsga2 | Spea2

  datatype CrossoverType = OnePoint | Subtree

  datatype MutationType = Simple | Growth | Reduce

  datatype RegularizationType = NoRegularization | Decremental

  /** The operator lists used when the caller leaves them unset. */
  const DefaultCrossover: seq<CrossoverType> := [OnePoint, Subtree]
  const DefaultMutation: seq<MutationType> := [Simple, Growth, Reduce]

  /** `if not given: given = default`: None and the empty list are both unset. */
  function WithDefault<T>(given: seq<T>, default: seq<T>): (r: seq<T>)
    ensures given != [] ==> r == given
    ensures given == [] ==> r == default
  {
    if given == [] then default else given
  }

  /** Once the fallback has been applied, applying it again changes nothing: later cells
      see the assigned list and keep it. */
  lemma WithDefaultStable<T>(given: seq<T>, default: seq<T>)
    requires default != []
    ensures WithDefault(WithDefault(given, default), default) == WithDefault(given, default)
  {
  }

  /** The depth limits run_multi_obj_exp fixes for (at most) four schemes. */
  const MaxDepths: seq<int> := [3, 3, 3, 3]
  const StartDepths: seq<int> := [2, 2, 2, 2]

  /** GPChainOptimiserParameters as the sweep fills it in. */
  datatype OptimizerParams = OptimizerParams(
    selectionTypes: seq<SelectionType>,
    crossoverTypes: seq<CrossoverType>,
    mutationTypes: seq<MutationType>,
    regularization: RegularizationType,
    scheme: GeneticScheme,
    withAutoDepth: bool)

}
