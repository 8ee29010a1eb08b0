/**
  Fitness values as the optimizer stores them on individuals, and their conversion
  into one quality value per individual (extract_quality_list).
 */
module Fitness {

  /** The kind of learning task; it decides the sign convention of stored fitness. */
  datatype TaskType = Classification | Regression

  /** A stored fitness: a plain scalar, or the value vector of a multi-objective fitness. */
  datatype Fitness = Single(value: real) | Multi(values: seq<real>)

  /** An individual of a population; only its fitness is read here. */
  datatype Individual = Individual(fitness: Fitness)

  type Population = seq<Individual>

  /** Quality from stored fitness: the optimizer minimises, so a classification score
      is stored negated and is negated back; a regression error is stored as it is. */
  function Signed(task: TaskType, x: real): real
  {
    if task == Classification then -x else x
  }

  /** The objective a quality value is read from: the scalar, or component 0 of a vector. */
  function Primary(f: Fitness): real
    requires f.Multi? ==> |f.values| > 0
  {
    match f
    case Single(v) => v
    case Multi(vs) => vs[0]
  }

  /** The populations extract_quality_list reads without raising: it reads `pop[0]`, picks
      the attribute to read from the kind of that first fitness alone, and then reads that
      attribute (component 0 for a vector) of every individual. */
  predicate Extractable(pop: Population)
  {
    && |pop| > 0
    && if pop[0].fitness.Multi? then
         forall i :: 0 <= i < |pop| ==> pop[i].fitness.Multi? && |pop[i].fitness.values| > 0
       else
         forall i :: 0 <= i < |pop| ==> pop[i].fitness.Single?
  }

  /** The vector branch: component 0 of every individual, with the task type's sign. */
  function FirstComponents(task: TaskType, pop: Population): (r: seq<real>)
    requires forall i :: 0 <= i < |pop| ==> pop[i].fitness.Multi? && |pop[i].fitness.values| > 0
    ensures |r| == |pop|
    ensures forall i :: 0 <= i < |pop| ==> r[i] == Signed(task, pop[i].fitness.values[0])
  {
    if pop == [] then []
    else [Signed(task, pop[0].fitness.values[0])] + FirstComponents(task, pop[1..])
  }

  /** The scalar branch: the fitness of every individual, with the task type's sign. */
  function Scalars(task: TaskType, pop: Population): (r: seq<real>)
    requires forall i :: 0 <= i < |pop| ==> pop[i].fitness.Single?
    ensures |r| == |pop|
    ensures forall i :: 0 <= i < |pop| ==> r[i] == Signed(task, pop[i].fitness.value)
  {
    if pop == [] then []
    else [Signed(task, pop[0].fitness.value)] + Scalars(task, pop[1..])
  }

  /** extract_quality_list: one quality per individual, in population order. The branch
      is chosen once, from the kind of the first individual's fitness. */
  function ExtractQualityList(task: TaskType, pop: Population): (r: seq<real>)
    requires Extractable(pop)
    ensures |r| == |pop|
    ensures forall i :: 0 <= i < |pop| ==> r[i] == Signed(task, Primary(pop[i].fitness))
  {
    if pop[0].fitness.Multi? then FirstComponents(task, pop) else Scalars(task, pop)
  }

  /** Every value of a sequence negated. */
  function Negated(s: seq<real>): (r: seq<real>)
    ensures |r| == |s|
    ensures forall i :: 0 <= i < |s| ==> r[i] == -s[i]
  {
    if s == [] then [] else [-s[0]] + Negated(s[1..])
  }

  /** The classification convention is the regression one with every sign inverted. */
  lemma ClassificationNegatesRegression(pop: Population)
    requires Extractable(pop)
    ensures ExtractQualityList(Classification, pop) == Negated(ExtractQualityList(Regression, pop))
  {
  }

  /** Two populations whose fitness has the same kind can be extracted together or one
      after the other: extraction works individual by individual. */
  lemma ExtractConcat(task: TaskType, a: Population, b: Population)
    requires Extractable(a) && Extractable(b)
    requires a[0].fitness.Multi? == b[0].fitness.Multi?
    ensures Extractable(a + b)
    ensures ExtractQualityList(task, a + b) == ExtractQualityList(task, a) + ExtractQualityList(task, b)
  {
    var ab := a + b;
    forall i | 0 <= i < |ab|
      ensures ab[i] == if i < |a| then a[i] else b[i - |a|]
    {
    }
  }

}
