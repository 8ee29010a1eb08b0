/** The cells of a sweep: how many budgets the outer loop visits, how many cells there are,
    where each (budget, scheme, run) cell sits in the order the loops visit them, and how
    often each scheme index occurs. */
module Enumeration {

  import opened Config
  import opened Pareto
  import opened Sweep

  /** The position of element `r` of group `g`, for groups of `size`. */
  function Slot(g: nat, r: nat, size: nat): nat
  {
    Times(g, size) + r
  }

  lemma {:induction false} TimesAdd(a: nat, b: nat, k: nat)
    ensures Times(a + b, k) == Times(a, k) + Times(b, k)
    decreases b
  {
    if b > 0 {
      TimesAdd(a, b - 1, k);
    }
  }

  /** The budgets from `t` on are t, t + step, t + 2 step, ..., the last one at most `maxAmount`
      and the next one past it. */
  lemma {:induction false} BudgetsFromShape(t: int, step: int, maxAmount: int)
    requires step > 0
    ensures var b := BudgetsFrom(t, step, maxAmount);
      && (forall i :: 0 <= i < |b| ==> b[i] == t + Times(i, step))
      && t + Times(|b|, step) > maxAmount
      && (|b| > 0 ==> t + Times(|b| - 1, step) <= maxAmount)
    decreases maxAmount - t
  {
    if t <= maxAmount {
      BudgetsFromShape(t + step, step, maxAmount);
      var b := BudgetsFrom(t, step, maxAmount);
      var rest := BudgetsFrom(t + step, step, maxAmount);
      assert b == [t] + rest;
      forall i | 0 <= i < |b|
        ensures b[i] == t + Times(i, step)
      {
        if i > 0 {
          assert b[i] == rest[i - 1];
        }
      }
    }
  }

  /** The outer loop of run_multi_obj_exp runs floor(max / step) times, with the budgets
      step, 2 step, 3 step, ... */
  lemma BudgetsCount(step: int, maxAmount: int)
    requires step > 0 && maxAmount >= 0
    ensures var b := Budgets(step, maxAmount);
      && |b| * step <= maxAmount < (|b| + 1) * step
      && forall i :: 0 <= i < |b| ==> b[i] == (i + 1) * step
  {
    var b := Budgets(step, maxAmount);
    BudgetsFromShape(step, step, maxAmount);
    TimesIsProduct(|b| + 1, step);
    TimesIsProduct(|b|, step);
    if |b| > 0 {
      TimesIsProduct(|b| - 1, step);
    }
    forall i | 0 <= i < |b|
      ensures b[i] == (i + 1) * step
    {
      TimesIsProduct(i + 1, step);
    }
  }

  /** With the fixed budget and step of 800 minutes the outer loop runs exactly once. */
  lemma SweepBudgets()
    ensures Budgets(TimeStep, MaxAmountOfTime) == [800]
  {
    assert BudgetsFrom(1600, 800, 800) == [];
  }

  lemma {:induction false} RunCellsAt(t: int, k: nat, s: GeneticScheme, r0: nat, runs: nat)
    requires r0 <= runs
    ensures |RunCells(t, k, s, r0, runs)| == runs - r0
    ensures forall j :: 0 <= j < runs - r0 ==> RunCells(t, k, s, r0, runs)[j] == Cell(t, k, s, r0 + j)
    decreases runs - r0
  {
    if r0 < runs {
      RunCellsAt(t, k, s, r0 + 1, runs);
    }
  }

  lemma {:induction false} SchemeCellsLength(t: int, schemes: seq<GeneticScheme>, k0: nat, runs: nat)
    requires k0 <= |schemes|
    ensures |SchemeCells(t, schemes, k0, runs)| == Times(|schemes| - k0, runs)
    decreases |schemes| - k0
  {
    if k0 < |schemes| {
      SchemeCellsLength(t, schemes, k0 + 1, runs);
      RunCellsAt(t, k0, schemes[k0], 0, runs);
    }
  }

  /** Within one budget, the cells come scheme by scheme, each scheme's runs in order. */
  lemma {:induction false} SchemeCellAt(t: int, schemes: seq<GeneticScheme>, k0: nat, runs: nat, j: nat, r: nat)
    requires k0 + j < |schemes| && r < runs
    ensures Slot(j, r, runs) < |SchemeCells(t, schemes, k0, runs)|
    ensures SchemeCells(t, schemes, k0, runs)[Slot(j, r, runs)] == Cell(t, k0 + j, schemes[k0 + j], r)
    decreases j
  {
    RunCellsAt(t, k0, schemes[k0], 0, runs);
    var head := RunCells(t, k0, schemes[k0], 0, runs);
    var tail := SchemeCells(t, schemes, k0 + 1, runs);
    assert SchemeCells(t, schemes, k0, runs) == head + tail;
    if j == 0 {
      assert (head + tail)[r] == head[r];
    } else {
      SchemeCellAt(t, schemes, k0 + 1, runs, j - 1, r);
      assert Slot(j, r, runs) == runs + Slot(j - 1, r, runs);
      assert (head + tail)[Slot(j, r, runs)] == tail[Slot(j - 1, r, runs)];
    }
  }

  lemma {:induction false} TimeCellsLength(budgets: seq<int>, schemes: seq<GeneticScheme>, runs: nat)
    ensures |TimeCells(budgets, schemes, runs)| == Times(|budgets|, Times(|schemes|, runs))
    decreases |budgets|
  {
    if budgets != [] {
      TimeCellsLength(budgets[1..], schemes, runs);
      SchemeCellsLength(budgets[0], schemes, 0, runs);
    }
  }

  /** The whole order: budget-major, then scheme, then run. */
  lemma {:induction false} TimeCellAt(budgets: seq<int>, schemes: seq<GeneticScheme>, runs: nat, b: nat, k: nat, r: nat)
    requires b < |budgets| && k < |schemes| && r < runs
    ensures Slot(b, Slot(k, r, runs), Times(|schemes|, runs)) < |TimeCells(budgets, schemes, runs)|
    ensures TimeCells(budgets, schemes, runs)[Slot(b, Slot(k, r, runs), Times(|schemes|, runs))]
              == Cell(budgets[b], k, schemes[k], r)
    decreases b
  {
    var size := Times(|schemes|, runs);
    var head := SchemeCells(budgets[0], schemes, 0, runs);
    var tail := TimeCells(budgets[1..], schemes, runs);
    SchemeCellsLength(budgets[0], schemes, 0, runs);
    TimeCellsLength(budgets[1..], schemes, runs);
    assert TimeCells(budgets, schemes, runs) == head + tail;
    if b == 0 {
      SchemeCellAt(budgets[0], schemes, 0, runs, k, r);
      assert (head + tail)[Slot(k, r, runs)] == head[Slot(k, r, runs)];
    } else {
      TimeCellAt(budgets[1..], schemes, runs, b - 1, k, r);
      assert Slot(b, Slot(k, r, runs), size) == size + Slot(b - 1, Slot(k, r, runs), size);
      assert (head + tail)[Slot(b, Slot(k, r, runs), size)] == tail[Slot(b - 1, Slot(k, r, runs), size)];
    }
  }

  /** The cells that emerge are exactly the cells of the loop ranges. */
  predicate InRange(budgets: seq<int>, schemes: seq<GeneticScheme>, runs: nat, c: Cell)
  {
    c.timeAmount in budgets && c.typeNum < |schemes| && c.scheme == schemes[c.typeNum] && c.run < runs
  }

  lemma {:induction false} TimeCellsInRange(budgets: seq<int>, schemes: seq<GeneticScheme>, runs: nat)
    ensures forall i :: 0 <= i < |TimeCells(budgets, schemes, runs)| ==>
      InRange(budgets, schemes, runs, TimeCells(budgets, schemes, runs)[i])
    decreases |budgets|
  {
    if budgets != [] {
      TimeCellsInRange(budgets[1..], schemes, runs);
      var head := SchemeCells(budgets[0], schemes, 0, runs);
      var tail := TimeCells(budgets[1..], schemes, runs);
      SchemeCellsInRange(budgets[0], schemes, 0, runs);
      forall i | 0 <= i < |head + tail|
        ensures InRange(budgets, schemes, runs, (head + tail)[i])
      {
        if i >= |head| {
          assert (head + tail)[i] == tail[i - |head|];
        }
      }
    }
  }

  lemma {:induction false} SchemeCellsInRange(t: int, schemes: seq<GeneticScheme>, k0: nat, runs: nat)
    ensures forall i :: 0 <= i < |SchemeCells(t, schemes, k0, runs)| ==>
      var c := SchemeCells(t, schemes, k0, runs)[i];
      c.timeAmount == t && k0 <= c.typeNum < |schemes| && c.scheme == schemes[c.typeNum] && c.run < runs
    decreases |schemes| - k0
  {
    if k0 < |schemes| {
      SchemeCellsInRange(t, schemes, k0 + 1, runs);
      RunCellsAt(t, k0, schemes[k0], 0, runs);
      var head := RunCells(t, k0, schemes[k0], 0, runs);
      var tail := SchemeCells(t, schemes, k0 + 1, runs);
      forall i | 0 <= i < |head + tail|
        ensures var c: Cell := (head + tail)[i];
          c.timeAmount == t && k0 <= c.typeNum < |schemes| && c.scheme == schemes[c.typeNum] && c.run < runs
      {
        if i >= |head| {
          assert (head + tail)[i] == tail[i - |head|];
        }
      }
    }
  }

  /** How many of `cells` belong to scheme index `k`. */
  function CountScheme(cells: seq<Cell>, k: nat): nat
  {
    if cells == [] then 0 else (if cells[0].typeNum == k then 1 else 0) + CountScheme(cells[1..], k)
  }

  lemma {:induction false} CountSchemeConcat(a: seq<Cell>, b: seq<Cell>, k: nat)
    ensures CountScheme(a + b, k) == CountScheme(a, k) + CountScheme(b, k)
    decreases |a|
  {
    if a == [] {
      assert a + b == b;
    } else {
      assert (a + b)[1..] == a[1..] + b;
      CountSchemeConcat(a[1..], b, k);
    }
  }

  lemma {:induction false} CountRunCells(t: int, k0: nat, s: GeneticScheme, r0: nat, runs: nat, k: nat)
    requires r0 <= runs
    ensures CountScheme(RunCells(t, k0, s, r0, runs), k) == if k == k0 then runs - r0 else 0
    decreases runs - r0
  {
    if r0 < runs {
      CountRunCells(t, k0, s, r0 + 1, runs, k);
      assert RunCells(t, k0, s, r0, runs)[1..] == RunCells(t, k0, s, r0 + 1, runs);
    }
  }

  lemma {:induction false} CountSchemeCells(t: int, schemes: seq<GeneticScheme>, k0: nat, runs: nat, k: nat)
    ensures CountScheme(SchemeCells(t, schemes, k0, runs), k) == if k0 <= k < |schemes| then runs else 0
    decreases |schemes| - k0
  {
    if k0 < |schemes| {
      CountSchemeCells(t, schemes, k0 + 1, runs, k);
      CountRunCells(t, k0, schemes[k0], 0, runs, k);
      CountSchemeConcat(RunCells(t, k0, schemes[k0], 0, runs), SchemeCells(t, schemes, k0 + 1, runs), k);
    }
  }

  /** Each scheme index of the loop gets one cell per budget and run; other indices none. */
  lemma {:induction false} CountTimeCells(budgets: seq<int>, schemes: seq<GeneticScheme>, runs: nat, k: nat)
    ensures CountScheme(TimeCells(budgets, schemes, runs), k) == if k < |schemes| then Times(|budgets|, runs) else 0
    decreases |budgets|
  {
    if budgets != [] {
      CountTimeCells(budgets[1..], schemes, runs, k);
      CountSchemeCells(budgets[0], schemes, 0, runs, k);
      CountSchemeConcat(SchemeCells(budgets[0], schemes, 0, runs), TimeCells(budgets[1..], schemes, runs), k);
    }
  }

  /** Before run r of scheme index k0 + j, the scheme loop has visited exactly r cells of that
      index. */
  lemma {:induction false} CountSchemeCellsBefore(t: int, schemes: seq<GeneticScheme>, k0: nat, runs: nat, j: nat, r: nat)
    requires k0 + j < |schemes| && r < runs
    ensures Slot(j, r, runs) < |SchemeCells(t, schemes, k0, runs)|
    ensures CountScheme(SchemeCells(t, schemes, k0, runs)[..Slot(j, r, runs)], k0 + j) == r
    decreases j
  {
    SchemeCellAt(t, schemes, k0, runs, j, r);
    RunCellsAt(t, k0, schemes[k0], 0, runs);
    var head := RunCells(t, k0, schemes[k0], 0, runs);
    var tail := SchemeCells(t, schemes, k0 + 1, runs);
    assert SchemeCells(t, schemes, k0, runs) == head + tail;
    if j == 0 {
      assert (head + tail)[..r] == head[..r];
      CountSame(head[..r], k0);
    } else {
      CountSchemeCellsBefore(t, schemes, k0 + 1, runs, j - 1, r);
      assert Slot(j, r, runs) == runs + Slot(j - 1, r, runs);
      assert (head + tail)[..Slot(j, r, runs)] == head + tail[..Slot(j - 1, r, runs)];
      CountSchemeConcat(head, tail[..Slot(j - 1, r, runs)], k0 + j);
      CountRunCells(t, k0, schemes[k0], 0, runs, k0 + j);
    }
  }

  /** Cells that all belong to scheme index k count fully. */
  lemma {:induction false} CountSame(cells: seq<Cell>, k: nat)
    requires forall i :: 0 <= i < |cells| ==> cells[i].typeNum == k
    ensures CountScheme(cells, k) == |cells|
    decreases |cells|
  {
    if cells != [] {
      CountSame(cells[1..], k);
    }
  }

  /** The sweep of run_multi_obj_exp has |schemes| * runs cells, run by run within each
      scheme, and each scheme index occurs `runs` times. */
  lemma SweepCellsShape(inp: SweepInputs)
    ensures |SweepCells(inp)| == |inp.schemes| * inp.runs
    ensures forall k, r :: 0 <= k < |inp.schemes| && 0 <= r < inp.runs ==>
      Slot(k, r, inp.runs) < |SweepCells(inp)| &&
      SweepCells(inp)[Slot(k, r, inp.runs)] == Cell(800, k, inp.schemes[k], r)
    ensures forall k: nat :: CountScheme(SweepCells(inp), k) == if k < |inp.schemes| then inp.runs else 0
    ensures forall k, r :: 0 <= k < |inp.schemes| && 0 <= r < inp.runs ==>
      Slot(k, r, inp.runs) <= |SweepCells(inp)| &&
      CountScheme(SweepCells(inp)[..Slot(k, r, inp.runs)], k) == r
  {
    SweepBudgets();
    var size := Times(|inp.schemes|, inp.runs);
    TimeCellsLength([800], inp.schemes, inp.runs);
    TimesIsProduct(|inp.schemes|, inp.runs);
    forall k, r | 0 <= k < |inp.schemes| && 0 <= r < inp.runs
      ensures Slot(k, r, inp.runs) < |SweepCells(inp)|
      ensures SweepCells(inp)[Slot(k, r, inp.runs)] == Cell(800, k, inp.schemes[k], r)
    {
      TimeCellAt([800], inp.schemes, inp.runs, 0, k, r);
      assert Slot(0, Slot(k, r, inp.runs), size) == Slot(k, r, inp.runs);
    }
    forall k: nat
      ensures CountScheme(SweepCells(inp), k) == if k < |inp.schemes| then inp.runs else 0
    {
      CountTimeCells([800], inp.schemes, inp.runs, k);
    }
    assert SweepCells(inp) == SchemeCells(800, inp.schemes, 0, inp.runs) + TimeCells([], inp.schemes, inp.runs);
    forall k, r | 0 <= k < |inp.schemes| && 0 <= r < inp.runs
      ensures Slot(k, r, inp.runs) <= |SweepCells(inp)|
      ensures CountScheme(SweepCells(inp)[..Slot(k, r, inp.runs)], k) == r
    {
      CountSchemeCellsBefore(800, inp.schemes, 0, inp.runs, k, r);
      assert SweepCells(inp)[..Slot(k, r, inp.runs)] == SchemeCells(800, inp.schemes, 0, inp.runs)[..Slot(k, r, inp.runs)];
    }
  }

}
