/**
  The names the experiment derives: the artefact paths written by save_composer_history,
  the experiment names built from a dataset, a label and a run number, and the scheme
  labels of exp_self_config_vs_fix_params.
 */
module Naming {

  import opened Config

  predicate StartsWith(s: string, prefix: string)
  {
    |prefix| <= |s| && s[..|prefix|] == prefix
  }

  predicate EndsWith(s: string, suffix: string)
  {
    |suffix| <= |s| && s[|s| - |suffix|..] == suffix
  }

  /** A string ending in `x + y` ends in `y`. */
  lemma EndsWithTail(s: string, x: string, y: string)
    requires EndsWith(s, x + y)
    ensures EndsWith(s, y)
  {
    assert s[|s| - |y|..] == s[|s| - |x + y|..][|x|..];
  }

  /** Two strings that end differently somewhere in their last `n` characters are different. */
  lemma DifferentEndings(s: string, t: string, a: string, b: string)
    requires EndsWith(s, a) && EndsWith(t, b)
    requires |a| >= 2 && |b| >= 2 && a[|a| - 2..] != b[|b| - 2..]
    ensures s != t
  {
    assert s[|s| - 2..] == a[|a| - 2..];
    assert t[|t| - 2..] == b[|b| - 2..];
  }

  predicate IsAbsolute(path: string)
  {
    |path| > 0 && path[0] == '/'
  }

  /** os.path.join of two components, POSIX rules: an absolute second component replaces
      the first; otherwise the two are joined with one separator, added only when the first
      is non-empty and does not already end in one. */
  function PathJoin(dir: string, name: string): (p: string)
    ensures IsAbsolute(name) ==> p == name
    ensures !IsAbsolute(name) ==> StartsWith(p, dir) && EndsWith(p, name)
    ensures !IsAbsolute(name) ==> |p| == |dir| + |name| + (if dir == [] || dir[|dir| - 1] == '/' then 0 else 1)
  {
    if IsAbsolute(name) then name
    else if dir == [] || dir[|dir| - 1] == '/' then dir + name
    else dir + "/" + name
  }

  /** Within one directory, different relative names give different paths. */
  lemma PathJoinInjective(dir: string, a: string, b: string)
    requires !IsAbsolute(a) && !IsAbsolute(b)
    requires PathJoin(dir, a) == PathJoin(dir, b)
    ensures a == b
  {
    var p := PathJoin(dir, a);
    assert |a| == |b|;
    assert a == p[|p| - |a|..] == b;
  }

  const BestMetricSuffix: string := "_best_metric"
  const BestChainsSuffix: string := "_best_chains"
  const HistoryQualitySuffix: string := "_history_of_quality"
  const HistoryIndividualsSuffix: string := "_history_of_individuals"

  /** The two file names save_composer_history writes for an experiment: metrics (or the
      quality history) first, chains (or the individuals history) second. */
  function ArtefactNames(nameOfExperiment: string, historySaveFlag: bool): (names: (string, string))
    ensures EndsWith(names.0, if historySaveFlag then HistoryQualitySuffix else BestMetricSuffix)
    ensures EndsWith(names.1, if historySaveFlag then HistoryIndividualsSuffix else BestChainsSuffix)
    ensures StartsWith(names.0, nameOfExperiment) && StartsWith(names.1, nameOfExperiment)
  {
    if historySaveFlag then
      (nameOfExperiment + HistoryQualitySuffix, nameOfExperiment + HistoryIndividualsSuffix)
    else
      (nameOfExperiment + BestMetricSuffix, nameOfExperiment + BestChainsSuffix)
  }

  /** The two paths of save_composer_history: each artefact name joined to the directory. */
  function ArtefactPaths(experimentPath: string, nameOfExperiment: string, historySaveFlag: bool): (paths: (string, string))
    ensures EndsWith(paths.0, ArtefactNames(nameOfExperiment, historySaveFlag).0)
    ensures EndsWith(paths.1, ArtefactNames(nameOfExperiment, historySaveFlag).1)
  {
    var names := ArtefactNames(nameOfExperiment, historySaveFlag);
    (PathJoin(experimentPath, names.0), PathJoin(experimentPath, names.1))
  }

  /** Every path save_composer_history joins ends in its artefact name. */
  lemma PathJoinEndsWithName(dir: string, name: string)
    ensures EndsWith(PathJoin(dir, name), name)
  {
  }

  /** A string ending in `suffix` has the last two characters of `suffix`. */
  lemma LastTwo(s: string, suffix: string)
    requires EndsWith(s, suffix) && |suffix| >= 2
    ensures s[|s| - 1] == suffix[|suffix| - 1] && s[|s| - 2] == suffix[|suffix| - 2]
  {
    assert s[|s| - 1] == s[|s| - |suffix|..][|suffix| - 1];
    assert s[|s| - 2] == s[|s| - |suffix|..][|suffix| - 2];
  }

  /** The last character of a metrics path and the last but one of a chains path are
      fixed by the artefact suffix. */
  lemma ArtefactTails(dir: string, name: string, flag: bool)
    ensures var p := ArtefactPaths(dir, name, flag);
      && |p.0| >= 2 && p.0[|p.0| - 1] == (if flag then 'y' else 'c')
      && |p.1| >= 2 && p.1[|p.1| - 2] == (if flag then 'l' else 'n')
  {
    var names := ArtefactNames(name, flag);
    var p := ArtefactPaths(dir, name, flag);
    PathJoinEndsWithName(dir, names.0);
    PathJoinEndsWithName(dir, names.1);
    if flag {
      EndsWithTail(p.0, name, HistoryQualitySuffix);
      EndsWithTail(p.1, name, HistoryIndividualsSuffix);
      LastTwo(p.0, HistoryQualitySuffix);
      LastTwo(p.1, HistoryIndividualsSuffix);
    } else {
      EndsWithTail(p.0, name, BestMetricSuffix);
      EndsWithTail(p.1, name, BestChainsSuffix);
      LastTwo(p.0, BestMetricSuffix);
      LastTwo(p.1, BestChainsSuffix);
    }
  }

  /** The four kinds of artefact never share a path, whatever the directories and names:
      a history save never overwrites a best save, and a metrics file never a chains file. */
  lemma ArtefactKindsNeverClash(d1: string, n1: string, f1: bool, d2: string, n2: string, f2: bool)
    ensures ArtefactPaths(d1, n1, f1).0 != ArtefactPaths(d2, n2, f2).1
    ensures f1 != f2 ==> ArtefactPaths(d1, n1, f1).0 != ArtefactPaths(d2, n2, f2).0
    ensures f1 != f2 ==> ArtefactPaths(d1, n1, f1).1 != ArtefactPaths(d2, n2, f2).1
  {
    ArtefactTails(d1, n1, f1);
    ArtefactTails(d2, n2, f2);
    ArtefactChainsTail(d1, n1, f1);
  }

  /** A metrics path ends in a letter no chains path ends in. */
  lemma ArtefactChainsTail(dir: string, name: string, flag: bool)
    ensures var p := ArtefactPaths(dir, name, flag); |p.1| >= 1 && p.1[|p.1| - 1] == 's'
  {
    var names := ArtefactNames(name, flag);
    var p := ArtefactPaths(dir, name, flag);
    PathJoinEndsWithName(dir, names.1);
    if flag {
      EndsWithTail(p.1, name, HistoryIndividualsSuffix);
      LastTwo(p.1, HistoryIndividualsSuffix);
    } else {
      EndsWithTail(p.1, name, BestChainsSuffix);
      LastTwo(p.1, BestChainsSuffix);
    }
  }

  /** Within one directory, artefacts of different experiments never share a path. */
  lemma ArtefactPathsInjective(dir: string, n1: string, n2: string, flag: bool)
    requires !IsAbsolute(n1) && !IsAbsolute(n2)
    requires ArtefactPaths(dir, n1, flag).0 == ArtefactPaths(dir, n2, flag).0
    ensures n1 == n2
  {
    var a, b := ArtefactNames(n1, flag), ArtefactNames(n2, flag);
    assert !IsAbsolute(a.0) && !IsAbsolute(b.0);
    PathJoinInjective(dir, a.0, b.0);
    var s := if flag then HistoryQualitySuffix else BestMetricSuffix;
    assert n1 == a.0[..|a.0| - |s|] == b.0[..|b.0| - |s|] == n2;
  }

  /** The character of a decimal digit. */
  function DigitChar(d: nat): char
    requires d < 10
  {
    "0123456789"[d]
  }

  function DigitValue(c: char): nat
  {
    if '0' <= c <= '9' then (c - '0') as nat else 0
  }

  /** `str(n)` for a natural number: its decimal digits, without leading zeros. */
  function NatToString(n: nat): (s: string)
    ensures |s| > 0
    ensures forall i :: 0 <= i < |s| ==> '0' <= s[i] <= '9'
    ensures s[0] == '0' ==> n == 0
    decreases n
  {
    if n < 10 then [DigitChar(n)] else NatToString(n / 10) + [DigitChar(n % 10)]
  }

  /** The number a string of decimal digits denotes. */
  function DecimalValue(s: string): nat
    decreases |s|
  {
    if s == [] then 0 else DecimalValue(s[..|s| - 1]) * 10 + DigitValue(s[|s| - 1])
  }

  /** `str` on run numbers loses nothing: reading the digits back gives the number. */
  lemma {:induction false} NatToStringRoundTrip(n: nat)
    ensures DecimalValue(NatToString(n)) == n
    decreases n
  {
    var s := NatToString(n);
    if n >= 10 {
      NatToStringRoundTrip(n / 10);
      assert s[..|s| - 1] == NatToString(n / 10);
    }
  }

  /** `name_of_dataset + '_' + label + '_run_number_' + str(number)`. */
  function ExperimentName(datasetName: string, expLabel: string, number: nat): (name: string)
    ensures StartsWith(name, datasetName + "_" + expLabel + "_run_number_")
    ensures EndsWith(name, NatToString(number))
    ensures |name| == |datasetName + "_" + expLabel + "_run_number_"| + |NatToString(number)|
  {
    datasetName + "_" + expLabel + "_run_number_" + NatToString(number)
  }

  /** The per-run best save as written (line 123): the composer object is passed in the
      position of `history_save_flag`, and an object is true in a condition, so the best
      metrics and chains get the history suffixes. */
  function BestArtefactNamesAsWritten(nameOfExperiment: string): (names: (string, string))
    ensures EndsWith(names.0, HistoryQualitySuffix) && EndsWith(names.1, HistoryIndividualsSuffix)
  {
    var composerAsFlag := true;
    ArtefactNames(nameOfExperiment, composerAsFlag)
  }

  /** As written, the best save of run index `run` (numbered `run + 1`) gets the file names of
      the history save of run index `run + 1` (numbered `run + 1` too); only their directories
      differ. */
  lemma BestSaveAsWrittenLooksLikeHistorySave(datasetName: string, expLabel: string, run: nat)
    ensures BestArtefactNamesAsWritten(ExperimentName(datasetName, expLabel, run + 1))
         == ArtefactNames(ExperimentName(datasetName, expLabel, run + 1), true)
    ensures BestArtefactNamesAsWritten(ExperimentName(datasetName, expLabel, run + 1))
         != BestArtefactNames(ExperimentName(datasetName, expLabel, run + 1))
  {
    var a := BestArtefactNamesAsWritten(ExperimentName(datasetName, expLabel, run + 1));
    var b := BestArtefactNames(ExperimentName(datasetName, expLabel, run + 1));
    DifferentEndings(a.0, b.0, HistoryQualitySuffix, BestMetricSuffix);
  }

  /** The per-run best save as intended: `history_save_flag` left false. */
  function BestArtefactNames(nameOfExperiment: string): (names: (string, string))
    ensures EndsWith(names.0, BestMetricSuffix) && EndsWith(names.1, BestChainsSuffix)
  {
    ArtefactNames(nameOfExperiment, false)
  }

  /** With the flag left false, no best artefact is ever named like a history artefact. */
  lemma BestNamesNeverHistoryNames(n1: string, n2: string)
    ensures BestArtefactNames(n1).0 != ArtefactNames(n2, true).0
    ensures BestArtefactNames(n1).1 != ArtefactNames(n2, true).1
  {
    var a, b := BestArtefactNames(n1), ArtefactNames(n2, true);
    DifferentEndings(a.0, b.0, BestMetricSuffix, HistoryQualitySuffix);
    DifferentEndings(a.1, b.1, BestChainsSuffix, HistoryIndividualsSuffix);
  }

  /** `' with fixed max_depth'` unless the depth is configured automatically. */
  function DepthConfigLabel(withAutoDepth: bool): string
  {
    if withAutoDepth then "" else " with fixed max_depth"
  }

  /** `f'{scheme.value} GP' + depth_config_label`. */
  function SchemeLabel(scheme: GeneticScheme, withAutoDepth: bool): (text: string)
    ensures StartsWith(text, SchemeValue(scheme) + " GP")
    ensures EndsWith(text, " with fixed max_depth") <==> !withAutoDepth
  {
    SchemeValue(scheme) + " GP" + DepthConfigLabel(withAutoDepth)
  }

  /** A label names its scheme and its depth option unambiguously. */
  lemma SchemeLabelInjective(a: GeneticScheme, x: bool, b: GeneticScheme, y: bool)
    ensures SchemeLabel(a, x) == SchemeLabel(b, y) <==> a == b && x == y
  {
    if SchemeLabel(a, x) == SchemeLabel(b, y) {
      assert x == y;
      var l := SchemeLabel(a, x);
      var d := DepthConfigLabel(x);
      assert SchemeValue(a) + " GP" == l[..|l| - |d|] == SchemeValue(b) + " GP";
      assert SchemeValue(a) == (SchemeValue(a) + " GP")[..|SchemeValue(a)|];
      assert SchemeValue(b) == (SchemeValue(b) + " GP")[..|SchemeValue(b)|];
    }
  }

  /** The label loop of exp_self_config_vs_fix_params: one label per scheme, in order. */
  method BuildLabels(schemes: seq<GeneticScheme>, depthConfig: seq<bool>) returns (labels: seq<string>)
    requires |depthConfig| >= |schemes|
    ensures |labels| == |schemes|
    ensures forall i :: 0 <= i < |schemes| ==> labels[i] == SchemeLabel(schemes[i], depthConfig[i])
  {
    labels := [];
    for i := 0 to |schemes|
      invariant |labels| == i
      invariant forall j :: 0 <= j < i ==> labels[j] == SchemeLabel(schemes[j], depthConfig[j])
    {
      var depthLabel := " with fixed max_depth";
      if depthConfig[i] {
        depthLabel := "";
      }
      var text := SchemeValue(schemes[i]) + " GP" + depthLabel;
      assert text == SchemeLabel(schemes[i], depthConfig[i]);
      labels := labels + [text];
    }
  }

  const SelfConfigSchemes: seq<GeneticScheme> := [ParameterFree, ParameterFree, SteadyState, SteadyState]
  const SelfConfigDepthOptions: seq<bool> := [false, true, false, true]

  /** The self-configuration experiment gives its four schemes four distinct labels. */
  lemma SelfConfigLabelsDistinct(i: nat, j: nat)
    requires i < j < |SelfConfigSchemes|
    ensures SchemeLabel(SelfConfigSchemes[i], SelfConfigDepthOptions[i]) != SchemeLabel(SelfConfigSchemes[j], SelfConfigDepthOptions[j])
  {
    var a, x := SelfConfigSchemes[i], SelfConfigDepthOptions[i];
    var b, y := SelfConfigSchemes[j], SelfConfigDepthOptions[j];
    assert a != b || x != y by {
      if (i == 0 && j == 1) || (i == 2 && j == 3) {
        assert !x && y;
      } else {
        assert i <= 1 && j >= 2;
        assert a == ParameterFree && b == SteadyState;
      }
    }
    SchemeLabelInjective(a, x, b, y);
  }

}
