/** pulsar_metrics/metrics/drift.py: drift value metrics and drift significance tests on one
    feature. The routines of scipy and of metrics/utils.py are those of a `DriftLibrary`. */
module Drift {
  import opened Common
  import opened PyValues
  import opened Frames
  import Enums
  import opened LegacyResults
  import Utils
  import MetricsBase

  /** The registries drift.py declares for itself, as `_member_names_` lists them: its value
      registry has no psi. */
  const LocalDriftNames: seq<string> := ["kl", "wasserstein"]
  const LocalTestNames: seq<string> := ["ttest", "manwu", "levene", "bftest", "ks_2samp", "CvM", "chi2"]

  /** The members of drift.py's `DriftMetricsFuncs`. */
  datatype DriftKind = Kl | Wasserstein

  /** The members of drift.py's `DriftTestMetricsFuncs`. */
  datatype TestKind = TTest | ManWu | Levene | BfTest | Ks2Samp | CvM | Chi2

  function DriftKindName(k: DriftKind): string {
    match k
    case Kl => "kl"
    case Wasserstein => "wasserstein"
  }

  function TestKindName(k: TestKind): string {
    match k
    case TTest => "ttest"
    case ManWu => "manwu"
    case Levene => "levene"
    case BfTest => "bftest"
    case Ks2Samp => "ks_2samp"
    case CvM => "CvM"
    case Chi2 => "chi2"
  }

  /** `DriftMetricsFuncs[name]`: the member of that name, if any. */
  function ParseDriftKind(name: string): (k: Option<DriftKind>)
    ensures k.Some? <==> name in LocalDriftNames
    ensures k.Some? ==> DriftKindName(k.value) == name
  {
    match name
    case "kl" => Some(Kl)
    case "wasserstein" => Some(Wasserstein)
    case _ => None
  }

  /** `DriftTestMetricsFuncs[name]` */
  function ParseTestKind(name: string): (k: Option<TestKind>)
    ensures k.Some? <==> name in LocalTestNames
    ensures k.Some? ==> TestKindName(k.value) == name
  {
    match name
    case "ttest" => Some(TTest)
    case "manwu" => Some(ManWu)
    case "levene" => Some(Levene)
    case "bftest" => Some(BfTest)
    case "ks_2samp" => Some(Ks2Samp)
    case "CvM" => Some(CvM)
    case "chi2" => Some(Chi2)
    case _ => None
  }

  /** Every member is found again under its own name. */
  lemma KindNamesRoundTrip(d: DriftKind, t: TestKind)
    ensures ParseDriftKind(DriftKindName(d)) == Some(d)
    ensures ParseTestKind(TestKindName(t)) == Some(t)
  {
  }

  /** `DriftMetricsFuncs[name].value` */
  function DriftFunc(k: DriftKind): Enums.DriftFunction {
    match k
    case Kl => Enums.KlDivergence
    case Wasserstein => Enums.WassersteinDistance
  }

  /** `DriftTestMetricsFuncs[name].value` */
  function TestFunc(k: TestKind): Enums.TestFunction {
    match k
    case TTest => Enums.TTestInd(false)
    case ManWu => Enums.MannWhitneyU
    case Levene => Enums.Levene(Enums.Mean)
    case BfTest => Enums.Levene(Enums.Median)
    case Ks2Samp => Enums.KolmogorovSmirnov2Samp
    case CvM => Enums.CramerVonMises2Samp
    case Chi2 => Enums.ChiSquare
  }

  /** The local registries agree with enums.py, binding each name to the same routine, except
      that psi is missing from the value registry. */
  lemma LocalRegistriesAgainstEnums(name: string)
    ensures name in LocalDriftNames <==> name in Enums.DriftNames && name != "psi"
    ensures name in LocalDriftNames ==> Enums.DriftFunc(name) == Some(DriftFunc(ParseDriftKind(name).value))
    ensures name in LocalTestNames <==> name in Enums.DriftTestNames
    ensures name in LocalTestNames ==> Enums.TestFunc(name) == Some(TestFunc(ParseTestKind(name).value))
  {
  }

  /** What a scipy test returns: a (statistic, pvalue) tuple, or for cramervonmises_2samp a
      result object whose p-value is its `.pvalue` attribute. */
  datatype TestOutput = TupleOutput(components: seq<real>) | ObjectOutput(statistic: real, pvalue: real)

  datatype DriftLibrary = DriftLibrary(
    value: (Enums.DriftFunction, Column, Column, Kwargs) -> Result<real>,
    test: (Enums.TestFunction, Column, Column, Kwargs) -> Result<TestOutput>)

  /** `_check_metrics_name` of DriftMetric. */
  function CheckDriftName(name: string): (r: Outcome)
    ensures r.Pass? <==> name in LocalDriftNames
  {
    if name in LocalDriftNames then Pass
    else Fail(InvalidInput("unknown metric key '" + name + "' given. Should be one of ['kl', 'wasserstein']."))
  }

  /** `_check_metrics_name` of DriftTestMetric. */
  function CheckTestName(name: string): (r: Outcome)
    ensures r.Pass? <==> name in LocalTestNames
  {
    if name in LocalTestNames then Pass
    else Fail(InvalidInput("unknown metric key '" + name
                           + "' given. Should be one of ['ttest', 'manwu', 'levene', 'bftest', 'ks_2samp', 'CvM', 'chi2']."))
  }

  /** `DriftMetric(name, data, feature_name)` as written: its first statement,
      `super().__init__(name, data)`, passes two arguments to the one-argument initialiser of
      metrics/base.py, which raises before the name check is reached. */
  function DriftMetricAsWritten(name: string): Outcome {
    match MetricsBase.AbstractMetricsInit(name, 2)
    case Err(e) => Fail(e)
    case Ok(_) => CheckDriftName(name)
  }

  /** `DriftTestMetric(name, data, feature_name)` as written, with the same first statement. */
  function DriftTestMetricAsWritten(name: string): Outcome {
    match MetricsBase.AbstractMetricsInit(name, 2)
    case Err(e) => Fail(e)
    case Ok(_) => CheckTestName(name)
  }

  /** As written, every construction raises TypeError, even for a registered name such as kl
      or ttest, whose name check passes; `NewDriftMetric` and `NewDriftTestMetric` construct
      with a one-argument base initialiser and succeed for exactly the registered names. */
  lemma ConstructionRaisesAsWritten(name: string)
    ensures DriftMetricAsWritten(name) == Fail(TypeError) && DriftTestMetricAsWritten(name) == Fail(TypeError)
  {
  }

  /** The name check alone would accept every registered name. */
  lemma RegisteredNamesPassCheck(d: DriftKind, t: TestKind)
    ensures CheckDriftName(DriftKindName(d)) == Pass && CheckTestName(TestKindName(t)) == Pass
  {
    KindNamesRoundTrip(d, t);
  }

  /** `_column`: `data[feature_name]`, left unassigned when the lookup raises. */
  function FeatureColumn(data: Frame, feature: string): (c: Option<Column>)
    ensures c.Some? <==> feature in data.columns
  {
    if feature in data.columns then Some(data.columns[feature]) else None
  }

  /** `DriftMetric.evaluate(reference, threshold, **kwargs)`; `None` when an exception was
      swallowed (an unassigned `_column`, a failing routine). */
  function DriftOutcome(kind: DriftKind, feature: string, column: Option<Column>, reference: Column, kwargs: Kwargs, lib: DriftLibrary): Option<LegacyResult> {
    if column.None? then None
    else
      var threshold := Get(kwargs, "threshold", PyNone);
      match lib.value(DriftFunc(kind), column.value, reference, kwargs - {"threshold"})
      case Err(_) => None
      case Ok(value) => Some(LegacyResult(DriftKindName(kind), "drift", feature, value, None, UpperStatus(value, threshold), threshold))
  }

  /** The p-value of a test's output: `.pvalue` for CvM, the second of exactly two tuple
      components (`_, pvalue = ...`) for every other test. */
  function PValue(kind: TestKind, out: TestOutput): (r: Result<real>)
    ensures kind == CvM ==> (r.Ok? <==> out.ObjectOutput?) && (r.Ok? ==> r.value == out.pvalue)
    ensures kind != CvM ==> (r.Ok? <==> out.TupleOutput? && |out.components| == 2)
    ensures kind != CvM && r.Ok? ==> r.value == out.components[1]
  {
    if kind != CvM then
      match out
      case TupleOutput(c) => if |c| == 2 then Ok(c[1]) else Err(ValueError("wrong number of values to unpack"))
      case ObjectOutput(_, _) => Err(TypeError)
    else
      match out
      case ObjectOutput(_, p) => Ok(p)
      case TupleOutput(_) => Err(AttributeError("pvalue"))
  }

  /** `DriftTestMetric.evaluate(reference, alpha=0.05, **kwargs)`: the p-value is the result's
      value, `alpha` its threshold, and the status is `pvalue < alpha` for a numeric alpha. */
  function TestOutcome(kind: TestKind, feature: string, column: Option<Column>, reference: Column, kwargs: Kwargs, lib: DriftLibrary): Option<LegacyResult> {
    if column.None? then None
    else
      var alpha := Get(kwargs, "alpha", PyFloat(0.05));
      match lib.test(TestFunc(kind), column.value, reference, kwargs - {"alpha"})
      case Err(_) => None
      case Ok(out) =>
        match PValue(kind, out)
        case Err(_) => None
        case Ok(pvalue) => Some(LegacyResult(TestKindName(kind), "drift", feature, pvalue, None, UpperStatus(pvalue, alpha), alpha))
  }

  /** A drift value result: type drift, no interval, the threshold echoed, and a status that is
      the threshold policy's upper-bound verdict for a numeric threshold and None otherwise -
      a list threshold is not judged as an interval here. */
  lemma DriftResultMeaning(kind: DriftKind, feature: string, column: Option<Column>, reference: Column, kwargs: Kwargs, lib: DriftLibrary)
    requires DriftOutcome(kind, feature, column, reference, kwargs, lib).Some?
    ensures var r := DriftOutcome(kind, feature, column, reference, kwargs, lib).value;
            var threshold := Get(kwargs, "threshold", PyNone);
            && r.resultType == "drift" && r.metricName == DriftKindName(kind) && r.feature == feature
            && r.confInt == None && r.threshold == threshold
            && (IsNumber(threshold) ==> Utils.CompareToThreshold(PyFloat(r.value), threshold) == Ok(r.status))
            && (!IsNumber(threshold) ==> r.status == None)
  {
  }

  /** A drift value metric succeeds exactly when its column was found and the routine succeeds. */
  lemma DriftSucceedsIff(kind: DriftKind, feature: string, column: Option<Column>, reference: Column, kwargs: Kwargs, lib: DriftLibrary)
    ensures DriftOutcome(kind, feature, column, reference, kwargs, lib).Some?
        <==> column.Some? && lib.value(DriftFunc(kind), column.value, reference, kwargs - {"threshold"}).Ok?
  {
  }

  /** A test result: type drift, the p-value as value, alpha as threshold, and status
      `pvalue < alpha` (the threshold policy's upper-bound verdict) for a numeric alpha. */
  lemma TestResultMeaning(kind: TestKind, feature: string, column: Option<Column>, reference: Column, kwargs: Kwargs, lib: DriftLibrary)
    requires TestOutcome(kind, feature, column, reference, kwargs, lib).Some?
    ensures var r := TestOutcome(kind, feature, column, reference, kwargs, lib).value;
            var alpha := Get(kwargs, "alpha", PyFloat(0.05));
            var out := lib.test(TestFunc(kind), column.value, reference, kwargs - {"alpha"}).value;
            && r.resultType == "drift" && r.metricName == TestKindName(kind) && r.feature == feature && r.confInt == None
            && r.threshold == alpha
            && r.value == (if kind == CvM then out.pvalue else out.components[1])
            && (IsNumber(alpha) ==> Utils.CompareToThreshold(PyFloat(r.value), alpha) == Ok(r.status))
            && (!IsNumber(alpha) ==> r.status == None)
  {
  }

  /** With the default alpha, drift is flagged exactly when the p-value is below 0.05. */
  lemma DefaultAlpha(kind: TestKind, feature: string, column: Option<Column>, reference: Column, kwargs: Kwargs, lib: DriftLibrary)
    requires "alpha" !in kwargs
    requires TestOutcome(kind, feature, column, reference, kwargs, lib).Some?
    ensures var r := TestOutcome(kind, feature, column, reference, kwargs, lib).value;
            r.status == Some(r.value < 0.05) && r.threshold == PyFloat(0.05)
  {
  }

  class DriftMetric {
    const kind: DriftKind               // the member `_name` names
    const featureName: string
    const column: Option<Column>        // `_column`
    var result: Option<LegacyResult>    // `_result`, unassigned until an evaluation succeeds

    /** The part of `DriftMetric(name, data, feature_name)` after the name check. */
    constructor (kind: DriftKind, data: Frame, featureName: string)
      ensures this.kind == kind && this.featureName == featureName
      ensures column == FeatureColumn(data, featureName) && result == None
    {
      this.kind := kind;
      this.featureName := featureName;
      column := FeatureColumn(data, featureName);
      result := None;
    }

    /** `evaluate(reference, **kwargs)`: a success overwrites `_result` and returns it; a
        failure is swallowed, returns None and leaves `_result` as it was. */
    method Evaluate(reference: Column, kwargs: Kwargs, lib: DriftLibrary) returns (r: Option<LegacyResult>)
      modifies this
      ensures r == DriftOutcome(kind, featureName, column, reference, kwargs, lib)
      ensures result == (if r.Some? then r else old(result))
    {
      if column.None? {
        return None;
      }
      var threshold := Get(kwargs, "threshold", PyNone);
      var value := lib.value(DriftFunc(kind), column.value, reference, kwargs - {"threshold"});
      if value.Err? {
        return None;
      }
      var status := if IsNumber(threshold) then Some(value.value < AsReal(threshold)) else None;
      result := Some(LegacyResult(DriftKindName(kind), "drift", featureName, value.value, None, status, threshold));
      r := result;
    }
  }

  /** `DriftMetric(name, data, feature_name)`: an unknown name raises; a missing feature does not. */
  method NewDriftMetric(name: string, data: Frame, featureName: string) returns (r: Result<DriftMetric>)
    ensures r.Err? <==> name !in LocalDriftNames
    ensures r.Ok? <==> ParseDriftKind(name).Some?
    ensures r.Err? ==> r.error == CheckDriftName(name).error
    ensures r.Ok? ==> fresh(r.value) && r.value.kind == ParseDriftKind(name).value && r.value.featureName == featureName
                      && r.value.column == FeatureColumn(data, featureName) && r.value.result == None
  {
    var check := CheckDriftName(name);
    if check.Fail? {
      return Err(check.error);
    }
    var metric := new DriftMetric(ParseDriftKind(name).value, data, featureName);
    r := Ok(metric);
  }

  class DriftTestMetric {
    const kind: TestKind
    const featureName: string
    const column: Option<Column>
    var result: Option<LegacyResult>

    constructor (kind: TestKind, data: Frame, featureName: string)
      ensures this.kind == kind && this.featureName == featureName
      ensures column == FeatureColumn(data, featureName) && result == None
    {
      this.kind := kind;
      this.featureName := featureName;
      column := FeatureColumn(data, featureName);
      result := None;
    }

    /** `evaluate(reference, alpha=0.05, **kwargs)` */
    method Evaluate(reference: Column, kwargs: Kwargs, lib: DriftLibrary) returns (r: Option<LegacyResult>)
      modifies this
      ensures r == TestOutcome(kind, featureName, column, reference, kwargs, lib)
      ensures result == (if r.Some? then r else old(result))
    {
      if column.None? {
        return None;
      }
      var alpha := Get(kwargs, "alpha", PyFloat(0.05));
      var out := lib.test(TestFunc(kind), column.value, reference, kwargs - {"alpha"});
      if out.Err? {
        return None;
      }
      var pvalue := PValue(kind, out.value);
      if pvalue.Err? {
        return None;
      }
      var status := if IsNumber(alpha) then Some(pvalue.value < AsReal(alpha)) else None;
      result := Some(LegacyResult(TestKindName(kind), "drift", featureName, pvalue.value, None, status, alpha));
      r := result;
    }
  }

  /** `DriftTestMetric(name, data, feature_name)` */
  method NewDriftTestMetric(name: string, data: Frame, featureName: string) returns (r: Result<DriftTestMetric>)
    ensures r.Err? <==> name !in LocalTestNames
    ensures r.Ok? <==> ParseTestKind(name).Some?
    ensures r.Err? ==> r.error == CheckTestName(name).error
    ensures r.Ok? ==> fresh(r.value) && r.value.kind == ParseTestKind(name).value && r.value.featureName == featureName
                      && r.value.column == FeatureColumn(data, featureName) && r.value.result == None
  {
    var check := CheckTestName(name);
    if check.Fail? {
      return Err(check.error);
    }
    var metric := new DriftTestMetric(ParseTestKind(name).value, data, featureName);
    r := Ok(metric);
  }
}
