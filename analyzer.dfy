/** pulsar_metrics/analyzers/base.py: an analyzer holds a data set, a list of registered metric
    objects and the results of its last run. Registration and runs swallow per-metric
    exceptions; the only exception `run` raises itself is the one for an empty metric list. */
module Analyzers {
  import opened Common
  import opened PyValues
  import opened Frames
  import opened LegacyResults
  import opened Drift
  import opened Performance
  import Enums

  /** An element of `_metrics_list`. */
  datatype MetricRef =
    | DriftRef(drift: DriftMetric)
    | TestRef(test: DriftTestMetric)
    | PerformanceRef(performance: PerformanceMetric)

  function Obj(m: MetricRef): object {
    match m
    case DriftRef(d) => d
    case TestRef(t) => t
    case PerformanceRef(p) => p
  }

  /** What a registered metric object holds, as a value. */
  datatype MetricState =
    | DriftState(driftKind: DriftKind, feature: string, column: Option<Column>, result: Option<LegacyResult>)
    | TestState(testKind: TestKind, feature: string, column: Option<Column>, result: Option<LegacyResult>)
    | PerformanceState(performanceKind: PerformanceKind, yTrue: Option<Selected>, yPred: Option<Selected>, rows: nat,
                       result: Option<LegacyResult>)

  /** `metric._name` */
  function Name(s: MetricState): string {
    match s
    case DriftState(k, _, _, _) => DriftKindName(k)
    case TestState(k, _, _, _) => TestKindName(k)
    case PerformanceState(k, _, _, _, _) => PerformanceKindName(k)
  }

  function State(m: MetricRef): MetricState
    reads Obj(m)
  {
    match m
    case DriftRef(d) => DriftState(d.kind, d.featureName, d.column, d.result)
    case TestRef(t) => TestState(t.kind, t.featureName, t.column, t.result)
    case PerformanceRef(p) => PerformanceState(p.kind, p.yTrue, p.yPred, p.rows, p.result)
  }

  ghost function StatesOf(ms: seq<MetricRef>): (r: seq<MetricState>)
    reads set i | 0 <= i < |ms| :: Obj(ms[i])
    ensures |r| == |ms| && forall j :: 0 <= j < |ms| ==> r[j] == State(ms[j])
  {
    if ms == [] then [] else StatesOf(ms[..|ms| - 1]) + [State(ms[|ms| - 1])]
  }

  datatype Libraries = Libraries(drift: DriftLibrary, score: ScoreLibrary)

  // ---------------------------------------------------------------------------------------
  // Registration

  /** What `add_performance_metrics(names, **kwargs)` registers: one metric per registered
      name, in order, provided the keywords do not bind `name` or `data` again and the target
      column was found. */
  function PerformanceRegistrations(data: Frame, names: seq<string>, kwargs: Kwargs): seq<MetricState> {
    if names == [] then []
    else
      var earlier := PerformanceRegistrations(data, names[..|names| - 1], kwargs);
      var kind := ParsePerformanceKind(names[|names| - 1]);
      if kind.Some? && !KeywordClash(kwargs) && ColumnFor(data, kwargs, "y_name", "y_true").Some? then
        earlier + [PerformanceState(kind.value, ColumnFor(data, kwargs, "y_name", "y_true"), ColumnFor(data, kwargs, "pred_name", "y_pred"), data.rows, None)]
      else earlier
  }

  lemma PerformanceRegistrationsStep(data: Frame, names: seq<string>, i: nat, kwargs: Kwargs)
    requires i < |names|
    ensures PerformanceRegistrations(data, names[..i + 1], kwargs)
         == PerformanceRegistrations(data, names[..i], kwargs) + PerformanceRegistrations(data, [names[i]], kwargs)
  {
    assert names[..i + 1][..i] == names[..i];
    assert [names[i]][..0] == [];
  }

  /** The loop step of `add_performance_metrics`, with the states registered before it. */
  lemma PerformanceRegistrationsAfter(before: seq<MetricState>, data: Frame, names: seq<string>, i: nat, kwargs: Kwargs)
    requires i < |names|
    ensures before + PerformanceRegistrations(data, names[..i + 1], kwargs)
         == (before + PerformanceRegistrations(data, names[..i], kwargs)) + PerformanceRegistrations(data, [names[i]], kwargs)
  {
    PerformanceRegistrationsStep(data, names, i, kwargs);
  }

  lemma SinglePerformanceRegistration(data: Frame, name: string, kwargs: Kwargs)
    ensures PerformanceRegistrations(data, [name], kwargs)
         == if ParsePerformanceKind(name).Some? && !KeywordClash(kwargs) && ColumnFor(data, kwargs, "y_name", "y_true").Some? then
              [PerformanceState(ParsePerformanceKind(name).value, ColumnFor(data, kwargs, "y_name", "y_true"), ColumnFor(data, kwargs, "pred_name", "y_pred"), data.rows, None)]
            else []
  {
    assert [name][..0] == [];
  }

  lemma FeatureRegistrationsStep(data: Frame, name: string, features: seq<string>, k: nat)
    requires k < |features|
    ensures FeatureRegistrations(data, name, features[..k + 1])
         == FeatureRegistrations(data, name, features[..k]) + FeatureRegistrations(data, name, [features[k]])
  {
  }

  lemma DriftRegistrationsStep(data: Frame, names: seq<string>, features: seq<string>, i: nat)
    requires i < |names|
    ensures DriftRegistrations(data, names[..i + 1], features)
         == DriftRegistrations(data, names[..i], features) + FeatureRegistrations(data, names[i], features)
  {
    assert names[..i + 1][..i] == names[..i];
  }

  /** The loop steps of `add_drift_metrics`, with the states registered before them. */
  lemma FeatureRegistrationsAfter(before: seq<MetricState>, data: Frame, name: string, features: seq<string>, k: nat)
    requires k < |features|
    ensures before + FeatureRegistrations(data, name, features[..k + 1])
         == (before + FeatureRegistrations(data, name, features[..k])) + FeatureRegistrations(data, name, [features[k]])
  {
    FeatureRegistrationsStep(data, name, features, k);
  }

  lemma DriftRegistrationsAfter(before: seq<MetricState>, data: Frame, names: seq<string>, features: seq<string>, i: nat)
    requires i < |names|
    ensures before + DriftRegistrations(data, names[..i + 1], features)
         == (before + DriftRegistrations(data, names[..i], features)) + FeatureRegistrations(data, names[i], features)
  {
    DriftRegistrationsStep(data, names, features, i);
  }

  lemma SingleFeatureRegistration(data: Frame, name: string, feature: string)
    ensures FeatureRegistrations(data, name, [feature])
         == if ParseDriftKind(name).Some? then [DriftState(ParseDriftKind(name).value, feature, FeatureColumn(data, feature), None)]
            else if ParseTestKind(name).Some? then [TestState(ParseTestKind(name).value, feature, FeatureColumn(data, feature), None)]
            else []
  {
  }

  /** With keywords that bind `name` or `data` again, or without a target column, nothing is
      registered; otherwise exactly the registered names are, each one as often as it is
      listed, with the frame's target and prediction columns. */
  lemma {:induction false} PerformanceRegistrationsMeaning(data: Frame, names: seq<string>, kwargs: Kwargs)
    ensures var regs := PerformanceRegistrations(data, names, kwargs);
            && (KeywordClash(kwargs) || ColumnFor(data, kwargs, "y_name", "y_true").None? ==> regs == [])
            && (!KeywordClash(kwargs) && ColumnFor(data, kwargs, "y_name", "y_true").Some? ==> |regs| == |Registered(names, LocalPerformanceNames)|)
            && forall k :: 0 <= k < |regs| ==>
                 && regs[k].PerformanceState? && PerformanceKindName(regs[k].performanceKind) == Registered(names, LocalPerformanceNames)[k]
                 && regs[k] == PerformanceState(regs[k].performanceKind, ColumnFor(data, kwargs, "y_name", "y_true"),
                                                ColumnFor(data, kwargs, "pred_name", "y_pred"), data.rows, None)
  {
    if names != [] {
      PerformanceRegistrationsMeaning(data, names[..|names| - 1], kwargs);
    }
  }

  /** The names of `names` that occur in `registry`, in order. */
  function Registered(names: seq<string>, registry: seq<string>): (r: seq<string>)
    ensures |r| <= |names|
    ensures forall k :: 0 <= k < |r| ==> r[k] in registry && r[k] in names
  {
    if names == [] then []
    else
      var earlier := Registered(names[..|names| - 1], registry);
      var name := names[|names| - 1];
      if name in registry then earlier + [name] else earlier
  }

  /** A name `add_drift_metrics` turns into metrics: one of drift.py's two registries. */
  predicate IsDriftKind(name: string) {
    ParseDriftKind(name).Some? || ParseTestKind(name).Some?
  }

  /** The names of `names` that `add_drift_metrics` turns into metrics, in order. */
  function DriftKinds(names: seq<string>): (r: seq<string>)
    ensures |r| <= |names|
  {
    if names == [] then []
    else
      var earlier := DriftKinds(names[..|names| - 1]);
      if IsDriftKind(names[|names| - 1]) then earlier + [names[|names| - 1]] else earlier
  }

  /** The metrics one drift name contributes for the given features: a distance metric when the
      name is in drift.py's distance registry, else a test when it is in its test registry,
      else none. */
  function FeatureRegistrations(data: Frame, name: string, features: seq<string>): (r: seq<MetricState>)
    ensures |r| == (if IsDriftKind(name) then |features| else 0)
  {
    match (ParseDriftKind(name), ParseTestKind(name))
    case (Some(d), _) =>
      seq(|features|, k requires 0 <= k < |features| => DriftState(d, features[k], FeatureColumn(data, features[k]), None))
    case (None, Some(t)) =>
      seq(|features|, k requires 0 <= k < |features| => TestState(t, features[k], FeatureColumn(data, features[k]), None))
    case (None, None) => []
  }

  /** What `add_drift_metrics(names, features)` registers: metric-major, feature-minor. */
  function DriftRegistrations(data: Frame, names: seq<string>, features: seq<string>): seq<MetricState> {
    if names == [] then []
    else DriftRegistrations(data, names[..|names| - 1], features) + FeatureRegistrations(data, names[|names| - 1], features)
  }

  /** The feature list `add_drift_metrics` uses: the given one, or the numeric columns. */
  function DriftFeatures(data: Frame, features: Option<seq<string>>): seq<string> {
    if features.Some? then features.value else NumericColumns(data)
  }

  /** The metric for the i-th listed name and the k-th feature sits at position
      (drift names listed before i) * |features| + k: metric-major, feature-minor order. A
      name in neither registry (psi among them) contributes nothing. */
  lemma {:induction false} DriftRegistrationPosition(data: Frame, names: seq<string>, features: seq<string>, i: nat, k: nat)
    requires i < |names| && k < |features| && IsDriftKind(names[i])
    ensures var p := |DriftKinds(names[..i])| * |features| + k;
            p < |DriftRegistrations(data, names, features)|
            && DriftRegistrations(data, names, features)[p] == FeatureRegistrations(data, names[i], features)[k]
  {
    var n := |names|;
    var earlier := names[..n - 1];
    var prefix := DriftRegistrations(data, earlier, features);
    var last := FeatureRegistrations(data, names[n - 1], features);
    assert DriftRegistrations(data, names, features) == prefix + last;
    if i < n - 1 {
      assert earlier[..i] == names[..i] && earlier[i] == names[i];
      DriftRegistrationPosition(data, earlier, features, i, k);
    } else {
      assert names[..i] == earlier;
      DriftRegistrationsCount(data, earlier, features);
      assert |last| == |features|;
    }
  }

  /** Each drift name contributes one metric per feature. */
  lemma {:induction false} DriftRegistrationsCount(data: Frame, names: seq<string>, features: seq<string>)
    ensures |DriftRegistrations(data, names, features)| == |DriftKinds(names)| * |features|
  {
    if names != [] {
      var earlier := names[..|names| - 1];
      DriftRegistrationsCount(data, earlier, features);
      var last := names[|names| - 1];
      assert |DriftRegistrations(data, names, features)|
          == |DriftRegistrations(data, earlier, features)| + |FeatureRegistrations(data, last, features)|;
      if IsDriftKind(last) {
        assert DriftKinds(names) == DriftKinds(earlier) + [last];
        assert (|DriftKinds(earlier)| + 1) * |features| == |DriftKinds(earlier)| * |features| + |features|;
      } else {
        assert DriftKinds(names) == DriftKinds(earlier);
      }
    }
  }

  /** psi is in the enumeration of drift names but not in the registry drift.py consults, so
      asking for it registers nothing. */
  lemma PsiIsNeverRegistered(data: Frame, features: seq<string>)
    ensures "psi" in Enums.DriftNames && !IsDriftKind("psi")
    ensures FeatureRegistrations(data, "psi", features) == []
  {
    LocalRegistriesAgainstEnums("psi");
  }

  // ---------------------------------------------------------------------------------------
  // Running

  /** `options.get(metric._name, {})` */
  function OptionsFor(options: map<string, Kwargs>, name: string): Kwargs {
    if name in options then options[name] else map[]
  }

  /** One iteration of `run`'s loop up to the append: the metric after its `evaluate`, or the
      exception that escapes the call itself (a feature missing from the reference data, or a
      `reference` option clashing with the keyword argument). */
  function Evaluated(s: MetricState, dataRef: Frame, options: map<string, Kwargs>, libs: Libraries): Result<MetricState> {
    var kwargs := OptionsFor(options, Name(s));
    match s
    case DriftState(name, feature, column, result) =>
      (match GetColumn(dataRef, feature)
       case Err(e) => Err(e)
       case Ok(reference) =>
         if "reference" in kwargs then Err(TypeError)
         else
           var out := DriftOutcome(name, feature, column, reference, kwargs, libs.drift);
           Ok(DriftState(name, feature, column, if out.Some? then out else result)))
    case TestState(name, feature, column, result) =>
      (match GetColumn(dataRef, feature)
       case Err(e) => Err(e)
       case Ok(reference) =>
         if "reference" in kwargs then Err(TypeError)
         else
           var out := TestOutcome(name, feature, column, reference, kwargs, libs.drift);
           Ok(TestState(name, feature, column, if out.Some? then out else result)))
    case PerformanceState(name, yTrue, yPred, rows, result) =>
      var out := PerformanceOutcome(name, yTrue, yPred, rows, kwargs, libs.score);
      Ok(PerformanceState(name, yTrue, yPred, rows, if out.Some? then out else result))
  }

  /** What each metric's iteration produces, in order. */
  function Outcomes(states: seq<MetricState>, dataRef: Frame, options: map<string, Kwargs>, libs: Libraries): (r: seq<Result<MetricState>>)
    ensures |r| == |states|
  {
    seq(|states|, j requires 0 <= j < |states| => Evaluated(states[j], dataRef, options, libs))
  }

  /** Whether an iteration raises: at the call, or when appending an unassigned `_result`. */
  predicate Raises(o: Result<MetricState>) {
    o.Err? || o.value.result.None?
  }

  datatype RunTrace = RunTrace(results: seq<LegacyResult>, stopped: bool)

  /** The first k iterations of `run`'s loop: the results appended so far, and whether an
      exception has ended the loop. */
  function Trace(outcomes: seq<Result<MetricState>>, k: nat): RunTrace
    requires k <= |outcomes|
  {
    if k == 0 then RunTrace([], false)
    else
      var earlier := Trace(outcomes, k - 1);
      if earlier.stopped then earlier
      else if Raises(outcomes[k - 1]) then RunTrace(earlier.results, true)
      else RunTrace(earlier.results + [outcomes[k - 1].value.result.value], false)
  }

  /** Metric j after a run: evaluated when the loop reached it, as it was otherwise. */
  function After(states: seq<MetricState>, outcomes: seq<Result<MetricState>>, j: nat): MetricState
    requires |outcomes| == |states| && j < |states|
  {
    if Trace(outcomes, j).stopped || outcomes[j].Err? then states[j] else outcomes[j].value
  }

  /** All metrics after the first k iterations. */
  function Evolved(states: seq<MetricState>, outcomes: seq<Result<MetricState>>, k: nat): (r: seq<MetricState>)
    requires |outcomes| == |states| && k <= |states|
    ensures |r| == |states|
  {
    seq(|states|, j requires 0 <= j < |states| => if j < k then After(states, outcomes, j) else states[j])
  }

  /** Once the loop has stopped it stays stopped with the same results, and it leaves the
      remaining metrics untouched. */
  lemma {:induction false} StoppedStaysStopped(states: seq<MetricState>, outcomes: seq<Result<MetricState>>, i: nat, k: nat)
    requires |outcomes| == |states| && i <= k <= |states|
    requires Trace(outcomes, i).stopped
    ensures Trace(outcomes, k) == Trace(outcomes, i)
  {
    if k > i {
      StoppedStaysStopped(states, outcomes, i, k - 1);
    }
  }

  lemma StoppedLeavesRest(states: seq<MetricState>, outcomes: seq<Result<MetricState>>, i: nat)
    requires |outcomes| == |states| && i <= |states|
    requires Trace(outcomes, i).stopped
    ensures forall j :: i <= j < |states| ==> After(states, outcomes, j) == states[j]
  {
    forall j | i <= j < |states|
      ensures After(states, outcomes, j) == states[j]
    {
      StoppedStaysStopped(states, outcomes, i, j);
    }
  }

  /** One more iteration changes only metric i: into its evaluated state, or not at all when
      the call itself raised. */
  lemma EvolvedStep(states: seq<MetricState>, outcomes: seq<Result<MetricState>>, i: nat,
                    before: seq<MetricState>, after: seq<MetricState>)
    requires |outcomes| == |states| && i < |states| && !Trace(outcomes, i).stopped
    requires before == Evolved(states, outcomes, i) && |after| == |before|
    requires forall j :: 0 <= j < |before| && j != i ==> after[j] == before[j]
    requires after[i] == if outcomes[i].Err? then states[i] else outcomes[i].value
    ensures after == Evolved(states, outcomes, i + 1)
  {
  }

  /** Before the first iteration every metric is as it was. */
  lemma EvolvedNone(states: seq<MetricState>, outcomes: seq<Result<MetricState>>)
    requires |outcomes| == |states|
    ensures Evolved(states, outcomes, 0) == states
  {
  }

  /** Once the loop has stopped, the remaining iterations append nothing and change no metric. */
  lemma EvolvedAfterStop(states: seq<MetricState>, outcomes: seq<Result<MetricState>>, i: nat)
    requires |outcomes| == |states| && i <= |states| && Trace(outcomes, i).stopped
    ensures Trace(outcomes, |states|) == Trace(outcomes, i)
    ensures Evolved(states, outcomes, i) == Evolved(states, outcomes, |states|)
  {
    StoppedStaysStopped(states, outcomes, i, |states|);
    StoppedLeavesRest(states, outcomes, i);
  }

  /** The results of a run are in metric order, and result p is the `_result` metric p holds
      after its evaluation (its previous one when this evaluation was swallowed). A run that
      is not stopped has one result per metric. */
  lemma {:induction false} RunReportsInOrder(states: seq<MetricState>, outcomes: seq<Result<MetricState>>, k: nat)
    requires |outcomes| == |states| && k <= |states|
    ensures var t := Trace(outcomes, k);
            && |t.results| <= k
            && (!t.stopped ==> |t.results| == k)
            && forall p :: 0 <= p < |t.results| ==> After(states, outcomes, p).result == Some(t.results[p])
  {
    if k > 0 {
      RunReportsInOrder(states, outcomes, k - 1);
      var earlier := Trace(outcomes, k - 1);
      if !earlier.stopped && !Raises(outcomes[k - 1]) {
        var t := Trace(outcomes, k);
        forall p | 0 <= p < |t.results|
          ensures After(states, outcomes, p).result == Some(t.results[p])
        {
          if p < k - 1 {
            assert t.results[p] == earlier.results[p];
          }
        }
      }
    }
  }

  /** A run completes exactly when no iteration raises. */
  lemma {:induction false} RunCompletesIff(outcomes: seq<Result<MetricState>>, k: nat)
    requires k <= |outcomes|
    ensures !Trace(outcomes, k).stopped <==> forall j :: 0 <= j < k ==> !Raises(outcomes[j])
  {
    if k > 0 {
      RunCompletesIff(outcomes, k - 1);
    }
  }

  /** A drift metric whose feature is missing from the reference data ends the run before its
      own result is appended. */
  lemma MissingReferenceFeatureStops(states: seq<MetricState>, dataRef: Frame, options: map<string, Kwargs>, libs: Libraries, j: nat)
    requires j < |states| && !states[j].PerformanceState?
    requires states[j].feature !in dataRef.columns
    ensures var outcomes := Outcomes(states, dataRef, options, libs);
            Trace(outcomes, |states|).stopped && |Trace(outcomes, |states|).results| <= j
  {
    var outcomes := Outcomes(states, dataRef, options, libs);
    MissingReferenceFeatureRaises(states[j], dataRef, options, libs);
    assert outcomes[j] == Evaluated(states[j], dataRef, options, libs);
    if !Trace(outcomes, j).stopped {
      StoppedStaysStopped(states, outcomes, j + 1, |states|);
    } else {
      StoppedStaysStopped(states, outcomes, j, |states|);
    }
    RunReportsInOrder(states, outcomes, j);
  }

  /** Looking up a feature the reference data lacks raises KeyError at the call. */
  lemma MissingReferenceFeatureRaises(s: MetricState, dataRef: Frame, options: map<string, Kwargs>, libs: Libraries)
    requires !s.PerformanceState? && s.feature !in dataRef.columns
    ensures Evaluated(s, dataRef, options, libs).Err?
  {
  }

  /** An iteration that raises leaves its metric as it was: the call never happened, or
      evaluate swallowed its exception while `_result` was still unassigned. */
  lemma RaisingLeavesMetric(s: MetricState, dataRef: Frame, options: map<string, Kwargs>, libs: Libraries)
    requires var e := Evaluated(s, dataRef, options, libs); e.Ok? && e.value.result.None?
    ensures Evaluated(s, dataRef, options, libs) == Ok(s)
  {
  }

  /** An evaluation that is swallowed does not clear an earlier result: whenever the metric's
      own `evaluate` catches an exception and returns None while the call itself raises
      nothing, the run reports the metric's previous result again. */
  lemma StaleResultReported(s: MetricState, dataRef: Frame, options: map<string, Kwargs>, libs: Libraries)
    requires s.result.Some?
    requires match s
             case DriftState(k, feature, column, _) =>
               && feature in dataRef.columns && "reference" !in OptionsFor(options, Name(s))
               && DriftOutcome(k, feature, column, dataRef.columns[feature], OptionsFor(options, Name(s)), libs.drift).None?
             case TestState(k, feature, column, _) =>
               && feature in dataRef.columns && "reference" !in OptionsFor(options, Name(s))
               && TestOutcome(k, feature, column, dataRef.columns[feature], OptionsFor(options, Name(s)), libs.drift).None?
             case PerformanceState(k, yTrue, yPred, rows, _) =>
               PerformanceOutcome(k, yTrue, yPred, rows, OptionsFor(options, Name(s)), libs.score).None?
    ensures Evaluated(s, dataRef, options, libs) == Ok(s)
    ensures !Raises(Evaluated(s, dataRef, options, libs))
  {
  }

  const EMPTY_ANALYZER_MSG := "The list of metrics for the analyzer is empty."

  /** `results_to_json()`: `{}` before any run, else one JSON text per result. */
  datatype Json = EmptyDict | JsonList(items: seq<string>)

  /** `results_to_pandas()`: None before any run, else one row per result. */
  datatype Table = Table(rows: seq<LegacyResult>)

  /** The metadata `AbstractAnalyzer.__init__` reads inside its guarded block; when it fails,
      `_metrics_list` and `_results` are never assigned. */
  predicate MetadataPresent(data: Frame) {
    "pred_timestamp" in data.columns && "model_id" in data.columns && "model_version" in data.columns && data.rows > 0
  }

  class Analyzer {
    const name: string
    const data: Frame
    const description: Option<string>
    const initialized: bool                    // whether `_metrics_list` and `_results` exist
    var metrics: seq<MetricRef>                // `_metrics_list`
    var results: Option<seq<LegacyResult>>     // `_results`

    ghost var position: map<object, nat>       // where each registered object sits in `metrics`

    /** No metric object is registered twice. */
    ghost predicate Valid()
      reads this
    {
      && (!initialized ==> metrics == [] && results == None)
      && this !in position
      && forall i :: 0 <= i < |metrics| ==> Obj(metrics[i]) in position && position[Obj(metrics[i])] == i
    }

    ghost function Objects(): set<object>
      reads this`metrics
    {
      set i | 0 <= i < |metrics| :: Obj(metrics[i])
    }

    ghost function States(): (r: seq<MetricState>)
      reads this`metrics, Objects()
      ensures |r| == |metrics|
    {
      StatesOf(metrics)
    }

    /** `Analyzer(name, data, description)` */
    constructor (name: string, data: Frame, description: Option<string>)
      ensures Valid()
      ensures this.name == name && this.data == data && this.description == description
      ensures initialized == MetadataPresent(data) && metrics == [] && results == None
    {
      this.name := name;
      this.data := data;
      this.description := description;
      initialized := MetadataPresent(data);
      metrics := [];
      results := None;
      position := map[];
    }

    /** `add_performance_metrics(metrics_list, **kwargs)`: appends a metric for each registered
        name when the keywords leave `name` and `data` alone and the target column exists;
        every failure is swallowed. */
    method AddPerformanceMetrics(names: seq<string>, kwargs: Kwargs)
      requires Valid()
      modifies this
      ensures Valid() && results == old(results)
      ensures States() == old(States()) + (if initialized then PerformanceRegistrations(data, names, kwargs) else [])
    {
      if !initialized {
        return;
      }
      ghost var states0 := States();
      var i := 0;
      while i < |names|
        invariant 0 <= i <= |names|
        invariant Valid() && results == old(results)
        invariant States() == states0 + PerformanceRegistrations(data, names[..i], kwargs)
      {
        AddPerformanceMetric(names[i], kwargs);
        PerformanceRegistrationsAfter(states0, data, names, i, kwargs);
        i := i + 1;
      }
      assert names[..i] == names;
    }

    /** One iteration of `add_performance_metrics`. */
    method AddPerformanceMetric(name: string, kwargs: Kwargs)
      requires Valid() && initialized
      modifies this
      ensures Valid() && results == old(results)
      ensures States() == old(States()) + PerformanceRegistrations(data, [name], kwargs)
    {
      SinglePerformanceRegistration(data, name, kwargs);
      if ParsePerformanceKind(name).Some? && !KeywordClash(kwargs) {
        var metric := NewPerformanceMetric(name, data, kwargs);
        AppendIfTargeted(metric.value);
      }
    }

    /** The `hasattr(metric, "_y_true")` test: a performance metric is appended exactly when
        its target column was found. */
    method AppendIfTargeted(metric: PerformanceMetric)
      requires Valid() && initialized && Obj(PerformanceRef(metric)) != this && Obj(PerformanceRef(metric)) !in Objects()
      modifies this
      ensures Valid() && results == old(results)
      ensures States() == old(States()) + (if metric.yTrue.Some? then [PerformanceState(metric.kind, metric.yTrue, metric.yPred, metric.rows, metric.result)] else [])
    {
      if metric.yTrue.Some? {
        Append(PerformanceRef(metric));
      } else {
        assert old(States()) + [] == old(States());
      }
    }

    /** `add_drift_metrics(metrics_list, features_list=None)`: for each name and each feature,
        a distance metric or a test, or nothing for a name in neither of drift.py's registries. */
    method AddDriftMetrics(names: seq<string>, features: Option<seq<string>>)
      requires Valid()
      modifies this
      ensures Valid() && results == old(results)
      ensures States() == old(States()) + (if initialized then DriftRegistrations(data, names, DriftFeatures(data, features)) else [])
    {
      if !initialized {
        return;
      }
      var featureList := DriftFeatures(data, features);
      ghost var states0 := States();
      var i := 0;
      while i < |names|
        invariant 0 <= i <= |names|
        invariant Valid() && results == old(results)
        invariant States() == states0 + DriftRegistrations(data, names[..i], featureList)
      {
        AddDriftMetricForFeatures(names[i], featureList);
        DriftRegistrationsAfter(states0, data, names, featureList, i);
        i := i + 1;
      }
      assert names[..i] == names;
    }

    /** One iteration of `add_drift_metrics`' outer loop: the inner loop over the features. */
    method AddDriftMetricForFeatures(name: string, features: seq<string>)
      requires Valid() && initialized
      modifies this
      ensures Valid() && results == old(results)
      ensures States() == old(States()) + FeatureRegistrations(data, name, features)
    {
      ghost var before := States();
      var k := 0;
      while k < |features|
        invariant 0 <= k <= |features|
        invariant Valid() && results == old(results)
        invariant States() == before + FeatureRegistrations(data, name, features[..k])
      {
        AddDriftMetric(name, features[k]);
        FeatureRegistrationsAfter(before, data, name, features, k);
        k := k + 1;
      }
      assert features[..k] == features;
    }

    /** One iteration of `add_drift_metrics`' inner loop. */
    method AddDriftMetric(name: string, feature: string)
      requires Valid() && initialized
      modifies this
      ensures Valid() && results == old(results)
      ensures States() == old(States()) + FeatureRegistrations(data, name, [feature])
    {
      SingleFeatureRegistration(data, name, feature);
      if ParseDriftKind(name).Some? {
        var metric := NewDriftMetric(name, data, feature);
        Append(DriftRef(metric.value));
        assert State(DriftRef(metric.value)) == DriftState(ParseDriftKind(name).value, feature, FeatureColumn(data, feature), None);
      } else if ParseTestKind(name).Some? {
        var metric := NewDriftTestMetric(name, data, feature);
        Append(TestRef(metric.value));
        assert State(TestRef(metric.value)) == TestState(ParseTestKind(name).value, feature, FeatureColumn(data, feature), None);
      }
    }

    /** `self._metrics_list.append(metric)` for a newly created metric. */
    method Append(m: MetricRef)
      requires Valid() && initialized && Obj(m) != this && Obj(m) !in Objects()
      modifies this
      ensures Valid() && results == old(results)
      ensures metrics == old(metrics) + [m]
      ensures States() == old(States()) + [State(m)]
    {
      position := position[Obj(m) := |metrics|];
      metrics := metrics + [m];
      assert metrics[..|metrics| - 1] == old(metrics);
    }

    /** `run(data_ref, options)`: raises when no metric is registered; otherwise starts a fresh
        result list and evaluates the metrics in order, appending each one's `_result`, until
        the end or the first exception, which is swallowed. */
    method Run(dataRef: Frame, options: map<string, Kwargs>, libs: Libraries) returns (r: Outcome)
      requires Valid()
      modifies this, Objects()
      ensures Valid() && metrics == old(metrics)
      ensures !initialized ==> r == Fail(AttributeError("_metrics_list"))
      ensures initialized && metrics == [] ==> r == Fail(ValueError(EMPTY_ANALYZER_MSG))
      ensures r.Fail? ==> results == old(results) && States() == old(States())
      ensures initialized && metrics != [] ==>
                var outcomes := Outcomes(old(States()), dataRef, options, libs);
                && r == Pass
                && results == Some(Trace(outcomes, |metrics|).results)
                && States() == Evolved(old(States()), outcomes, |metrics|)
    {
      if !initialized {
        return Fail(AttributeError("_metrics_list"));
      }
      if |metrics| == 0 {
        return Fail(ValueError(EMPTY_ANALYZER_MSG));
      }
      ghost var states0 := States();
      ResetResults();
      EvaluateAll(dataRef, options, libs, states0, Outcomes(states0, dataRef, options, libs));
      r := Pass;
    }

    /** `self._results = []` */
    method ResetResults()
      requires Valid() && initialized
      modifies this`results
      ensures Valid() && results == Some([]) && States() == old(States())
    {
      results := Some([]);
    }

    /** `run`'s loop over `_metrics_list`. */
    method EvaluateAll(dataRef: Frame, options: map<string, Kwargs>, libs: Libraries,
                       ghost states0: seq<MetricState>, ghost outcomes: seq<Result<MetricState>>)
      requires Valid() && states0 == States() && results == Some([])
      requires outcomes == Outcomes(states0, dataRef, options, libs)
      modifies this, Objects()
      ensures Valid() && metrics == old(metrics)
      ensures results == Some(Trace(outcomes, |metrics|).results)
      ensures States() == Evolved(states0, outcomes, |metrics|)
    {
      EvolvedNone(states0, outcomes);
      var i := 0;
      while i < |metrics|
        invariant 0 <= i <= |metrics| && metrics == old(metrics)
        invariant |states0| == |metrics| && |outcomes| == |metrics|
        invariant Valid()
        invariant !Trace(outcomes, i).stopped
        invariant results == Some(Trace(outcomes, i).results)
        invariant States() == Evolved(states0, outcomes, i)
      {
        var stepped := Iterate(i, dataRef, options, libs, states0, outcomes);
        if !stepped {
          return;
        }
        i := i + 1;
      }
    }

    /** Iteration i of `run`'s loop; when it raises, the state the whole loop ends in. */
    method Iterate(i: nat, dataRef: Frame, options: map<string, Kwargs>, libs: Libraries,
                   ghost states0: seq<MetricState>, ghost outcomes: seq<Result<MetricState>>) returns (ok: bool)
      requires Valid() && i < |metrics| && |states0| == |metrics| && |outcomes| == |metrics|
      requires outcomes == Outcomes(states0, dataRef, options, libs)
      requires !Trace(outcomes, i).stopped
      requires results == Some(Trace(outcomes, i).results)
      requires States() == Evolved(states0, outcomes, i)
      modifies this, Obj(metrics[i])
      ensures Valid() && metrics == old(metrics)
      ensures ok ==> !Trace(outcomes, i + 1).stopped
      ensures ok ==> results == Some(Trace(outcomes, i + 1).results)
      ensures ok ==> States() == Evolved(states0, outcomes, i + 1)
      ensures !ok ==> results == Some(Trace(outcomes, |metrics|).results)
      ensures !ok ==> States() == Evolved(states0, outcomes, |metrics|)
    {
      ok := Step(i, dataRef, options, libs, states0, outcomes);
      if !ok {
        EvolvedAfterStop(states0, outcomes, i + 1);
      }
    }

    /** Iteration i of `run`'s loop; false when it raised. */
    method Step(i: nat, dataRef: Frame, options: map<string, Kwargs>, libs: Libraries,
                ghost states0: seq<MetricState>, ghost outcomes: seq<Result<MetricState>>) returns (ok: bool)
      requires Valid() && i < |metrics| && |states0| == |metrics| && |outcomes| == |metrics|
      requires outcomes == Outcomes(states0, dataRef, options, libs)
      requires !Trace(outcomes, i).stopped
      requires results == Some(Trace(outcomes, i).results)
      requires States() == Evolved(states0, outcomes, i)
      modifies this, Obj(metrics[i])
      ensures Valid() && metrics == old(metrics)
      ensures ok == !Trace(outcomes, i + 1).stopped
      ensures results == Some(Trace(outcomes, i + 1).results)
      ensures States() == Evolved(states0, outcomes, i + 1)
    {
      var m := metrics[i];
      ghost var before := States();
      assert State(m) == states0[i];
      var stored := Evaluate(m, dataRef, options, libs);
      forall j | 0 <= j < |metrics| && j != i
        ensures States()[j] == before[j]
      {
        assert position[Obj(metrics[j])] != position[Obj(m)];
      }
      EvolvedStep(states0, outcomes, i, before, States());
      if stored.None? {
        return false;
      }
      results := Some(results.value + [stored.value]);
      ok := true;
    }

    /** `get_result()` */
    function GetResult(): (r: Result<Option<seq<LegacyResult>>>)
      reads this
      ensures r.Err? <==> !initialized
      ensures r.Ok? ==> r.value == results
    {
      if initialized then Ok(results) else Err(AttributeError("_results"))
    }

    /** `results_to_json()`, each result rendered by `encode` (pydantic's `.json()`). */
    function ResultsToJson(encode: LegacyResult -> string): (r: Result<Json>)
      reads this
      ensures r.Err? <==> !initialized
      ensures r.Ok? ==> (r.value.EmptyDict? <==> results.None?)
    {
      if !initialized then Err(AttributeError("_results"))
      else if results.None? then Ok(EmptyDict)
      else
        var rs := results.value;
        Ok(JsonList(seq(|rs|, k requires 0 <= k < |rs| => encode(rs[k]))))
    }

    /** `results_to_pandas()` */
    function ResultsToPandas(): (r: Result<Option<Table>>)
      reads this
      ensures r.Err? <==> !initialized
      ensures r.Ok? ==> (r.value.None? <==> results.None?)
    {
      if !initialized then Err(AttributeError("_results"))
      else if results.None? then Ok(None)
      else Ok(Some(Table(results.value)))
    }
  }

  /** The call of iteration i: `metric.evaluate(reference=data_ref[feature], **kwargs)` or
      `metric.evaluate(**kwargs)`; None when the call raised or `_result` is unassigned. */
  method Evaluate(m: MetricRef, dataRef: Frame, options: map<string, Kwargs>, libs: Libraries) returns (stored: Option<LegacyResult>)
    modifies Obj(m)
    ensures var e := Evaluated(old(State(m)), dataRef, options, libs);
            && (e.Err? ==> State(m) == old(State(m)) && stored == None)
            && (e.Ok? ==> State(m) == e.value && stored == e.value.result)
  {
    var kwargs := OptionsFor(options, Name(State(m)));
    match m {
      case DriftRef(d) =>
        var reference := GetColumn(dataRef, d.featureName);
        if reference.Err? || "reference" in kwargs {
          return None;
        }
        var _ := d.Evaluate(reference.value, kwargs, libs.drift);
        stored := d.result;
      case TestRef(t) =>
        var reference := GetColumn(dataRef, t.featureName);
        if reference.Err? || "reference" in kwargs {
          return None;
        }
        var _ := t.Evaluate(reference.value, kwargs, libs.drift);
        stored := t.result;
      case PerformanceRef(p) =>
        var _ := p.Evaluate(kwargs, libs.score);
        stored := p.result;
    }
  }

  /** The JSON list and the table describe the same results, one entry per result, in order. */
  lemma ExportsAgree(a: Analyzer, encode: LegacyResult -> string)
    requires a.initialized && a.results.Some?
    ensures a.ResultsToJson(encode).Ok? && a.ResultsToPandas().Ok?
    ensures var items := a.ResultsToJson(encode).value.items;
            var rows := a.ResultsToPandas().value.value.rows;
            && |items| == |rows| == |a.results.value|
            && forall k :: 0 <= k < |rows| ==> items[k] == encode(rows[k]) && rows[k] == a.results.value[k]
  {
  }
}
