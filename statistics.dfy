/** pulsar_metrics/metrics/statistics.py: FeatureSummary, which appends summary-statistic
    records for one feature to a list it keeps on the object. The statistics themselves
    (numpy/scipy/pandas) are the routines of a `StatsLibrary`, any of which may fail. */
module Statistics {
  import opened Common
  import opened PyValues
  import opened Frames
  import opened MetricsBase

  /** The keys of `_numeric_dict`, in order. */
  const NumericStatNames: seq<string> := ["mean", "median", "std", "skewness", "kurtosis"]

  /** The default `percentiles` argument of `evaluate`. */
  const DefaultPercentiles: seq<real> := [0.25, 0.95]

  datatype StatsLibrary = StatsLibrary(
    numeric: (string, Column) -> Result<real>,  // the `_numeric_dict` routine of that name
    quantile: (Column, real) -> Result<real>,   // Series.quantile
    top: Column -> Result<PyValue>,             // value_counts().index[0]
    percentileName: real -> string)                   // the percentile's metric name

  /** One unit of work of `evaluate`, in the order the source performs them. */
  datatype Step = NumericStat(name: string) | Percentile(p: real) | Top | Count

  /** The work `evaluate` does on a present feature. */
  function Plan(numeric: bool, percentiles: seq<real>): (plan: seq<Step>)
    ensures numeric ==> |plan| == |NumericStatNames| + |percentiles| + 1
    ensures !numeric ==> plan == [Top, Count]
    ensures |plan| > 0 && plan[|plan| - 1] == Count
    ensures numeric ==> forall i :: 0 <= i < |NumericStatNames| ==> plan[i] == NumericStat(NumericStatNames[i])
    ensures numeric ==> forall j :: 0 <= j < |percentiles| ==> plan[|NumericStatNames| + j] == Percentile(percentiles[j])
  {
    if numeric then
      seq(|NumericStatNames|, i requires 0 <= i < |NumericStatNames| => NumericStat(NumericStatNames[i]))
      + seq(|percentiles|, j requires 0 <= j < |percentiles| => Percentile(percentiles[j]))
      + [Count]
    else [Top, Count]
  }

  /** Everything a step reads. */
  datatype Context = Context(feature: string, current: Column, reference: Option<Frame>, lib: StatsLibrary)

  /** `stat(reference[feature]) if reference is not None else None` */
  function Baseline(ctx: Context, stat: Column -> Result<real>): Result<PyValue> {
    match ctx.reference
    case None => Ok(PyNone)
    case Some(ref) =>
      match GetColumn(ref, ctx.feature)
      case Err(e) => Err(e)
      case Ok(col) =>
        match stat(col)
        case Err(e) => Err(e)
        case Ok(v) => Ok(PyFloat(v))
  }

  /** The most frequent category of the feature in the reference, or None without one. */
  function TopBaseline(ctx: Context): Result<PyValue> {
    match ctx.reference
    case None => Ok(PyNone)
    case Some(ref) =>
      match GetColumn(ref, ctx.feature)
      case Err(e) => Err(e)
      case Ok(col) => ctx.lib.top(col)
  }

  /** The record a statistic contributes: its baseline is computed before its value. */
  function StatRecord(ctx: Context, name: string, stat: Column -> Result<real>): Result<Option<MetricResults>> {
    match Baseline(ctx, stat)
    case Err(e) => Err(e)
    case Ok(threshold) =>
      match stat(ctx.current)
      case Err(e) => Err(e)
      case Ok(v) =>
        match NewMetricResults(metricType := "statistics", metricName := name, featureName := Some(ctx.feature),
                               metricValue := PyFloat(v), threshold := threshold)
        case Err(e) => Err(e)
        case Ok(rec) => Ok(Some(rec))
  }

  /** The `count` record: the non-null count of the current column, with no baseline. */
  function CountRecord(ctx: Context): MetricResults {
    MetricResults("statistics", "count", Some(ctx.feature), PyInt(NonNullCount(ctx.current.values)), None, PyNone, None)
  }

  /** What one step appends (`Some`), computes without appending (`None`), or raises. */
  function StepOutcome(ctx: Context, step: Step): Result<Option<MetricResults>> {
    match step
    case NumericStat(name) => StatRecord(ctx, name, c => ctx.lib.numeric(name, c))
    case Percentile(p) => StatRecord(ctx, ctx.lib.percentileName(p), c => ctx.lib.quantile(c, p))
    case Top =>
      // The most frequent category and its baseline are computed and the record is built, so
      // its validation can raise, but the record is never appended.
      (match ctx.lib.top(ctx.current)
       case Err(e) => Err(e)
       case Ok(top) =>
         match TopBaseline(ctx)
         case Err(e) => Err(e)
         case Ok(threshold) =>
           match NewMetricResults(metricType := "statistics", metricName := "top", featureName := Some(ctx.feature),
                                  metricValue := top, threshold := threshold)
           case Err(e) => Err(e)
           case Ok(_) => Ok(None))
    case Count => Ok(Some(CountRecord(ctx)))
  }

  /** The records appended by a run of steps, and the exception that stopped it, if any:
      records appended before an exception stay. */
  datatype Trace = Trace(emitted: seq<MetricResults>, failure: Option<Error>)

  function Run(ctx: Context, steps: seq<Step>): Trace {
    if steps == [] then Trace([], None)
    else
      var t := Run(ctx, steps[..|steps| - 1]);
      if t.failure.Some? then t
      else
        match StepOutcome(ctx, steps[|steps| - 1])
        case Err(e) => Trace(t.emitted, Some(e))
        case Ok(None) => t
        case Ok(Some(rec)) => Trace(t.emitted + [rec], None)
  }

  /** What one call of `evaluate` appends to `_result`. A feature missing from `current` makes
      `current[feature]` raise, which `evaluate` swallows. */
  function SummaryTrace(feature: string, current: Frame, reference: Option<Frame>, percentiles: seq<real>, lib: StatsLibrary): Trace {
    if feature !in current.columns then Trace([], Some(KeyError(feature)))
    else
      var column := current.columns[feature];
      Run(Context(feature, column, reference, lib), Plan(column.numeric, percentiles))
  }

  // ---------------------------------------------------------------------------------------
  // Facts about traces

  /** Once a run has stopped, later steps change nothing. */
  lemma {:induction false} RunStopped(ctx: Context, steps: seq<Step>, k: nat)
    requires k <= |steps|
    requires Run(ctx, steps[..k]).failure.Some?
    ensures Run(ctx, steps) == Run(ctx, steps[..k])
    decreases |steps| - k
  {
    if k < |steps| {
      assert steps[..|steps| - 1][..k] == steps[..k];
      RunStopped(ctx, steps[..|steps| - 1], k);
    } else {
      assert steps[..k] == steps;
    }
  }

  /** Running one more step. */
  lemma RunExtend(ctx: Context, steps: seq<Step>, k: nat)
    requires k < |steps|
    ensures Run(ctx, steps[..k + 1]) ==
      (var t := Run(ctx, steps[..k]);
       if t.failure.Some? then t
       else match StepOutcome(ctx, steps[k])
            case Err(e) => Trace(t.emitted, Some(e))
            case Ok(None) => t
            case Ok(Some(rec)) => Trace(t.emitted + [rec], None))
  {
    assert steps[..k + 1][..k] == steps[..k];
  }

  /** A step that raises ends the run with what was appended before it. */
  lemma StopsAt(ctx: Context, steps: seq<Step>, k: nat)
    requires k < |steps|
    requires Run(ctx, steps[..k]).failure.None?
    requires StepOutcome(ctx, steps[k]).Err?
    ensures Run(ctx, steps).emitted == Run(ctx, steps[..k]).emitted
  {
    RunExtend(ctx, steps, k);
    RunStopped(ctx, steps, k + 1);
  }

  /** Every appended record is a statistics record about the summarised feature, so none can
      be rejected by the name validator. */
  lemma {:induction false} RunEmitsStatistics(ctx: Context, steps: seq<Step>)
    ensures forall k :: 0 <= k < |Run(ctx, steps).emitted| ==>
              Run(ctx, steps).emitted[k].metricType == "statistics"
              && Run(ctx, steps).emitted[k].featureName == Some(ctx.feature)
  {
    if steps != [] {
      RunEmitsStatistics(ctx, steps[..|steps| - 1]);
    }
  }

  /** When no step raises, the steps that emit contribute exactly one record each, in order. */
  lemma {:induction false} RunWithoutFailure(ctx: Context, steps: seq<Step>)
    requires forall k :: 0 <= k < |steps| ==> StepOutcome(ctx, steps[k]).Ok? && StepOutcome(ctx, steps[k]).value.Some?
    ensures Run(ctx, steps).failure.None?
    ensures |Run(ctx, steps).emitted| == |steps|
    ensures forall k :: 0 <= k < |steps| ==> Run(ctx, steps).emitted[k] == StepOutcome(ctx, steps[k]).value.value
  {
    if steps != [] {
      RunWithoutFailure(ctx, steps[..|steps| - 1]);
    }
  }

  /** A run that completes ends with the count record. */
  lemma {:induction false} CompletedRunEndsWithCount(ctx: Context, steps: seq<Step>)
    requires |steps| > 0 && steps[|steps| - 1] == Count
    requires Run(ctx, steps).failure.None?
    ensures |Run(ctx, steps).emitted| > 0
    ensures Run(ctx, steps).emitted[|Run(ctx, steps).emitted| - 1] == CountRecord(ctx)
  {
    var t := Run(ctx, steps[..|steps| - 1]);
    assert t.failure.None?;
    assert StepOutcome(ctx, Count) == Ok(Some(CountRecord(ctx)));
  }

  // ---------------------------------------------------------------------------------------
  // What one evaluate call appends

  /** Every library routine a numeric summary calls succeeds, and the reference (if given)
      has the feature. */
  predicate NumericCallsSucceed(feature: string, column: Column, reference: Option<Frame>, percentiles: seq<real>, lib: StatsLibrary) {
    (forall i :: 0 <= i < |NumericStatNames| ==> lib.numeric(NumericStatNames[i], column).Ok?)
    && (forall j :: 0 <= j < |percentiles| ==> lib.quantile(column, percentiles[j]).Ok?)
    && (reference.Some? ==>
          feature in reference.value.columns
          && (forall i :: 0 <= i < |NumericStatNames| ==> lib.numeric(NumericStatNames[i], reference.value.columns[feature]).Ok?)
          && (forall j :: 0 <= j < |percentiles| ==> lib.quantile(reference.value.columns[feature], percentiles[j]).Ok?))
  }

  /** The baseline of a statistic: the same statistic on the reference, or None without one. */
  function Expected(reference: Option<Frame>, feature: string, stat: Column -> Result<real>): PyValue
    requires reference.Some? ==> feature in reference.value.columns && stat(reference.value.columns[feature]).Ok?
  {
    if reference.None? then PyNone else PyFloat(stat(reference.value.columns[feature]).value)
  }

  /** A statistic whose routine succeeds on the current column and, when there is one, on the
      reference column is appended with its value and its reference value as threshold. */
  lemma StatRecordSucceeds(ctx: Context, name: string, stat: Column -> Result<real>)
    requires stat(ctx.current).Ok?
    requires ctx.reference.Some? ==> ctx.feature in ctx.reference.value.columns && stat(ctx.reference.value.columns[ctx.feature]).Ok?
    ensures StatRecord(ctx, name, stat)
            == Ok(Some(MetricResults("statistics", name, Some(ctx.feature), PyFloat(stat(ctx.current).value), None,
                                     Expected(ctx.reference, ctx.feature, stat), None)))
  {
    FreeNamedAlwaysAccepted("statistics", name, Some(ctx.feature), PyFloat(stat(ctx.current).value), None,
                            Expected(ctx.reference, ctx.feature, stat), None);
  }

  /** A numeric feature gets mean, median, std, skewness, kurtosis, one record per percentile
      in the given order, then count: 5 + |percentiles| + 1 records. Each statistic carries its
      value on the reference (or None) as threshold; count carries none. */
  lemma {:induction false} NumericSummary(feature: string, current: Frame, reference: Option<Frame>, percentiles: seq<real>, lib: StatsLibrary)
    requires feature in current.columns && current.columns[feature].numeric
    requires NumericCallsSucceed(feature, current.columns[feature], reference, percentiles, lib)
    ensures var t := SummaryTrace(feature, current, reference, percentiles, lib);
            var column := current.columns[feature];
            && t.failure.None?
            && |t.emitted| == |NumericStatNames| + |percentiles| + 1
            && (forall i :: 0 <= i < |NumericStatNames| ==>
                  t.emitted[i] == MetricResults("statistics", NumericStatNames[i], Some(feature),
                                                PyFloat(lib.numeric(NumericStatNames[i], column).value), None,
                                                Expected(reference, feature, c => lib.numeric(NumericStatNames[i], c)), None))
            && (forall j :: 0 <= j < |percentiles| ==>
                  t.emitted[|NumericStatNames| + j]
                    == MetricResults("statistics", lib.percentileName(percentiles[j]), Some(feature),
                                     PyFloat(lib.quantile(column, percentiles[j]).value), None,
                                     Expected(reference, feature, c => lib.quantile(c, percentiles[j])), None))
            && t.emitted[|t.emitted| - 1] == MetricResults("statistics", "count", Some(feature), PyInt(NonNullCount(column.values)), None, PyNone, None)
  {
    var column := current.columns[feature];
    var ctx := Context(feature, column, reference, lib);
    var plan := Plan(true, percentiles);
    forall k | 0 <= k < |plan|
      ensures StepOutcome(ctx, plan[k]).Ok? && StepOutcome(ctx, plan[k]).value.Some?
      ensures k < |NumericStatNames| ==>
                StepOutcome(ctx, plan[k]).value.value == MetricResults("statistics", NumericStatNames[k], Some(feature),
                                 PyFloat(lib.numeric(NumericStatNames[k], column).value), None,
                                 Expected(reference, feature, c => lib.numeric(NumericStatNames[k], c)), None)
      ensures |NumericStatNames| <= k < |NumericStatNames| + |percentiles| ==>
                StepOutcome(ctx, plan[k]).value.value == MetricResults("statistics", lib.percentileName(percentiles[k - |NumericStatNames|]), Some(feature),
                                 PyFloat(lib.quantile(column, percentiles[k - |NumericStatNames|]).value), None,
                                 Expected(reference, feature, c => lib.quantile(c, percentiles[k - |NumericStatNames|])), None)
    {
      if k < |NumericStatNames| {
        assert plan[k] == NumericStat(NumericStatNames[k]);
        StatRecordSucceeds(ctx, NumericStatNames[k], c => lib.numeric(NumericStatNames[k], c));
      } else if k < |NumericStatNames| + |percentiles| {
        assert plan[k] == Percentile(percentiles[k - |NumericStatNames|]);
        StatRecordSucceeds(ctx, lib.percentileName(percentiles[k - |NumericStatNames|]), c => lib.quantile(c, percentiles[k - |NumericStatNames|]));
      } else {
        assert plan[k] == Count;
      }
    }
    RunWithoutFailure(ctx, plan);
  }

  /** A non-numeric feature gets only its count: the most-frequent-category record is built
      but never appended. Building it still validates it, so a category that is a list or a
      tuple stops the summary before the count. */
  lemma NonNumericSummary(feature: string, current: Frame, reference: Option<Frame>, percentiles: seq<real>, lib: StatsLibrary)
    requires feature in current.columns && !current.columns[feature].numeric
    requires lib.top(current.columns[feature]).Ok?
    requires reference.Some? ==> feature in reference.value.columns && lib.top(reference.value.columns[feature]).Ok?
    ensures ValueAccepted(lib.top(current.columns[feature]).value) ==>
              SummaryTrace(feature, current, reference, percentiles, lib)
              == Trace([MetricResults("statistics", "count", Some(feature), PyInt(NonNullCount(current.columns[feature].values)), None, PyNone, None)], None)
    ensures !ValueAccepted(lib.top(current.columns[feature]).value) ==>
              SummaryTrace(feature, current, reference, percentiles, lib) == Trace([], Some(ValidationError("metric_value")))
  {
    var ctx := Context(feature, current.columns[feature], reference, lib);
    var plan := [Top, Count];
    assert plan[..0] == [];
    RunExtend(ctx, plan, 0);
    if ValueAccepted(lib.top(current.columns[feature]).value) {
      RunExtend(ctx, plan, 1);
      assert plan[..2] == plan;
    } else {
      RunStopped(ctx, plan, 1);
    }
  }

  /** Whenever `evaluate` completes, numeric feature or not, its last record is the count of
      non-null values of the feature in `current`, with no threshold. */
  lemma CountAlwaysLast(feature: string, current: Frame, reference: Option<Frame>, percentiles: seq<real>, lib: StatsLibrary)
    requires SummaryTrace(feature, current, reference, percentiles, lib).failure.None?
    ensures var t := SummaryTrace(feature, current, reference, percentiles, lib);
            |t.emitted| > 0
            && t.emitted[|t.emitted| - 1]
               == MetricResults("statistics", "count", Some(feature), PyInt(NonNullCount(current.columns[feature].values)), None, PyNone, None)
  {
    var column := current.columns[feature];
    CompletedRunEndsWithCount(Context(feature, column, reference, lib), Plan(column.numeric, percentiles));
  }

  /** Whatever happens, `evaluate` appends only statistics records about its own feature. */
  lemma SummaryEmitsStatistics(feature: string, current: Frame, reference: Option<Frame>, percentiles: seq<real>, lib: StatsLibrary)
    ensures var t := SummaryTrace(feature, current, reference, percentiles, lib);
            forall k :: 0 <= k < |t.emitted| ==> t.emitted[k].metricType == "statistics" && t.emitted[k].featureName == Some(feature)
  {
    if feature in current.columns {
      var column := current.columns[feature];
      RunEmitsStatistics(Context(feature, column, reference, lib), Plan(column.numeric, percentiles));
    }
  }

  /** A reference frame without the feature stops a numeric summary before anything is appended. */
  lemma ReferenceWithoutFeature(feature: string, current: Frame, ref: Frame, percentiles: seq<real>, lib: StatsLibrary)
    requires feature in current.columns && current.columns[feature].numeric
    requires feature !in ref.columns
    ensures SummaryTrace(feature, current, Some(ref), percentiles, lib) == Trace([], Some(KeyError(feature)))
  {
    var column := current.columns[feature];
    var ctx := Context(feature, column, Some(ref), lib);
    var plan := Plan(true, percentiles);
    assert plan[0] == NumericStat("mean");
    assert plan[..0] == [];
    RunExtend(ctx, plan, 0);
    RunStopped(ctx, plan, 1);
  }

  class FeatureSummary {
    const featureName: string
    var result: seq<MetricResults>   // `_result`, never cleared

    constructor (featureName: string)
      ensures this.featureName == featureName && result == []
    {
      this.featureName := featureName;
      result := [];
    }

    /** `evaluate(current, reference, percentiles)`: appends this feature's records to `_result`
        and returns nothing. An exception stops the appending and is swallowed, so the records
        appended before it stay. Repeated calls accumulate. */
    method Evaluate(current: Frame, reference: Option<Frame> := None, percentiles: seq<real> := DefaultPercentiles, lib: StatsLibrary)
      modifies this
      ensures result == old(result) + SummaryTrace(featureName, current, reference, percentiles, lib).emitted
    {
      // `_check_feature_name` only reports a missing feature; `current[feature]` then raises.
      if featureName !in current.columns {
        return;
      }
      var column := current.columns[featureName];
      var ctx := Context(featureName, column, reference, lib);
      ghost var plan := Plan(column.numeric, percentiles);
      assert SummaryTrace(featureName, current, reference, percentiles, lib) == Run(ctx, plan);
      ghost var k: nat;   // the number of steps of `plan` performed
      var completed;
      if column.numeric {
        completed, k := AppendNumericStatistics(ctx, percentiles);
      } else {
        // Only the most frequent category is computed; its record is built but not appended.
        completed := BuildTop(ctx);
        RunExtend(ctx, plan, 0);
        if !completed {
          StopsAt(ctx, plan, 0);
        }
      }
      if completed {
        AppendCount(ctx, plan, old(result));
      }
    }

    /** The `count` record, appended last for every kind of feature once the steps before it
        have completed. */
    method AppendCount(ctx: Context, ghost plan: seq<Step>, ghost base: seq<MetricResults>)
      requires |plan| > 0 && plan[|plan| - 1] == Count
      requires Run(ctx, plan[..|plan| - 1]).failure.None?
      requires result == base + Run(ctx, plan[..|plan| - 1]).emitted
      modifies this
      ensures result == base + Run(ctx, plan).emitted
    {
      RunExtend(ctx, plan, |plan| - 1);
      var count := MetricResults("statistics", "count", Some(ctx.feature), PyInt(NonNullCount(ctx.current.values)), None, PyNone, None);
      result := result + [count];
      assert plan[..|plan|] == plan;
    }

    /** The most frequent category of a non-numeric feature and its reference baseline are
        computed and the `top` record is built, which validates it; `ok` is false exactly when
        one of these raises. */
    method BuildTop(ctx: Context) returns (ok: bool)
      ensures ok <==> StepOutcome(ctx, Top).Ok?
    {
      var categoryTop := ctx.lib.top(ctx.current);
      if categoryTop.Err? {
        return false;
      }
      var threshold := PyNone;
      if ctx.reference.Some? {
        if ctx.feature !in ctx.reference.value.columns {
          return false;
        }
        var referenceTop := ctx.lib.top(ctx.reference.value.columns[ctx.feature]);
        if referenceTop.Err? {
          return false;
        }
        threshold := referenceTop.value;
      }
      var top := NewMetricResults(metricType := "statistics", metricName := "top", featureName := Some(ctx.feature),
                                  metricValue := categoryTop.value, threshold := threshold);
      ok := top.Ok?;
    }

    /** The two loops of `evaluate` for a numeric feature: the `_numeric_dict` statistics, then
        the percentiles. On an exception (`completed` false) the whole evaluation is over. */
    method AppendNumericStatistics(ctx: Context, percentiles: seq<real>) returns (completed: bool, ghost k: nat)
      modifies this
      ensures var plan := Plan(true, percentiles);
              if completed then
                k == |plan| - 1 && Run(ctx, plan[..k]).failure.None? && result == old(result) + Run(ctx, plan[..k]).emitted
              else result == old(result) + Run(ctx, plan).emitted
    {
      ghost var plan := Plan(true, percentiles);
      completed := AppendNumericDict(ctx, plan, old(result));
      if !completed {
        return false, 0;
      }
      completed := AppendPercentiles(ctx, percentiles, plan, old(result));
      k := |plan| - 1;
    }

    /** The loop over `_numeric_dict`. */
    method AppendNumericDict(ctx: Context, ghost plan: seq<Step>, ghost base: seq<MetricResults>) returns (completed: bool)
      requires |plan| > |NumericStatNames|
      requires forall i :: 0 <= i < |NumericStatNames| ==> plan[i] == NumericStat(NumericStatNames[i])
      requires result == base
      modifies this
      ensures completed ==> Run(ctx, plan[..|NumericStatNames|]).failure.None?
                            && result == base + Run(ctx, plan[..|NumericStatNames|]).emitted
      ensures !completed ==> result == base + Run(ctx, plan).emitted
    {
      assert plan[..0] == [] && base + [] == base;
      var i := 0;
      while i < |NumericStatNames|
        invariant 0 <= i <= |NumericStatNames|
        invariant Run(ctx, plan[..i]).failure.None?
        invariant result == base + Run(ctx, plan[..i]).emitted
      {
        var ok := Emit(ctx, NumericStat(NumericStatNames[i]), plan, i, base);
        if !ok {
          return false;
        }
        i := i + 1;
      }
      completed := true;
    }

    /** The loop over `percentiles`, after the `_numeric_dict` statistics. */
    method AppendPercentiles(ctx: Context, percentiles: seq<real>, ghost plan: seq<Step>, ghost base: seq<MetricResults>)
      returns (completed: bool)
      requires plan == Plan(true, percentiles)
      requires Run(ctx, plan[..|NumericStatNames|]).failure.None?
      requires result == base + Run(ctx, plan[..|NumericStatNames|]).emitted
      modifies this
      ensures completed ==> Run(ctx, plan[..|plan| - 1]).failure.None? && result == base + Run(ctx, plan[..|plan| - 1]).emitted
      ensures !completed ==> result == base + Run(ctx, plan).emitted
    {
      var j := 0;
      while j < |percentiles|
        invariant 0 <= j <= |percentiles|
        invariant Run(ctx, plan[..|NumericStatNames| + j]).failure.None?
        invariant result == base + Run(ctx, plan[..|NumericStatNames| + j]).emitted
      {
        var ok := Emit(ctx, Percentile(percentiles[j]), plan, |NumericStatNames| + j, base);
        if !ok {
          return false;
        }
        j := j + 1;
      }
      completed := true;
    }

    /** Step k of either loop: append the statistic's record, or stop at its exception. */
    method Emit(ctx: Context, step: Step, ghost plan: seq<Step>, ghost k: nat, ghost base: seq<MetricResults>) returns (ok: bool)
      requires k < |plan| && plan[k] == step && (step.NumericStat? || step.Percentile?)
      requires Run(ctx, plan[..k]).failure.None? && result == base + Run(ctx, plan[..k]).emitted
      modifies this
      ensures ok ==> Run(ctx, plan[..k + 1]).failure.None? && result == base + Run(ctx, plan[..k + 1]).emitted
      ensures !ok ==> result == base + Run(ctx, plan).emitted
    {
      RunExtend(ctx, plan, k);
      var statistics;
      match step {
        case NumericStat(name) =>
          statistics := Statistic(ctx, name, c => ctx.lib.numeric(name, c));
        case Percentile(p) =>
          statistics := Statistic(ctx, ctx.lib.percentileName(p), c => ctx.lib.quantile(c, p));
      }
      if statistics.Err? {
        StopsAt(ctx, plan, k);
        return false;
      }
      result := result + [statistics.value];
      assert result == base + (Run(ctx, plan[..k]).emitted + [statistics.value]);
      ok := true;
    }

    /** One iteration of either loop of `evaluate`: the statistic on the reference (the
        baseline), then on the current column, then the validated record. */
    static method Statistic(ctx: Context, name: string, stat: Column -> Result<real>) returns (r: Result<MetricResults>)
      ensures r.Ok? <==> StatRecord(ctx, name, stat).Ok?
      ensures r.Ok? ==> StatRecord(ctx, name, stat).value == Some(r.value)
      ensures r.Ok? ==> r.value.metricType == "statistics" && r.value.metricName == name && r.value.featureName == Some(ctx.feature)
    {
      var threshold := PyNone;
      if ctx.reference.Some? {
        if ctx.feature !in ctx.reference.value.columns {
          return Err(KeyError(ctx.feature));
        }
        var t := stat(ctx.reference.value.columns[ctx.feature]);
        if t.Err? {
          return Err(t.error);
        }
        threshold := PyFloat(t.value);
      }
      var value := stat(ctx.current);
      if value.Err? {
        return Err(value.error);
      }
      r := NewMetricResults(metricType := "statistics", metricName := name, featureName := Some(ctx.feature),
                            metricValue := PyFloat(value.value), threshold := threshold);
    }

    /** `results_to_pandas()`: `_result` is a list from construction on and is never reset, so
        the None branch is never taken; the table has one row per record, in order. */
    function ResultsToPandas(): (r: Option<seq<MetricResults>>)
      reads this
      ensures r.Some? && r.value == result
    {
      Some(result)
    }

    /** `get_result()` */
    function GetResult(): seq<MetricResults>
      reads this
    {
      result
    }
  }
}
