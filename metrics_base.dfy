/** pulsar_metrics/metrics/base.py: the validated result record, the stored-result accessor of
    a metric, and the custom-metric wrapper around a user function. */
module MetricsBase {
  import opened Common
  import opened PyValues
  import opened Enums
  import Utils

  /** `MetricResults`: one evaluated metric. A null field is `None` / `PyNone`. */
  datatype MetricResults = MetricResults(
    metricType: string,
    metricName: string,
    featureName: Option<string>,
    metricValue: PyValue,
    driftStatus: Option<bool>,
    threshold: PyValue,
    confInt: Option<seq<real>>)

  // The f-strings of the validators wrap a plain string literal, so the braces are not
  // interpolated: these are the messages exactly as raised.
  const MSG_INVALID_TYPE := "ValueError: Metric type should be None or one of {MetricsType._member_names_}"
  const MSG_INVALID_NAME := "ValueError:Metric name {v} is invalid"

  /** The types whose records may carry any metric name. */
  predicate FreeNamed(metricType: string) {
    metricType == "custom" || metricType == "statistics"
  }

  /** Whether `metric_value: Union[float, int, str] = None` accepts the value: a number or a
      string (converted or kept) or the default None; a list or a tuple fits none of the three. */
  predicate ValueAccepted(v: PyValue) {
    !v.PyList? && !v.PyTuple?
  }

  /** `MetricResults(...)`: the field defaults, then the fields in order. The two validators
      raise the package exception, which pydantic lets through at once; a rejected
      `metric_value` is collected and raised as a validation error after the last field. The
      threshold field also admits a list, to which it converts a tuple, so it accepts every
      value. */
  function NewMetricResults(
    metricType: string,
    metricName: string,
    featureName: Option<string> := None,
    metricValue: PyValue := PyNone,
    driftStatus: Option<bool> := None,
    threshold: PyValue := PyNone,
    confInt: Option<seq<real>> := None): (r: Result<MetricResults>)
    ensures r.Ok? <==> metricType in MetricsTypeNames && (metricName in AllMetricNames() || FreeNamed(metricType))
                       && ValueAccepted(metricValue)
    ensures r.Ok? ==> r.value == MetricResults(metricType, metricName, featureName, metricValue, driftStatus, threshold, confInt)
    ensures metricType !in MetricsTypeNames ==> r == Err(PulsarError(None, MSG_INVALID_TYPE))
    ensures metricType in MetricsTypeNames && metricName !in AllMetricNames() && !FreeNamed(metricType)
            ==> r == Err(PulsarError(None, MSG_INVALID_NAME))
    ensures metricType in MetricsTypeNames && (metricName in AllMetricNames() || FreeNamed(metricType)) && !ValueAccepted(metricValue)
            ==> r == Err(ValidationError("metric_value"))
  {
    if metricType !in MetricsTypeNames then Err(PulsarError(None, MSG_INVALID_TYPE))
    else if metricName !in AllMetricNames() && !FreeNamed(metricType) then Err(PulsarError(None, MSG_INVALID_NAME))
    else if !ValueAccepted(metricValue) then Err(ValidationError("metric_value"))
    else Ok(MetricResults(metricType, metricName, featureName, metricValue, driftStatus, threshold, confInt))
  }

  /** Custom and statistics records are never rejected for their name, only for a value that
      is not a number, a string or None. */
  lemma FreeNamedAlwaysAccepted(metricType: string, metricName: string, featureName: Option<string>,
                                metricValue: PyValue, driftStatus: Option<bool>, threshold: PyValue, confInt: Option<seq<real>>)
    requires FreeNamed(metricType) && ValueAccepted(metricValue)
    ensures NewMetricResults(metricType, metricName, featureName, metricValue, driftStatus, threshold, confInt)
         == Ok(MetricResults(metricType, metricName, featureName, metricValue, driftStatus, threshold, confInt))
  {
  }

  /** A registered name with a registered type gives a record whose optional fields default to None. */
  lemma DefaultsAreNone(metricType: string, metricName: string)
    requires metricType in MetricsTypeNames && metricName in PerformanceNames + DriftNames + DriftTestNames
    ensures NewMetricResults(metricType, metricName)
         == Ok(MetricResults(metricType, metricName, None, PyNone, None, PyNone, None))
  {
  }

  /** Outside custom and statistics, a name from no registry is rejected. */
  lemma UnregisteredNameRejected(metricType: string, metricName: string)
    requires metricType in MetricsTypeNames && !FreeNamed(metricType)
    requires metricName !in PerformanceNames && metricName !in DriftNames && metricName !in DriftTestNames
    ensures NewMetricResults(metricType, metricName) == Err(PulsarError(None, MSG_INVALID_NAME))
  {
  }

  /** `AbstractMetrics.__init__(self, metric_name)` called with `positional` arguments after
      `self`: exactly one is accepted and becomes `_name`; any other count raises TypeError. */
  function AbstractMetricsInit(metricName: string, positional: nat): (r: Result<string>)
    ensures r.Ok? <==> positional == 1
    ensures r.Ok? ==> r.value == metricName
  {
    if positional == 1 then Ok(metricName) else Err(TypeError)
  }

  /** `get_result()`: the stored result, or AttributeError when `_result` was never assigned. */
  function StoredResult<R>(stored: Option<R>): (r: Result<R>)
    ensures stored.Some? ==> r == Ok(stored.value)
    ensures stored.None? ==> r == Err(AttributeError("_result"))
  {
    match stored
    case Some(v) => Ok(v)
    case None => Err(AttributeError("_result"))
  }

  /** What `CustomClass.evaluate(**kwargs)` returns: the user function is called with every
      keyword, then the threshold policy judges its value; either may raise. */
  function CustomOutcome(func: Kwargs -> Result<PyValue>, name: string, kwargs: Kwargs): Result<MetricResults> {
    match func(kwargs)
    case Err(e) => Err(e)
    case Ok(value) =>
      var threshold := Get(kwargs, "threshold", PyNone);
      var upperBound := Get(kwargs, "upper_bound", PyBool(true));
      match Utils.CompareToThreshold(value, threshold, upperBound)
      case Err(e) => Err(e)
      case Ok(status) =>
        NewMetricResults(metricName := name, metricType := "custom", metricValue := value,
                         confInt := None, driftStatus := status, threshold := threshold)
  }

  /** A custom result is the user value judged by the threshold policy: type custom, no
      interval, the given threshold echoed, any name accepted; it fails only when the user
      function or the policy raises, or when the value is a list or a tuple. */
  lemma CustomResultShape(func: Kwargs -> Result<PyValue>, name: string, kwargs: Kwargs)
    ensures var threshold := Get(kwargs, "threshold", PyNone);
            var upperBound := Get(kwargs, "upper_bound", PyBool(true));
            CustomOutcome(func, name, kwargs).Ok? <==>
              func(kwargs).Ok? && Utils.CompareToThreshold(func(kwargs).value, threshold, upperBound).Ok?
              && ValueAccepted(func(kwargs).value)
    ensures var threshold := Get(kwargs, "threshold", PyNone);
            var upperBound := Get(kwargs, "upper_bound", PyBool(true));
            CustomOutcome(func, name, kwargs).Ok? ==>
              CustomOutcome(func, name, kwargs).value
                == MetricResults("custom", name, None, func(kwargs).value,
                                 Utils.CompareToThreshold(func(kwargs).value, threshold, upperBound).value,
                                 threshold, None)
  {
    assert "custom" in MetricsTypeNames;
  }

  /** Without a threshold keyword a custom metric succeeds with no status exactly when its
      value fits the record, and is otherwise rejected by the record's validation. */
  lemma CustomWithoutThreshold(func: Kwargs -> Result<PyValue>, name: string, kwargs: Kwargs)
    requires "threshold" !in kwargs
    requires func(kwargs).Ok?
    ensures CustomOutcome(func, name, kwargs).Ok? <==> ValueAccepted(func(kwargs).value)
    ensures CustomOutcome(func, name, kwargs).Ok? ==> CustomOutcome(func, name, kwargs).value.driftStatus == None
    ensures !ValueAccepted(func(kwargs).value) ==> CustomOutcome(func, name, kwargs) == Err(ValidationError("metric_value"))
  {
    CustomResultShape(func, name, kwargs);
  }

  /** The object `CustomMetric(func)(metric_name)` builds. */
  class CustomMetric {
    const name: string
    const func: Kwargs -> Result<PyValue>
    var result: Option<MetricResults>   // `_result`, unassigned until an evaluation succeeds

    constructor (func: Kwargs -> Result<PyValue>, metricName: string)
      ensures name == metricName && this.func == func && result == None
    {
      this.name := metricName;
      this.func := func;
      result := None;
    }

    /** `evaluate(**kwargs)`: a successful evaluation overwrites `_result` and returns it; an
        exception escapes before `_result` is assigned, so the previous result stays. */
    method Evaluate(kwargs: Kwargs) returns (r: Result<MetricResults>)
      modifies this
      ensures r == CustomOutcome(func, name, kwargs)
      ensures result == (if r.Ok? then Some(r.value) else old(result))
      ensures r.Ok? ==> GetResult() == Ok(r.value)
    {
      var value := func(kwargs);
      if value.Err? {
        return Err(value.error);
      }
      var threshold := Get(kwargs, "threshold", PyNone);
      var upperBound := Get(kwargs, "upper_bound", PyBool(true));
      var status := Utils.CompareToThreshold(value.value, threshold, upperBound);
      if status.Err? {
        return Err(status.error);
      }
      var record := NewMetricResults(metricName := name, metricType := "custom", metricValue := value.value,
                                     confInt := None, driftStatus := status.value, threshold := threshold);
      // A custom record is rejected only for its value.
      assert "custom" in MetricsTypeNames;
      if record.Err? {
        return record;
      }
      result := Some(record.value);
      r := record;
    }

    /** `get_result()` */
    function GetResult(): Result<MetricResults>
      reads this
    {
      StoredResult(result)
    }
  }
}
