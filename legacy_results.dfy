/** The result record that drift.py and performance.py build. They pass the keywords of an
    older MetricResults (`type`, `value`, `status`, `feature`, ...) rather than the fields of
    metrics/base.py, so their records are modelled with that shape of their own, unvalidated. */
module LegacyResults {
  import opened Common
  import opened PyValues

  datatype LegacyResult = LegacyResult(
    metricName: string,
    resultType: string,        // `type=`
    feature: string,           // `feature=`
    value: real,               // `value=`
    confInt: Option<seq<real>>,
    status: Option<bool>,      // `status=`
    threshold: PyValue)

  /** The status rule of drift.py and performance.py: `value < threshold` when the threshold is
      an int or a float (a bool included), otherwise None. */
  function UpperStatus(value: real, threshold: PyValue): Option<bool> {
    if IsNumber(threshold) then Some(value < AsReal(threshold)) else None
  }
}
