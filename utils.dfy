/** pulsar_metrics/utils.py: the threshold policy shared by the metrics and the check that a
    data frame carries the columns the engine needs. */
module Utils {
  import opened Common
  import opened PyValues
  import opened Frames

  const ERROR_MSG_VECTOR_THRESHOLD := "Vector Threshold should have only two distinct elements [Min,Max]"
  const ERROR_MSG_MISSING_KEY := "Missing key for the column in the dataset"

  // ---------------------------------------------------------------------------------------
  // validate_dataframe

  /** The columns `validate_dataframe` looks for, in the order it looks for them. */
  function RequiredColumns(yName: string, predName: string): seq<string> {
    [yName, predName, "date", "model_id"]
  }

  /** `validate_dataframe(data, y_name, pred_name)`: True, or the package error for the first
      required column that is missing. */
  function ValidateDataframe(data: Frame, yName: string := "y_true", predName: string := "y_pred"): (r: Result<bool>)
    ensures r.Ok? <==> forall c :: c in RequiredColumns(yName, predName) ==> c in data.columns
    ensures r.Ok? ==> r.value
    ensures r.Err? ==> r.error.PulsarError? && r.error.message == ERROR_MSG_MISSING_KEY
  {
    if yName !in data.columns then Err(PulsarError(Some(yName), ERROR_MSG_MISSING_KEY))
    else if predName !in data.columns then Err(PulsarError(Some(predName), ERROR_MSG_MISSING_KEY))
    else if "date" !in data.columns then Err(PulsarError(None, ERROR_MSG_MISSING_KEY))
    else if "model_id" !in data.columns then Err(PulsarError(None, ERROR_MSG_MISSING_KEY))
    else Ok(true)
  }

  /** The first missing required column decides the error: it carries that column's name for
      the target and prediction columns and no value for "date" and "model_id". */
  lemma FirstMissingColumnDecides(data: Frame, yName: string, predName: string, k: nat)
    requires k < 4
    requires RequiredColumns(yName, predName)[k] !in data.columns
    requires forall j :: 0 <= j < k ==> RequiredColumns(yName, predName)[j] in data.columns
    ensures ValidateDataframe(data, yName, predName)
         == Err(PulsarError(if k < 2 then Some(RequiredColumns(yName, predName)[k]) else None, ERROR_MSG_MISSING_KEY))
  {
    var req := RequiredColumns(yName, predName);
    if k >= 1 { assert req[0] in data.columns; }
    if k >= 2 { assert req[1] in data.columns; }
    if k >= 3 { assert req[2] in data.columns; }
  }

  // ---------------------------------------------------------------------------------------
  // compare_to_threshold

  function MinOf(s: seq<real>): (m: real)
    requires |s| > 0
  {
    if |s| == 1 then s[0] else var m := MinOf(s[1..]); if s[0] < m then s[0] else m
  }

  function MaxOf(s: seq<real>): (m: real)
    requires |s| > 0
  {
    if |s| == 1 then s[0] else var m := MaxOf(s[1..]); if s[0] > m then s[0] else m
  }

  /** `min` is an element of the list and no element is below it. */
  lemma {:induction false} MinOfIsLeast(s: seq<real>)
    requires |s| > 0
    ensures MinOf(s) in s
    ensures forall x :: x in s ==> MinOf(s) <= x
  {
    if |s| > 1 {
      MinOfIsLeast(s[1..]);
      assert forall x :: x in s ==> x == s[0] || x in s[1..];
    }
  }

  /** `max` is an element of the list and no element is above it. */
  lemma {:induction false} MaxOfIsGreatest(s: seq<real>)
    requires |s| > 0
    ensures MaxOf(s) in s
    ensures forall x :: x in s ==> x <= MaxOf(s)
  {
    if |s| > 1 {
      MaxOfIsGreatest(s[1..]);
      assert forall x :: x in s ==> x == s[0] || x in s[1..];
    }
  }

  /** `set(threshold)` of an all-numeric list: Python's set identifies 1, 1.0 and True. */
  function NumberSet(t: seq<PyValue>): set<real>
    requires AllNumbers(t)
  {
    set x | x in Reals(t)
  }

  /** The list form of a threshold that the policy accepts: a list (not a tuple) of numbers
      with exactly two distinct values. */
  predicate IsIntervalThreshold(threshold: PyValue) {
    threshold.PyList? && AllNumbers(threshold.items) && |NumberSet(threshold.items)| == 2
  }

  lemma NonEmptyInterval(t: seq<PyValue>)
    requires AllNumbers(t) && |NumberSet(t)| == 2
    ensures |Reals(t)| > 0
  {
  }

  /** The open interval (min, max) of an accepted list threshold. */
  function IntervalBounds(threshold: PyValue): (bounds: (real, real))
    requires IsIntervalThreshold(threshold)
  {
    NonEmptyInterval(threshold.items);
    (MinOf(Reals(threshold.items)), MaxOf(Reals(threshold.items)))
  }

  function AllHashable(t: seq<PyValue>): bool {
    forall k :: 0 <= k < |t| ==> Hashable(t[k])
  }

  /** `compare_to_threshold(value, threshold, upper_bound)`. The branches are tried in the
      source's order: a single number, a list with two distinct numbers, None, anything else.
      `set(threshold)` is built before the elements are checked to be numbers, so a list with
      an unhashable element raises TypeError rather than the package error. Comparing a
      non-numeric value with a number raises TypeError. */
  function CompareToThreshold(value: PyValue, threshold: PyValue, upperBound: PyValue := PyBool(true)): (r: Result<Option<bool>>)
    ensures r == Ok(None) <==> threshold == PyNone
    ensures r.Ok? && r.value.Some? <==> IsNumber(value) && (IsNumber(threshold) || IsIntervalThreshold(threshold))
    ensures r.Err? && r.error.PulsarError? ==> r.error == PulsarError(None, ERROR_MSG_VECTOR_THRESHOLD)
  {
    if IsNumber(threshold) then
      if !IsNumber(value) then Err(TypeError)
      else if Truthy(upperBound) then Ok(Some(AsReal(value) < AsReal(threshold)))
      else Ok(Some(AsReal(threshold) < AsReal(value)))
    else if threshold.PyList? && !AllHashable(threshold.items) then Err(TypeError)
    else if IsIntervalThreshold(threshold) then
      if !IsNumber(value) then Err(TypeError)
      else
        var (lo, hi) := IntervalBounds(threshold);
        Ok(Some(lo < AsReal(value) && AsReal(value) < hi))
    else if threshold == PyNone then Ok(None)
    else Err(PulsarError(None, ERROR_MSG_VECTOR_THRESHOLD))
  }

  // ---------------------------------------------------------------------------------------
  // Properties of the threshold policy

  /** No threshold, no judgement and no error, whatever the value and the bound flag. */
  lemma NoThresholdNoStatus(value: PyValue, upperBound: PyValue)
    ensures CompareToThreshold(value, PyNone, upperBound) == Ok(None)
  {
  }

  /** A single number is an upper bound (value < threshold) unless upper_bound is falsy, in which
      case it is a lower bound (threshold < value); equality never passes. */
  lemma SingleThreshold(value: PyValue, threshold: PyValue, upperBound: PyValue)
    requires IsNumber(value) && IsNumber(threshold)
    ensures CompareToThreshold(value, threshold, upperBound)
         == Ok(Some(if Truthy(upperBound) then AsReal(value) < AsReal(threshold) else AsReal(threshold) < AsReal(value)))
    ensures CompareToThreshold(threshold, threshold, upperBound) == Ok(Some(false))
  {
  }

  /** Two distinct numbers a and b, occurring in any order and any multiplicity, form the open
      interval (min(a,b), max(a,b)); the flag upper_bound plays no part. */
  lemma {:induction false} IntervalThresholdIsOpenInterval(value: PyValue, t: seq<PyValue>, a: real, b: real, upperBound: PyValue)
    requires IsNumber(value) && AllNumbers(t)
    requires a < b
    requires forall k :: 0 <= k < |t| ==> AsReal(t[k]) == a || AsReal(t[k]) == b
    requires a in Reals(t) && b in Reals(t)
    ensures CompareToThreshold(value, PyList(t), upperBound) == Ok(Some(a < AsReal(value) < b))
  {
    TwoValuesSet(Reals(t), a, b);
    assert AllHashable(t) by {
      forall k | 0 <= k < |t| ensures Hashable(t[k]) { assert IsNumber(t[k]); }
    }
    assert IsIntervalThreshold(PyList(t)) && IntervalBounds(PyList(t)) == (a, b);
  }

  lemma {:induction false} TwoValuesSet(s: seq<real>, a: real, b: real)
    requires a < b
    requires forall x :: x in s ==> x == a || x == b
    requires a in s && b in s
    ensures (set x | x in s) == {a, b}
    ensures |set x | x in s| == 2
    ensures MinOf(s) == a && MaxOf(s) == b
  {
    MinOfIsLeast(s);
    MaxOfIsGreatest(s);
    var S := set y | y in s;
    assert forall x :: x in S <==> x == a || x == b;
  }

  /** Conversely, every list the policy accepts as an interval consists of exactly two
      distinct numbers, its bounds, and the bounds are ordered. */
  lemma {:induction false} AcceptedIntervalHasTwoValues(threshold: PyValue)
    requires IsIntervalThreshold(threshold)
    ensures IntervalBounds(threshold).0 < IntervalBounds(threshold).1
    ensures forall k :: 0 <= k < |threshold.items| ==>
              AsReal(threshold.items[k]) == IntervalBounds(threshold).0 || AsReal(threshold.items[k]) == IntervalBounds(threshold).1
  {
    var s := Reals(threshold.items);
    NonEmptyInterval(threshold.items);
    var lo, hi := MinOf(s), MaxOf(s);
    MinOfIsLeast(s);
    MaxOfIsGreatest(s);
    var S := set x | x in s;
    CollapsedBoundsGiveOneValue(s);
    assert lo < hi;
    assert {lo, hi} <= S;
    assert S == {lo, hi} by {
      var rest := S - {lo, hi};
      assert S == {lo, hi} + rest;
      assert |S| == |{lo, hi}| + |rest|;
      assert rest == {};
    }
    forall k | 0 <= k < |threshold.items|
      ensures s[k] == lo || s[k] == hi
    {
      assert s[k] in S;
    }
  }

  lemma CollapsedBoundsGiveOneValue(s: seq<real>)
    requires |s| > 0
    ensures MinOf(s) == MaxOf(s) ==> |set x | x in s| == 1
  {
    MinOfIsLeast(s);
    MaxOfIsGreatest(s);
    var S := set x | x in s;
    var m := MinOf(s);
    if m == MaxOf(s) {
      assert forall x :: x in S <==> x in {m};
      assert S == {m};
    }
  }

  /** A list of numbers that are all equal (including an empty list) is rejected. */
  lemma {:induction false} SingleValueListRejected(value: PyValue, t: seq<PyValue>, a: real, upperBound: PyValue)
    requires AllNumbers(t)
    requires forall k :: 0 <= k < |t| ==> AsReal(t[k]) == a
    ensures CompareToThreshold(value, PyList(t), upperBound) == Err(PulsarError(None, ERROR_MSG_VECTOR_THRESHOLD))
  {
    var S := NumberSet(t);
    assert S <= {a};
    assert |S| <= 1 by {
      if a in S { assert S == {a}; } else { assert S == {}; }
    }
    assert AllHashable(t) by {
      forall k | 0 <= k < |t| ensures Hashable(t[k]) { assert IsNumber(t[k]); }
    }
  }

  /** A list in which three distinct numbers occur is rejected. */
  lemma {:induction false} ThreeValuesListRejected(value: PyValue, t: seq<PyValue>, a: real, b: real, c: real, upperBound: PyValue)
    requires AllNumbers(t)
    requires a < b < c
    requires a in Reals(t) && b in Reals(t) && c in Reals(t)
    ensures CompareToThreshold(value, PyList(t), upperBound) == Err(PulsarError(None, ERROR_MSG_VECTOR_THRESHOLD))
  {
    AtLeastThree(Reals(t), a, b, c);
    assert AllHashable(t) by {
      forall k | 0 <= k < |t| ensures Hashable(t[k]) { assert IsNumber(t[k]); }
    }
  }

  lemma AtLeastThree(s: seq<real>, a: real, b: real, c: real)
    requires a < b < c
    requires a in s && b in s && c in s
    ensures |set x | x in s| >= 3
  {
    var S := set x | x in s;
    var rest := S - {a, b, c};
    assert S == {a, b, c} + rest;
    assert |S| == |{a, b, c}| + |rest|;
  }

  /** Shapes other than a number, an accepted list or None are rejected with the package error:
      a string, a tuple (a sequence that is not a list), or a hashable list with a non-number. */
  lemma OtherShapesRejected(value: PyValue, threshold: PyValue, upperBound: PyValue)
    requires threshold.PyStr? || threshold.PyTuple?
          || (threshold.PyList? && AllHashable(threshold.items) && !AllNumbers(threshold.items))
    ensures CompareToThreshold(value, threshold, upperBound) == Err(PulsarError(None, ERROR_MSG_VECTOR_THRESHOLD))
  {
  }

  // The worked examples of tests/test_utils.py.

  lemma SingleThresholdExample()
    ensures CompareToThreshold(PyInt(3), PyInt(2)) == Ok(Some(false))
  {
  }

  lemma IntervalThresholdExamples()
    ensures CompareToThreshold(PyInt(3), PyList([PyInt(1), PyInt(4)])) == Ok(Some(true))
    ensures CompareToThreshold(PyInt(3), PyList([PyInt(1), PyInt(4), PyInt(4)])) == Ok(Some(true))
  {
    var two := [PyInt(1), PyInt(4)];
    assert Reals(two) == [1.0, 4.0];
    IntervalThresholdIsOpenInterval(PyInt(3), two, 1.0, 4.0, PyBool(true));
    var dup := [PyInt(1), PyInt(4), PyInt(4)];
    assert Reals(dup) == [1.0, 4.0, 4.0];
    IntervalThresholdIsOpenInterval(PyInt(3), dup, 1.0, 4.0, PyBool(true));
  }

  lemma InvalidThresholdExamples()
    ensures CompareToThreshold(PyInt(3), PyList([PyInt(1), PyInt(1)])) == Err(PulsarError(None, ERROR_MSG_VECTOR_THRESHOLD))
    ensures CompareToThreshold(PyInt(3), PyList([PyInt(1), PyInt(4), PyInt(6)])) == Err(PulsarError(None, ERROR_MSG_VECTOR_THRESHOLD))
    ensures CompareToThreshold(PyInt(3), PyStr("a")) == Err(PulsarError(None, ERROR_MSG_VECTOR_THRESHOLD))
  {
    SingleValueListRejected(PyInt(3), [PyInt(1), PyInt(1)], 1.0, PyBool(true));
    var three := [PyInt(1), PyInt(4), PyInt(6)];
    assert Reals(three) == [1.0, 4.0, 6.0];
    ThreeValuesListRejected(PyInt(3), three, 1.0, 4.0, 6.0, PyBool(true));
  }
}
