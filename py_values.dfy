/** The Python values that flow through the metric engine as thresholds, options and metric
    values. `bool` is a subclass of `int` in Python, so a boolean is a number here too. */
module PyValues {

  datatype PyValue =
    | PyNone
    | PyBool(b: bool)
    | PyInt(i: int)
    | PyFloat(f: real)
    | PyStr(s: string)
    | PyList(items: seq<PyValue>)
    | PyTuple(items: seq<PyValue>)

  /** Keyword arguments / an options dictionary. */
  type Kwargs = map<string, PyValue>

  /** `isinstance(v, numbers.Number)`, which for these values is also `isinstance(v, (int, float))`. */
  predicate IsNumber(v: PyValue) {
    v.PyBool? || v.PyInt? || v.PyFloat?
  }

  /** The numeric value Python compares with `<`. */
  function AsReal(v: PyValue): real
    requires IsNumber(v)
  {
    match v
    case PyBool(b) => if b then 1.0 else 0.0
    case PyInt(i) => i as real
    case PyFloat(f) => f
  }

  /** Python truthiness, as used by `if upper_bound` and `if bootstrap`. */
  predicate Truthy(v: PyValue) {
    match v
    case PyNone => false
    case PyBool(b) => b
    case PyInt(i) => i != 0
    case PyFloat(f) => f != 0.0
    case PyStr(s) => s != ""
    case PyList(items) => items != []
    case PyTuple(items) => items != []
  }

  /** Whether `hash(v)` succeeds: lists are unhashable, tuples only when their items are hashable. */
  predicate Hashable(v: PyValue) {
    match v
    case PyList(_) => false
    case PyTuple(items) => forall k :: 0 <= k < |items| ==> Hashable(items[k])
    case _ => true
  }

  predicate AllNumbers(t: seq<PyValue>) {
    forall k :: 0 <= k < |t| ==> IsNumber(t[k])
  }

  /** The numbers of an all-numeric list, in order. */
  function Reals(t: seq<PyValue>): (r: seq<real>)
    requires AllNumbers(t)
    ensures |r| == |t|
    ensures forall k :: 0 <= k < |t| ==> r[k] == AsReal(t[k])
  {
    if t == [] then [] else [AsReal(t[0])] + Reals(t[1..])
  }

  /** `kwargs.get(key, default)` */
  function Get(kwargs: Kwargs, key: string, default: PyValue): PyValue {
    if key in kwargs then kwargs[key] else default
  }
}
