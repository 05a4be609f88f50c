/** A pandas DataFrame reduced to what the metric engine looks at: the row count, the row
    labels, the column names in order, and per column whether its dtype is numeric and its
    cells (a null cell is `PyNone`). */
module Frames {
  import opened Common
  import opened PyValues

  datatype Column = Column(numeric: bool, values: seq<PyValue>)

  datatype DataFrame = DataFrame(rows: nat, index: seq<PyValue>, names: seq<string>, columns: map<string, Column>)

  /** What pandas guarantees of a frame: one label per row, distinct column names that are
      exactly the stored columns, and one cell per row in every column. */
  predicate WellFormed(t: DataFrame) {
    && |t.index| == t.rows
    && (forall i, j :: 0 <= i < j < |t.names| ==> t.names[i] != t.names[j])
    && (forall k :: 0 <= k < |t.names| ==> t.names[k] in t.columns)
    && (forall n :: n in t.columns ==> n in t.names)
    && (forall n :: n in t.columns ==> |t.columns[n].values| == t.rows)
  }

  type Frame = t: DataFrame | WellFormed(t) witness DataFrame(0, [], [], map[])

  /** `data[name]` */
  function GetColumn(data: Frame, name: string): (r: Result<Column>)
    ensures r.Ok? <==> name in data.columns
    ensures r.Ok? ==> r.value == data.columns[name]
    ensures r.Err? ==> r.error == KeyError(name)
  {
    if name in data.columns then Ok(data.columns[name]) else Err(KeyError(name))
  }

  /** What `data[key]` returns: a Series for one column name, a DataFrame for a list of
      names; either keeps the frame's row labels. */
  datatype Selection =
    | Series(labels: seq<PyValue>, column: Column)
    | SubFrame(labels: seq<PyValue>, names: seq<string>, columns: seq<Column>)

  /** Every selected column has one cell per row label. */
  predicate Aligned(s: Selection) {
    match s
    case Series(labels, column) => |column.values| == |labels|
    case SubFrame(labels, names, columns) =>
      |names| == |columns| && forall c :: 0 <= c < |columns| ==> |columns[c].values| == |labels|
  }

  type Selected = s: Selection | Aligned(s) witness Series([], Column(false, []))

  /** Whether a list key names only columns of the frame. */
  predicate NamesColumns(data: Frame, items: seq<PyValue>) {
    forall k :: 0 <= k < |items| ==> items[k].PyStr? && items[k].s in data.columns
  }

  /** `data[key]` for a key that arrives as an arbitrary Python value (an option): a string
      selects that column, a list of strings the sub-frame of those columns in the order
      given; a missing name, or any other key, raises. */
  function Select(data: Frame, key: PyValue): (r: Result<Selected>)
    ensures r.Ok? <==> (key.PyStr? && key.s in data.columns) || (key.PyList? && NamesColumns(data, key.items))
    ensures r.Ok? ==> r.value.labels == data.index
    ensures r.Ok? && key.PyStr? ==> r.value == Series(data.index, data.columns[key.s])
    ensures r.Ok? && key.PyList? ==>
              && r.value.SubFrame? && |r.value.names| == |key.items|
              && forall k :: 0 <= k < |key.items| ==>
                   r.value.names[k] == key.items[k].s && r.value.columns[k] == data.columns[key.items[k].s]
  {
    match key
    case PyStr(s) => if s in data.columns then Ok(Series(data.index, data.columns[s])) else Err(KeyError(s))
    case PyList(items) =>
      if NamesColumns(data, items) then
        var names := seq(|items|, k requires 0 <= k < |items| => items[k].s);
        Ok(SubFrame(data.index, names, seq(|items|, k requires 0 <= k < |items| => data.columns[names[k]])))
      else Err(KeyError("not in index"))
    case _ => Err(KeyError("not in index"))
  }

  /** `series.count()`: the number of non-null cells. */
  function NonNullCount(values: seq<PyValue>): (n: nat)
    ensures n <= |values|
    ensures n == |values| <==> forall k :: 0 <= k < |values| ==> values[k] != PyNone
  {
    if values == [] then 0
    else NonNullCount(values[..|values| - 1]) + (if values[|values| - 1] == PyNone then 0 else 1)
  }

  /** `data.select_dtypes("number").columns`, in column order. */
  function NumericColumns(data: Frame): (r: seq<string>)
    ensures forall k :: 0 <= k < |r| ==> r[k] in data.names && r[k] in data.columns && data.columns[r[k]].numeric
    ensures forall n :: n in data.names && n in data.columns && data.columns[n].numeric ==> n in r
    ensures |r| <= |data.names|
    ensures forall a, b :: 0 <= a < b < |r| ==>
              exists i, j :: 0 <= i < j < |data.names| && data.names[i] == r[a] && data.names[j] == r[b]
    ensures forall a, b :: 0 <= a < b < |r| ==> r[a] != r[b]
  {
    NumericOfOrdered(data.names, data.columns);
    NumericOf(data.names, data.columns)
  }

  function NumericOf(names: seq<string>, columns: map<string, Column>): (r: seq<string>)
    ensures forall k :: 0 <= k < |r| ==> r[k] in names && r[k] in columns && columns[r[k]].numeric
    ensures forall n :: n in names && n in columns && columns[n].numeric ==> n in r
    ensures |r| <= |names|
  {
    if names == [] then []
    else
      var rest := NumericOf(names[..|names| - 1], columns);
      var n := names[|names| - 1];
      assert forall m :: m in names ==> m in names[..|names| - 1] || m == n;
      if n in columns && columns[n].numeric then rest + [n] else rest
  }

  /** The selected names keep their relative order in `names`. */
  lemma {:induction false} NumericOfOrdered(names: seq<string>, columns: map<string, Column>)
    ensures forall a, b :: 0 <= a < b < |NumericOf(names, columns)| ==>
              exists i, j :: 0 <= i < j < |names| && names[i] == NumericOf(names, columns)[a] && names[j] == NumericOf(names, columns)[b]
  {
    if names != [] {
      var last := |names| - 1;
      var init := names[..last];
      var rest := NumericOf(init, columns);
      NumericOfOrdered(init, columns);
      var r := NumericOf(names, columns);
      assert r == rest || r == rest + [names[last]];
      forall a, b | 0 <= a < b < |r|
        ensures exists i, j :: 0 <= i < j < |names| && names[i] == r[a] && names[j] == r[b]
      {
        if b < |rest| {
          var i, j :| 0 <= i < j < |init| && init[i] == rest[a] && init[j] == rest[b];
          assert names[i] == r[a] && names[j] == r[b];
        } else {
          assert rest[a] in init;
          var i :| 0 <= i < |init| && init[i] == rest[a];
          assert names[i] == r[a] && names[last] == r[b];
        }
      }
    } else {
      assert NumericOf(names, columns) == [];
    }
  }
}
