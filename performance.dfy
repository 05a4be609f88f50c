/** pulsar_metrics/metrics/performance.py: a performance metric on the target and prediction
    columns, with an optional bootstrap confidence interval. The sklearn scores, numpy's
    quantile and numpy's random generator are the routines of a `ScoreLibrary`. */
module Performance {
  import opened Common
  import opened PyValues
  import opened Frames
  import Enums
  import opened LegacyResults
  import Utils
  import MetricsBase

  /** performance.py declares its own registry; it lists the same twelve names as enums.py. */
  const LocalPerformanceNames: seq<string> :=
    ["accuracy", "precision", "recall", "f1", "log_loss", "auc", "aucpr", "brier", "mse", "mae", "mape", "r2"]

  /** The members of performance.py's `PerformanceMetricsFuncs`. */
  datatype PerformanceKind = Accuracy | Precision | Recall | F1 | LogLoss | Auc | AucPr | Brier | Mse | Mae | Mape | R2

  function PerformanceKindName(k: PerformanceKind): string {
    match k
    case Accuracy => "accuracy"
    case Precision => "precision"
    case Recall => "recall"
    case F1 => "f1"
    case LogLoss => "log_loss"
    case Auc => "auc"
    case AucPr => "aucpr"
    case Brier => "brier"
    case Mse => "mse"
    case Mae => "mae"
    case Mape => "mape"
    case R2 => "r2"
  }

  /** `PerformanceMetricsFuncs[name]`: the member of that name, if any. */
  function ParsePerformanceKind(name: string): (k: Option<PerformanceKind>)
    ensures k.Some? <==> name in LocalPerformanceNames
    ensures k.Some? ==> PerformanceKindName(k.value) == name
  {
    match name
    case "accuracy" => Some(Accuracy)
    case "precision" => Some(Precision)
    case "recall" => Some(Recall)
    case "f1" => Some(F1)
    case "log_loss" => Some(LogLoss)
    case "auc" => Some(Auc)
    case "aucpr" => Some(AucPr)
    case "brier" => Some(Brier)
    case "mse" => Some(Mse)
    case "mae" => Some(Mae)
    case "mape" => Some(Mape)
    case "r2" => Some(R2)
    case _ => None
  }

  /** Every member is found again under its own name. */
  lemma PerformanceKindRoundTrip(k: PerformanceKind)
    ensures ParsePerformanceKind(PerformanceKindName(k)) == Some(k)
  {
  }

  /** `PerformanceMetricsFuncs[name].value`; mape is bound to mean_absolute_error, as mae is. */
  function ScoreFunc(k: PerformanceKind): Enums.ScoreFunction {
    match k
    case Accuracy => Enums.AccuracyScore
    case Precision => Enums.PrecisionScore
    case Recall => Enums.RecallScore
    case F1 => Enums.F1Score
    case LogLoss => Enums.LogLoss
    case Auc => Enums.RocAucScore
    case AucPr => Enums.AveragePrecisionScore
    case Brier => Enums.BrierScoreLoss
    case Mse => Enums.MeanSquaredError
    case Mae => Enums.MeanAbsoluteError
    case Mape => Enums.MeanAbsoluteError
    case R2 => Enums.R2Score
  }

  /** The local registry is enums.py's, binding each name to the same routine. */
  lemma LocalRegistryIsEnums(name: string)
    ensures LocalPerformanceNames == Enums.PerformanceNames
    ensures name in LocalPerformanceNames ==> Enums.PerformanceFunc(name) == Some(ScoreFunc(ParsePerformanceKind(name).value))
  {
  }

  datatype ScoreLibrary = ScoreLibrary(
    score: (Enums.ScoreFunction, Selected, Selected, Kwargs) -> Result<real>,
    quantile: (seq<real>, real) -> Result<real>,  // np.quantile(values, q)
    seedAccepted: PyValue -> bool,                // whether np.random.default_rng(seed) accepts the seed
    draw: (PyValue, nat, nat) -> nat)             // raw output k of the call-th `integers` call of that generator

  /** `_check_metrics_name` */
  function CheckPerformanceName(name: string): (r: Outcome)
    ensures r.Pass? <==> name in LocalPerformanceNames
  {
    if name in LocalPerformanceNames then Pass
    else Fail(InvalidInput("unknown metric key '" + name + "' given. Should be one of ['accuracy', 'precision', 'recall', "
                           + "'f1', 'log_loss', 'auc', 'aucpr', 'brier', 'mse', 'mae', 'mape', 'r2']."))
  }

  /** Whether the keyword arguments bind `name` or `data` a second time: calling
      `PerformanceMetric(name=..., data=..., **kwargs)` with such keywords raises TypeError
      before the initialiser runs. */
  predicate KeywordClash(kwargs: Kwargs) {
    "name" in kwargs || "data" in kwargs
  }

  /** `PerformanceMetric(name, data, **kwargs)` as written: `super().__init__(name, data)`
      passes two arguments to the one-argument initialiser of metrics/base.py. */
  function PerformanceMetricAsWritten(name: string): Outcome {
    match MetricsBase.AbstractMetricsInit(name, 2)
    case Err(e) => Fail(e)
    case Ok(_) => CheckPerformanceName(name)
  }

  /** As written, every construction raises TypeError, even for a registered name such as
      accuracy; `NewPerformanceMetric` constructs with a one-argument base initialiser and
      succeeds for exactly the registered names. */
  lemma PerformanceConstructionRaisesAsWritten(name: string)
    ensures PerformanceMetricAsWritten(name) == Fail(TypeError)
  {
  }

  /** The name check alone would accept every registered name. */
  lemma RegisteredNamePassesCheck(k: PerformanceKind)
    ensures CheckPerformanceName(PerformanceKindName(k)) == Pass
  {
    PerformanceKindRoundTrip(k);
  }

  // ---------------------------------------------------------------------------------------
  // Bootstrap

  /** `rng.integers(low=0, high=n, size=n)` for the call-th call: n indices in [0, n). The
      generator's mapping of raw output to a bounded integer is abstracted as reduction mod n.
      A zero-size draw is empty whatever the bounds, so a frame without rows draws nothing. */
  function Indices(lib: ScoreLibrary, seed: PyValue, call: nat, n: nat): (idx: seq<nat>)
    ensures |idx| == n
    ensures forall k :: 0 <= k < n ==> idx[k] < n
  {
    seq(n, k requires 0 <= k < n => lib.draw(seed, call, k) % n)
  }

  /** Whether a row label equals the drawn integer i; pandas compares them as numbers, so
      3, 3.0 and True == 1 match and a string label never does. */
  predicate LabelMatches(entry: PyValue, i: int) {
    IsNumber(entry) && AsReal(entry) == i as real
  }

  /** Whether some row carries the label i. */
  predicate IsLabel(labels: seq<PyValue>, i: int) {
    exists p :: 0 <= p < |labels| && LabelMatches(labels[p], i)
  }

  /** Whether every drawn index labels some row. */
  predicate AllLabelled(labels: seq<PyValue>, indices: seq<nat>) {
    forall k :: 0 <= k < |indices| ==> IsLabel(labels, indices[k])
  }

  /** The index pandas gives a frame by default: row p is labelled p. */
  predicate DefaultIndex(labels: seq<PyValue>) {
    forall p :: 0 <= p < |labels| ==> labels[p] == PyInt(p)
  }

  /** The positions of the rows labelled i, in row order. */
  function Positions(labels: seq<PyValue>, i: int): (ps: seq<nat>)
    ensures forall j :: 0 <= j < |ps| ==> ps[j] < |labels|
  {
    if labels == [] then []
    else
      var last := |labels| - 1;
      Positions(labels[..last], i) + (if LabelMatches(labels[last], i) then [last] else [])
  }

  /** Positions lists exactly the rows labelled i, each once, in row order. */
  lemma PositionsExact(labels: seq<PyValue>, i: int)
    ensures var ps := Positions(labels, i);
            && (forall j :: 0 <= j < |ps| ==> LabelMatches(labels[ps[j]], i))
            && (forall p :: 0 <= p < |labels| && LabelMatches(labels[p], i) ==> p in ps)
            && (forall j1, j2 :: 0 <= j1 < j2 < |ps| ==> ps[j1] < ps[j2])
  {
    PositionsMatch(labels, i);
    PositionsComplete(labels, i);
    PositionsIncrease(labels, i);
  }

  lemma {:induction false} PositionsMatch(labels: seq<PyValue>, i: int)
    ensures forall j :: 0 <= j < |Positions(labels, i)| ==> LabelMatches(labels[Positions(labels, i)[j]], i)
  {
    if labels != [] {
      var last := |labels| - 1;
      var rest := Positions(labels[..last], i);
      PositionsMatch(labels[..last], i);
      assert forall j :: 0 <= j < |rest| ==> labels[..last][rest[j]] == labels[rest[j]];
    }
  }

  lemma {:induction false} PositionsComplete(labels: seq<PyValue>, i: int)
    ensures forall p :: 0 <= p < |labels| && LabelMatches(labels[p], i) ==> p in Positions(labels, i)
  {
    if labels != [] {
      var last := |labels| - 1;
      PositionsComplete(labels[..last], i);
      assert forall p :: 0 <= p < last ==> labels[..last][p] == labels[p];
    }
  }

  lemma {:induction false} PositionsIncrease(labels: seq<PyValue>, i: int)
    ensures forall j1, j2 :: 0 <= j1 < j2 < |Positions(labels, i)| ==> Positions(labels, i)[j1] < Positions(labels, i)[j2]
  {
    if labels != [] {
      PositionsIncrease(labels[..|labels| - 1], i);
    }
  }

  /** The row positions `.loc[indices]` selects: for each index in turn, every row carrying it. */
  function Picks(labels: seq<PyValue>, indices: seq<nat>): (ps: seq<nat>)
    ensures forall j :: 0 <= j < |ps| ==> ps[j] < |labels|
  {
    if indices == [] then []
    else Picks(labels, indices[..|indices| - 1]) + Positions(labels, indices[|indices| - 1])
  }

  function TakeColumn(c: Column, ps: seq<nat>): (r: Column)
    requires forall j :: 0 <= j < |ps| ==> ps[j] < |c.values|
    ensures r.numeric == c.numeric && |r.values| == |ps|
    ensures forall j :: 0 <= j < |ps| ==> r.values[j] == c.values[ps[j]]
  {
    Column(c.numeric, seq(|ps|, j requires 0 <= j < |ps| => c.values[ps[j]]))
  }

  /** The rows at positions ps, in that order, with their labels. */
  function Rows(s: Selected, ps: seq<nat>): (r: Selected)
    requires forall j :: 0 <= j < |ps| ==> ps[j] < |s.labels|
    ensures r.Series? == s.Series? && |r.labels| == |ps|
  {
    var labels := seq(|ps|, j requires 0 <= j < |ps| => s.labels[ps[j]]);
    match s
    case Series(_, column) => Series(labels, TakeColumn(column, ps))
    case SubFrame(_, names, columns) =>
      SubFrame(labels, names, seq(|columns|, c requires 0 <= c < |columns| => TakeColumn(columns[c], ps)))
  }

  /** Row j of the taken rows is row ps[j] of the selection: its label and, in every column,
      its cell; a sub-frame keeps its column names. */
  lemma RowsAt(s: Selected, ps: seq<nat>)
    requires forall j :: 0 <= j < |ps| ==> ps[j] < |s.labels|
    ensures var r := Rows(s, ps);
            && (forall j :: 0 <= j < |ps| ==> r.labels[j] == s.labels[ps[j]])
            && (s.Series? ==> r.column.numeric == s.column.numeric
                              && forall j :: 0 <= j < |ps| ==> r.column.values[j] == s.column.values[ps[j]])
            && (s.SubFrame? ==> r.names == s.names && |r.columns| == |s.columns|
                                && forall c, j :: 0 <= c < |s.columns| && 0 <= j < |ps| ==> r.columns[c].values[j] == s.columns[c].values[ps[j]])
  {
  }

  /** `y.loc[indices]`: the rows labelled by each drawn index in turn; an index that labels no
      row raises KeyError. */
  function Resample(s: Selected, indices: seq<nat>): (r: Result<Selected>)
    ensures r.Ok? <==> AllLabelled(s.labels, indices)
    ensures r.Ok? ==> r.value == Rows(s, Picks(s.labels, indices))
    ensures r.Err? ==> r.error.KeyError?
  {
    if AllLabelled(s.labels, indices) then Ok(Rows(s, Picks(s.labels, indices)))
    else Err(KeyError("not in index"))
  }

  /** On the default index the label i is carried by row i alone. */
  lemma {:induction false} PositionsOnDefaultIndex(labels: seq<PyValue>, i: nat, m: nat)
    requires DefaultIndex(labels) && m <= |labels|
    ensures Positions(labels[..m], i) == if i < m then [i] else []
  {
    if m > 0 {
      PositionsOnDefaultIndex(labels, i, m - 1);
      assert labels[..m][..m - 1] == labels[..m - 1];
    }
  }

  /** On the default index `.loc[indices]` selects the rows at those positions. */
  lemma {:induction false} PicksOnDefaultIndex(labels: seq<PyValue>, indices: seq<nat>)
    requires DefaultIndex(labels)
    requires forall k :: 0 <= k < |indices| ==> indices[k] < |labels|
    ensures Picks(labels, indices) == indices
  {
    if indices != [] {
      var init, last := indices[..|indices| - 1], indices[|indices| - 1];
      assert Picks(labels, indices) == Picks(labels, init) + Positions(labels, last);
      assert forall k :: 0 <= k < |init| ==> init[k] == indices[k];
      PicksOnDefaultIndex(labels, init);
      PositionOfDefaultLabel(labels, last);
      assert init + [last] == indices;
    }
  }

  /** On the default index the label of row i is carried by row i alone. */
  lemma PositionOfDefaultLabel(labels: seq<PyValue>, i: nat)
    requires DefaultIndex(labels) && i < |labels|
    ensures Positions(labels, i) == [i]
  {
    PositionsOnDefaultIndex(labels, i, |labels|);
    assert labels[..|labels|] == labels;
  }

  /** On the default index, resampling at positions within the rows succeeds and takes the
      rows at exactly those positions. */
  lemma ResampleOnDefaultIndex(s: Selected, indices: seq<nat>)
    requires DefaultIndex(s.labels)
    requires forall k :: 0 <= k < |indices| ==> indices[k] < |s.labels|
    ensures Resample(s, indices) == Ok(Rows(s, indices))
  {
    forall k | 0 <= k < |indices|
      ensures IsLabel(s.labels, indices[k])
    {
      assert LabelMatches(s.labels[indices[k]], indices[k]);
    }
    PicksOnDefaultIndex(s.labels, indices);
  }

  /** Every row of a resample is a row whose label is one of the drawn indices, and every
      drawn index contributes at least one row. */
  lemma {:induction false} ResampledRowsAreDrawn(labels: seq<PyValue>, indices: seq<nat>)
    requires forall k :: 0 <= k < |indices| ==> IsLabel(labels, indices[k])
    ensures |Picks(labels, indices)| >= |indices|
    ensures forall j :: 0 <= j < |Picks(labels, indices)| ==>
              exists k :: 0 <= k < |indices| && LabelMatches(labels[Picks(labels, indices)[j]], indices[k])
  {
    if indices != [] {
      var init := indices[..|indices| - 1];
      var last := indices[|indices| - 1];
      ResampledRowsAreDrawn(labels, init);
      var rest := Picks(labels, init);
      var here := Positions(labels, last);
      PositionsExact(labels, last);
      var p :| 0 <= p < |labels| && LabelMatches(labels[p], last);
      assert p in here;
      forall j | 0 <= j < |rest| + |here|
        ensures exists k :: 0 <= k < |indices| && LabelMatches(labels[(rest + here)[j]], indices[k])
      {
        if j < |rest| {
          var k :| 0 <= k < |init| && LabelMatches(labels[rest[j]], init[k]);
          assert init[k] == indices[k];
        } else {
          assert LabelMatches(labels[here[j - |rest|]], indices[|indices| - 1]);
        }
      }
    }
  }

  /** The score on the call-th resample. */
  function ResampledScore(lib: ScoreLibrary, f: Enums.ScoreFunction, yTrue: Selected, yPred: Selected, n: nat, seed: PyValue, call: nat, kwargs: Kwargs): Result<real> {
    var idx := Indices(lib, seed, call, n);
    match Resample(yTrue, idx)
    case Err(e) => Err(e)
    case Ok(t) =>
      match Resample(yPred, idx)
      case Err(e) => Err(e)
      case Ok(p) => lib.score(f, t, p, kwargs)
  }

  /** The score of every resample, by call number. */
  function Scores(lib: ScoreLibrary, f: Enums.ScoreFunction, yTrue: Selected, yPred: Selected, n: nat, seed: PyValue, kwargs: Kwargs): nat -> Result<real> {
    (call: nat) => ResampledScore(lib, f, yTrue, yPred, n, seed, call, kwargs)
  }

  /** The scores of the first `count` resamples, in order, or the first exception. */
  function BootstrapValues(scores: nat -> Result<real>, count: nat): Result<seq<real>> {
    if count == 0 then Ok([])
    else
      match BootstrapValues(scores, count - 1)
      case Err(e) => Err(e)
      case Ok(values) =>
        match scores(count - 1)
        case Err(e) => Err(e)
        case Ok(v) => Ok(values + [v])
  }

  /** `range(n_bootstrap)`: how many times the loop runs. */
  function Repetitions(nBootstrap: PyValue): Result<nat> {
    match nBootstrap
    case PyInt(i) => Ok(if i < 0 then 0 else i)
    case PyBool(b) => Ok(if b then 1 else 0)
    case _ => Err(TypeError)
  }

  /** `_bootstrap(n_bootstrap, seed, alpha, **kwargs)`: the [alpha/2, 1 - alpha/2] empirical
      quantiles of the resampled scores. */
  function BootstrapInterval(lib: ScoreLibrary, f: Enums.ScoreFunction, yTrue: Selected, yPred: Selected, n: nat,
                             nBootstrap: PyValue, seed: PyValue, alpha: PyValue, kwargs: Kwargs): Result<seq<real>> {
    if !lib.seedAccepted(seed) then Err(LibraryError)
    else
      match Repetitions(nBootstrap)
      case Err(e) => Err(e)
      case Ok(count) =>
        match BootstrapValues(Scores(lib, f, yTrue, yPred, n, seed, kwargs), count)
        case Err(e) => Err(e)
        case Ok(values) => QuantileBounds(lib, values, alpha)
  }

  /** `[np.quantile(values, alpha / 2), np.quantile(values, 1 - alpha / 2)]`. */
  function QuantileBounds(lib: ScoreLibrary, values: seq<real>, alpha: PyValue): Result<seq<real>> {
    if !IsNumber(alpha) then Err(TypeError)
    else
      match lib.quantile(values, AsReal(alpha) / 2.0)
      case Err(e) => Err(e)
      case Ok(low) =>
        match lib.quantile(values, 1.0 - AsReal(alpha) / 2.0)
        case Err(e) => Err(e)
        case Ok(high) => Ok([low, high])
  }

  /** The bootstrap collects exactly one score per repetition, the i-th from the i-th resample. */
  lemma {:induction false} BootstrapCollectsOnePerRepetition(scores: nat -> Result<real>, count: nat)
    requires BootstrapValues(scores, count).Ok?
    ensures var values := BootstrapValues(scores, count).value;
            && |values| == count
            && forall i :: 0 <= i < count ==> scores(i) == Ok(values[i])
  {
    if count > 0 {
      BootstrapCollectsOnePerRepetition(scores, count - 1);
    }
  }

  /** The first failing resample ends the bootstrap with its exception. */
  lemma {:induction false} BootstrapFailsAt(scores: nat -> Result<real>, i: nat, count: nat)
    requires i < count
    requires BootstrapValues(scores, i).Ok?
    requires scores(i).Err?
    ensures BootstrapValues(scores, count) == Err(scores(i).error)
  {
    if count > i + 1 {
      BootstrapFailsAt(scores, i, count - 1);
    }
  }

  /** Without rows every resample is empty: `.loc[[]]` selects no row of either column, and
      the score routine is called on the two empty selections. */
  lemma NoRowsScoresEmpty(lib: ScoreLibrary, f: Enums.ScoreFunction, yTrue: Selected, yPred: Selected, seed: PyValue, call: nat, kwargs: Kwargs)
    ensures ResampledScore(lib, f, yTrue, yPred, 0, seed, call, kwargs) == lib.score(f, Rows(yTrue, []), Rows(yPred, []), kwargs)
  {
    var idx := Indices(lib, seed, call, 0);
    assert idx == [];
    assert AllLabelled(yTrue.labels, idx) && AllLabelled(yPred.labels, idx);
    assert Resample(yTrue, idx) == Ok(Rows(yTrue, []));
    assert Resample(yPred, idx) == Ok(Rows(yPred, []));
  }

  /** On the default index each resample draws n = row-count indices, with replacement, from
      [0, n), and takes the target and prediction rows at those positions. */
  lemma ResampleDrawsRows(lib: ScoreLibrary, yTrue: Selected, yPred: Selected, n: nat, seed: PyValue, call: nat)
    requires |yTrue.labels| == n && DefaultIndex(yTrue.labels) && |yPred.labels| == n && DefaultIndex(yPred.labels)
    ensures var idx := Indices(lib, seed, call, n);
            Resample(yTrue, idx) == Ok(Rows(yTrue, idx)) && Resample(yPred, idx) == Ok(Rows(yPred, idx))
  {
    var idx := Indices(lib, seed, call, n);
    ResampleOnDefaultIndex(yTrue, idx);
    ResampleOnDefaultIndex(yPred, idx);
  }

  /** When no row is labelled by any of 0 .. n-1, as after filtering away the first n rows or
      re-indexing by strings, every resample raises KeyError, and with it any bootstrap that
      runs at least once. */
  lemma ForeignIndexFailsBootstrap(lib: ScoreLibrary, f: Enums.ScoreFunction, yTrue: Selected, yPred: Selected,
                                   n: nat, seed: PyValue, count: nat, kwargs: Kwargs)
    requires n > 0 && count > 0
    requires forall i :: 0 <= i < n ==> !IsLabel(yTrue.labels, i)
    ensures forall call :: ResampledScore(lib, f, yTrue, yPred, n, seed, call, kwargs).Err?
                           && ResampledScore(lib, f, yTrue, yPred, n, seed, call, kwargs).error.KeyError?
    ensures BootstrapValues(Scores(lib, f, yTrue, yPred, n, seed, kwargs), count).Err?
            && BootstrapValues(Scores(lib, f, yTrue, yPred, n, seed, kwargs), count).error.KeyError?
  {
    forall call
      ensures ResampledScore(lib, f, yTrue, yPred, n, seed, call, kwargs).Err?
              && ResampledScore(lib, f, yTrue, yPred, n, seed, call, kwargs).error.KeyError?
    {
      var idx := Indices(lib, seed, call, n);
      assert !IsLabel(yTrue.labels, idx[0]);
    }
    BootstrapFailsAt(Scores(lib, f, yTrue, yPred, n, seed, kwargs), 0, count);
  }

  /** The interval is the pair of alpha/2 and 1 - alpha/2 quantiles of the collected scores. */
  lemma IntervalIsQuantilePair(lib: ScoreLibrary, f: Enums.ScoreFunction, yTrue: Selected, yPred: Selected, n: nat,
                               nBootstrap: PyValue, seed: PyValue, alpha: PyValue, kwargs: Kwargs)
    requires BootstrapInterval(lib, f, yTrue, yPred, n, nBootstrap, seed, alpha, kwargs).Ok?
    ensures IsNumber(alpha) && Repetitions(nBootstrap).Ok?
    ensures Repetitions(nBootstrap).value > 0 && n == 0 ==> lib.score(f, Rows(yTrue, []), Rows(yPred, []), kwargs).Ok?
    ensures var values := BootstrapValues(Scores(lib, f, yTrue, yPred, n, seed, kwargs), Repetitions(nBootstrap).value);
            && values.Ok?
            && |values.value| == Repetitions(nBootstrap).value
            && BootstrapInterval(lib, f, yTrue, yPred, n, nBootstrap, seed, alpha, kwargs).value
               == [lib.quantile(values.value, AsReal(alpha) / 2.0).value, lib.quantile(values.value, 1.0 - AsReal(alpha) / 2.0).value]
  {
    assert lib.seedAccepted(seed) && Repetitions(nBootstrap).Ok?;
    var values := BootstrapValues(Scores(lib, f, yTrue, yPred, n, seed, kwargs), Repetitions(nBootstrap).value);
    assert values.Ok? && BootstrapInterval(lib, f, yTrue, yPred, n, nBootstrap, seed, alpha, kwargs) == QuantileBounds(lib, values.value, alpha);
    BootstrapCollectsOnePerRepetition(Scores(lib, f, yTrue, yPred, n, seed, kwargs), Repetitions(nBootstrap).value);
    if Repetitions(nBootstrap).value > 0 && n == 0 {
      NoRowsScoresEmpty(lib, f, yTrue, yPred, seed, 0, kwargs);
    }
  }

  // ---------------------------------------------------------------------------------------
  // Evaluation

  /** The keywords `evaluate` names; the rest go to the score routine. */
  const EvaluateKeywords: set<string> := {"bootstrap", "n_bootstrap", "alpha", "seed", "threshold"}

  /** `evaluate(bootstrap=False, n_bootstrap=100, alpha=0.05, seed=123, threshold=None, **kwargs)`;
      `None` when an exception was swallowed. */
  function PerformanceOutcome(kind: PerformanceKind, yTrue: Option<Selected>, yPred: Option<Selected>, rows: nat,
                              kwargs: Kwargs, lib: ScoreLibrary): Option<LegacyResult> {
    if yTrue.None? || yPred.None? then None
    else
      var threshold := Get(kwargs, "threshold", PyNone);
      var extra := kwargs - EvaluateKeywords;
      match lib.score(ScoreFunc(kind), yTrue.value, yPred.value, extra)
      case Err(_) => None
      case Ok(value) =>
        var confInt :=
          if Truthy(Get(kwargs, "bootstrap", PyBool(false))) then
            BootstrapInterval(lib, ScoreFunc(kind), yTrue.value, yPred.value, rows, Get(kwargs, "n_bootstrap", PyInt(100)),
                              Get(kwargs, "seed", PyInt(123)), Get(kwargs, "alpha", PyFloat(0.05)), extra)
          else Ok([]);
        if confInt.Err? then None
        else
          Some(LegacyResult(PerformanceKindName(kind), "performance", "prediction", value,
                            if Truthy(Get(kwargs, "bootstrap", PyBool(false))) then Some(confInt.value) else None,
                            UpperStatus(value, threshold), threshold))
  }

  /** A performance result: type performance, feature "prediction", the threshold echoed, and a
      status that is `value < threshold` for a numeric threshold and None otherwise. Unlike the
      threshold policy, an interval is not judged and `upper_bound` plays no part. */
  lemma PerformanceResultMeaning(kind: PerformanceKind, yTrue: Option<Selected>, yPred: Option<Selected>, rows: nat, kwargs: Kwargs, lib: ScoreLibrary)
    requires PerformanceOutcome(kind, yTrue, yPred, rows, kwargs, lib).Some?
    ensures var r := PerformanceOutcome(kind, yTrue, yPred, rows, kwargs, lib).value;
            var threshold := Get(kwargs, "threshold", PyNone);
            && yTrue.Some? && yPred.Some?
            && r.metricName == PerformanceKindName(kind) && r.resultType == "performance" && r.feature == "prediction"
            && r.threshold == threshold
            && Ok(r.value) == lib.score(ScoreFunc(kind), yTrue.value, yPred.value, kwargs - EvaluateKeywords)
            && (IsNumber(threshold) ==> Utils.CompareToThreshold(PyFloat(r.value), threshold, PyBool(true)) == Ok(r.status))
            && (!IsNumber(threshold) ==> r.status == None)
  {
  }

  /** On a frame whose rows carry none of the labels 0 .. rows-1, asking for a bootstrap of at
      least one repetition makes `evaluate` swallow the resample's KeyError and return None. */
  lemma ForeignIndexSwallowed(kind: PerformanceKind, yTrue: Selected, yPred: Selected, rows: nat, kwargs: Kwargs, lib: ScoreLibrary)
    requires rows > 0
    requires forall i :: 0 <= i < rows ==> !IsLabel(yTrue.labels, i)
    requires Truthy(Get(kwargs, "bootstrap", PyBool(false)))
    requires lib.seedAccepted(Get(kwargs, "seed", PyInt(123)))
    requires Repetitions(Get(kwargs, "n_bootstrap", PyInt(100))).Ok? && Repetitions(Get(kwargs, "n_bootstrap", PyInt(100))).value > 0
    ensures PerformanceOutcome(kind, Some(yTrue), Some(yPred), rows, kwargs, lib) == None
  {
    ForeignIndexFailsBootstrap(lib, ScoreFunc(kind), yTrue, yPred, rows, Get(kwargs, "seed", PyInt(123)),
                               Repetitions(Get(kwargs, "n_bootstrap", PyInt(100))).value, kwargs - EvaluateKeywords);
  }

  /** Apart from mape, which is bound to the mean absolute error, distinct metrics are bound
      to distinct scoring routines. */
  lemma ScoreFuncInjective(k1: PerformanceKind, k2: PerformanceKind)
    requires ScoreFunc(k1) == ScoreFunc(k2)
    ensures k1 == k2 || {k1, k2} == {Mae, Mape}
  {
  }

  /** Asking for mape computes exactly what asking for mae computes; only the reported name
      differs. */
  lemma MapeReportsMae(yTrue: Option<Selected>, yPred: Option<Selected>, rows: nat, kwargs: Kwargs, lib: ScoreLibrary)
    ensures var mape := PerformanceOutcome(Mape, yTrue, yPred, rows, kwargs, lib);
            var mae := PerformanceOutcome(Mae, yTrue, yPred, rows, kwargs, lib);
            && (mape.Some? <==> mae.Some?)
            && (mape.Some? ==> mape.value == mae.value.(metricName := "mape"))
  {
  }

  /** conf_int is None unless `bootstrap` is truthy; then it is the bootstrap interval, of two
      quantiles of exactly n_bootstrap resampled scores. */
  lemma ConfIntOnlyWithBootstrap(kind: PerformanceKind, yTrue: Option<Selected>, yPred: Option<Selected>, rows: nat, kwargs: Kwargs, lib: ScoreLibrary)
    requires PerformanceOutcome(kind, yTrue, yPred, rows, kwargs, lib).Some?
    ensures var r := PerformanceOutcome(kind, yTrue, yPred, rows, kwargs, lib).value;
            && (r.confInt.Some? <==> Truthy(Get(kwargs, "bootstrap", PyBool(false))))
            && (r.confInt.Some? ==>
                  var interval := BootstrapInterval(lib, ScoreFunc(kind), yTrue.value, yPred.value, rows,
                                                    Get(kwargs, "n_bootstrap", PyInt(100)), Get(kwargs, "seed", PyInt(123)),
                                                    Get(kwargs, "alpha", PyFloat(0.05)), kwargs - EvaluateKeywords);
                  interval.Ok? && r.confInt.value == interval.value && |r.confInt.value| == 2)
  {
  }

  /** Once every resample has been scored, the interval exists exactly when both quantiles do. */
  lemma IntervalOfCollectedScores(lib: ScoreLibrary, f: Enums.ScoreFunction, yTrue: Selected, yPred: Selected, n: nat,
                                  nBootstrap: PyValue, seed: PyValue, alpha: PyValue, kwargs: Kwargs)
    requires lib.seedAccepted(seed) && Repetitions(nBootstrap).Ok? && IsNumber(alpha)
    requires BootstrapValues(Scores(lib, f, yTrue, yPred, n, seed, kwargs), Repetitions(nBootstrap).value).Ok?
    ensures BootstrapInterval(lib, f, yTrue, yPred, n, nBootstrap, seed, alpha, kwargs).Ok?
        <==> (var values := BootstrapValues(Scores(lib, f, yTrue, yPred, n, seed, kwargs), Repetitions(nBootstrap).value).value;
              lib.quantile(values, AsReal(alpha) / 2.0).Ok? && lib.quantile(values, 1.0 - AsReal(alpha) / 2.0).Ok?)
    ensures BootstrapInterval(lib, f, yTrue, yPred, n, nBootstrap, seed, alpha, kwargs).Ok? ==>
              (var values := BootstrapValues(Scores(lib, f, yTrue, yPred, n, seed, kwargs), Repetitions(nBootstrap).value).value;
               BootstrapInterval(lib, f, yTrue, yPred, n, nBootstrap, seed, alpha, kwargs).value
               == [lib.quantile(values, AsReal(alpha) / 2.0).value, lib.quantile(values, 1.0 - AsReal(alpha) / 2.0).value])
  {
  }

  /** With the defaults, the bootstrap makes 100 resamples seeded with 123 and bounds the
      interval by the 0.025 and 0.975 quantiles of their scores. */
  lemma DefaultBootstrap(lib: ScoreLibrary, f: Enums.ScoreFunction, yTrue: Selected, yPred: Selected, n: nat, kwargs: Kwargs, values: seq<real>)
    requires lib.seedAccepted(PyInt(123))
    requires BootstrapValues(Scores(lib, f, yTrue, yPred, n, PyInt(123), kwargs), 100) == Ok(values)
    ensures BootstrapInterval(lib, f, yTrue, yPred, n, PyInt(100), PyInt(123), PyFloat(0.05), kwargs).Ok?
        <==> lib.quantile(values, 0.025).Ok? && lib.quantile(values, 0.975).Ok?
    ensures BootstrapInterval(lib, f, yTrue, yPred, n, PyInt(100), PyInt(123), PyFloat(0.05), kwargs).Ok? ==>
              BootstrapInterval(lib, f, yTrue, yPred, n, PyInt(100), PyInt(123), PyFloat(0.05), kwargs).value
              == [lib.quantile(values, 0.025).value, lib.quantile(values, 0.975).value]
  {
    DefaultBootstrapAt(lib, f, yTrue, yPred, n, kwargs, values, PyInt(100), PyInt(123), PyFloat(0.05));
  }

  /** `DefaultBootstrap` with the three defaults bound to parameters, so the interval is unfolded
      once rather than evaluated at the literal arguments. */
  lemma DefaultBootstrapAt(lib: ScoreLibrary, f: Enums.ScoreFunction, yTrue: Selected, yPred: Selected, n: nat, kwargs: Kwargs, values: seq<real>,
                           nBootstrap: PyValue, seed: PyValue, alpha: PyValue)
    requires nBootstrap == PyInt(100) && seed == PyInt(123) && alpha == PyFloat(0.05)
    requires lib.seedAccepted(seed)
    requires BootstrapValues(Scores(lib, f, yTrue, yPred, n, seed, kwargs), 100) == Ok(values)
    ensures BootstrapInterval(lib, f, yTrue, yPred, n, nBootstrap, seed, alpha, kwargs).Ok?
        <==> lib.quantile(values, 0.025).Ok? && lib.quantile(values, 0.975).Ok?
    ensures BootstrapInterval(lib, f, yTrue, yPred, n, nBootstrap, seed, alpha, kwargs).Ok? ==>
              BootstrapInterval(lib, f, yTrue, yPred, n, nBootstrap, seed, alpha, kwargs).value
              == [lib.quantile(values, 0.025).value, lib.quantile(values, 0.975).value]
  {
    IntervalFromValues(lib, f, yTrue, yPred, n, nBootstrap, seed, alpha, kwargs, 100, values);
    DefaultQuantileBounds(lib, values);
  }

  /** Once the scores are collected, the interval is the quantile pair of them. */
  lemma IntervalFromValues(lib: ScoreLibrary, f: Enums.ScoreFunction, yTrue: Selected, yPred: Selected, n: nat,
                           nBootstrap: PyValue, seed: PyValue, alpha: PyValue, kwargs: Kwargs, count: nat, values: seq<real>)
    requires lib.seedAccepted(seed) && Repetitions(nBootstrap) == Ok(count)
    requires BootstrapValues(Scores(lib, f, yTrue, yPred, n, seed, kwargs), count) == Ok(values)
    ensures BootstrapInterval(lib, f, yTrue, yPred, n, nBootstrap, seed, alpha, kwargs) == QuantileBounds(lib, values, alpha)
  {
  }

  /** With the default alpha of 0.05 the bounds are the 0.025 and 0.975 quantiles. */
  lemma DefaultQuantileBounds(lib: ScoreLibrary, values: seq<real>)
    ensures QuantileBounds(lib, values, PyFloat(0.05)).Ok? <==> lib.quantile(values, 0.025).Ok? && lib.quantile(values, 0.975).Ok?
    ensures QuantileBounds(lib, values, PyFloat(0.05)).Ok? ==>
              QuantileBounds(lib, values, PyFloat(0.05)).value == [lib.quantile(values, 0.025).value, lib.quantile(values, 0.975).value]
  {
    assert AsReal(PyFloat(0.05)) / 2.0 == 0.025 && 1.0 - 0.025 == 0.975;
  }

  class PerformanceMetric {
    const kind: PerformanceKind     // the member `_name` names
    const yTrue: Option<Selected>   // `_y_true`, unassigned when the target lookup raises
    const yPred: Option<Selected>   // `_y_pred`
    const rows: nat                 // `_data.shape[0]`
    var result: Option<LegacyResult>

    /** The part of `PerformanceMetric(name, data, **kwargs)` after the name check: the target
        and prediction columns (default "y_true" and "y_pred"); a missing one is swallowed,
        and the target is looked up first. */
    constructor (kind: PerformanceKind, data: Frame, kwargs: Kwargs)
      ensures this.kind == kind && rows == data.rows && result == None
      ensures yTrue == ColumnFor(data, kwargs, "y_name", "y_true")
      ensures yPred == (if yTrue.None? then None else ColumnFor(data, kwargs, "pred_name", "y_pred"))
    {
      this.kind := kind;
      rows := data.rows;
      var t := ColumnFor(data, kwargs, "y_name", "y_true");
      yTrue := t;
      yPred := if t.None? then None else ColumnFor(data, kwargs, "pred_name", "y_pred");
      result := None;
    }

    /** `evaluate(**kwargs)`: a success overwrites `_result` and returns it; a failure is
        swallowed, returns None and leaves `_result` as it was. */
    method Evaluate(kwargs: Kwargs, lib: ScoreLibrary) returns (r: Option<LegacyResult>)
      modifies this
      ensures r == PerformanceOutcome(kind, yTrue, yPred, rows, kwargs, lib)
      ensures result == (if r.Some? then r else old(result))
    {
      if yTrue.None? || yPred.None? {
        return None;
      }
      var bootstrap := Get(kwargs, "bootstrap", PyBool(false));
      var threshold := Get(kwargs, "threshold", PyNone);
      var extra := kwargs - EvaluateKeywords;
      var value := lib.score(ScoreFunc(kind), yTrue.value, yPred.value, extra);
      if value.Err? {
        return None;
      }
      var confInt: Option<seq<real>> := None;
      if Truthy(bootstrap) {
        var interval := Bootstrap(Get(kwargs, "n_bootstrap", PyInt(100)), Get(kwargs, "seed", PyInt(123)),
                                  Get(kwargs, "alpha", PyFloat(0.05)), extra, lib);
        if interval.Err? {
          return None;
        }
        confInt := Some(interval.value);
      }
      var status := if IsNumber(threshold) then Some(value.value < AsReal(threshold)) else None;
      result := Some(LegacyResult(PerformanceKindName(kind), "performance", "prediction", value.value, confInt, status, threshold));
      r := result;
    }

    /** `_bootstrap(n_bootstrap, seed, alpha, **kwargs)`: draws n_bootstrap resamples of the
        rows from a generator seeded with `seed`, scores each, and returns the quantile pair. */
    method Bootstrap(nBootstrap: PyValue, seed: PyValue, alpha: PyValue, kwargs: Kwargs, lib: ScoreLibrary) returns (r: Result<seq<real>>)
      requires yTrue.Some? && yPred.Some?
      ensures r == BootstrapInterval(lib, ScoreFunc(kind), yTrue.value, yPred.value, rows, nBootstrap, seed, alpha, kwargs)
    {
      if !lib.seedAccepted(seed) {
        return Err(LibraryError);
      }
      var repetitions := Repetitions(nBootstrap);
      if repetitions.Err? {
        return Err(repetitions.error);
      }
      var collected := Collect(repetitions.value, seed, kwargs, lib);
      if collected.Err? {
        return Err(collected.error);
      }
      r := QuantileBounds(lib, collected.value, alpha);
    }

    /** The loop of `_bootstrap`: `count` resamples of the rows, each scored, stopping at the
        first exception. */
    method Collect(count: nat, seed: PyValue, kwargs: Kwargs, lib: ScoreLibrary) returns (r: Result<seq<real>>)
      requires yTrue.Some? && yPred.Some?
      ensures r == BootstrapValues(Scores(lib, ScoreFunc(kind), yTrue.value, yPred.value, rows, seed, kwargs), count)
    {
      ghost var scores := Scores(lib, ScoreFunc(kind), yTrue.value, yPred.value, rows, seed, kwargs);
      var values: seq<real> := [];
      var i := 0;
      while i < count
        invariant 0 <= i <= count
        invariant BootstrapValues(scores, i) == Ok(values)
      {
        var score := Resampled(rows, seed, i, kwargs, lib);
        if score.Err? {
          BootstrapFailsAt(scores, i, count);
          return Err(score.error);
        }
        values := values + [score.value];
        i := i + 1;
      }
      r := Ok(values);
    }

    /** One repetition of `_bootstrap`'s loop: draw n row indices, resample both columns at
        them and score the resample. */
    method Resampled(n: nat, seed: PyValue, call: nat, kwargs: Kwargs, lib: ScoreLibrary) returns (score: Result<real>)
      requires yTrue.Some? && yPred.Some?
      ensures score == Scores(lib, ScoreFunc(kind), yTrue.value, yPred.value, n, seed, kwargs)(call)
    {
      assert Scores(lib, ScoreFunc(kind), yTrue.value, yPred.value, n, seed, kwargs)(call)
          == ResampledScore(lib, ScoreFunc(kind), yTrue.value, yPred.value, n, seed, call, kwargs);
      var indices := Indices(lib, seed, call, n);
      var t := Resample(yTrue.value, indices);
      if t.Err? {
        return Err(t.error);
      }
      var p := Resample(yPred.value, indices);
      if p.Err? {
        return Err(p.error);
      }
      score := lib.score(ScoreFunc(kind), t.value, p.value, kwargs);
    }
  }

  /** `data[kwargs.get(option, default)]`, or unassigned when the lookup raises: by default
      the column named `default`, and with the option a column name or a list of them. */
  function ColumnFor(data: Frame, kwargs: Kwargs, option: string, default: string): (c: Option<Selected>)
    ensures c.Some? <==> Select(data, Get(kwargs, option, PyStr(default))).Ok?
    ensures c.Some? ==> c.value == Select(data, Get(kwargs, option, PyStr(default))).value
    ensures option !in kwargs ==> (c.Some? <==> default in data.columns)
                                  && (c.Some? ==> c.value == Series(data.index, data.columns[default]))
  {
    var col := Select(data, Get(kwargs, option, PyStr(default)));
    if col.Ok? then Some(col.value) else None
  }

  /** `PerformanceMetric(name, data, **kwargs)`: the name check runs before the guarded column
      lookups, so an unknown name raises while missing columns do not. */
  method NewPerformanceMetric(name: string, data: Frame, kwargs: Kwargs) returns (r: Result<PerformanceMetric>)
    ensures r.Err? <==> KeywordClash(kwargs) || name !in LocalPerformanceNames
    ensures r.Ok? <==> !KeywordClash(kwargs) && ParsePerformanceKind(name).Some?
    ensures KeywordClash(kwargs) ==> r == Err(TypeError)
    ensures !KeywordClash(kwargs) && r.Err? ==> r.error == CheckPerformanceName(name).error
    ensures r.Ok? ==> fresh(r.value) && r.value.kind == ParsePerformanceKind(name).value && r.value.rows == data.rows && r.value.result == None
                      && r.value.yTrue == ColumnFor(data, kwargs, "y_name", "y_true")
                      && r.value.yPred == (if r.value.yTrue.None? then None else ColumnFor(data, kwargs, "pred_name", "y_pred"))
  {
    if KeywordClash(kwargs) {
      return Err(TypeError);
    }
    var check := CheckPerformanceName(name);
    if check.Fail? {
      return Err(check.error);
    }
    var metric := new PerformanceMetric(ParsePerformanceKind(name).value, data, kwargs);
    r := Ok(metric);
  }
}
