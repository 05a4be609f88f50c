/** pulsar_metrics/metrics/enums.py: the metric kinds and the three name registries, each
    binding a metric name to the library routine that computes it. Member names are kept in
    declaration order, as `Enum._member_names_` lists them. */
module Enums {
  import opened Common

  const MetricsTypeNames: seq<string> := ["performance", "drift", "custom", "statistics"]

  const DriftNames: seq<string> := ["kl", "psi", "wasserstein"]

  const DriftTestNames: seq<string> := ["ttest", "manwu", "levene", "bftest", "ks_2samp", "CvM", "chi2"]

  const PerformanceNames: seq<string> :=
    ["accuracy", "precision", "recall", "f1", "log_loss", "auc", "aucpr", "brier", "mse", "mae", "mape", "r2"]

  /** The routines a drift value metric can be bound to. */
  datatype DriftFunction = KlDivergence | Psi | WassersteinDistance

  /** The `center` argument given to scipy's levene. */
  datatype Center = Mean | Median

  /** The scipy tests a drift test metric can be bound to, with their fixed arguments. */
  datatype TestFunction =
    | TTestInd(equalVar: bool)
    | MannWhitneyU
    | Levene(center: Center)
    | KolmogorovSmirnov2Samp
    | CramerVonMises2Samp
    | ChiSquare

  /** The sklearn scores a performance metric can be bound to. */
  datatype ScoreFunction =
    | AccuracyScore | PrecisionScore | RecallScore | F1Score | LogLoss | RocAucScore
    | AveragePrecisionScore | BrierScoreLoss | MeanSquaredError | MeanAbsoluteError | R2Score

  /** `DriftMetricsFuncs[name].value` */
  function DriftFunc(name: string): (f: Option<DriftFunction>)
    ensures f.Some? <==> name in DriftNames
  {
    match name
    case "kl" => Some(KlDivergence)
    case "psi" => Some(Psi)
    case "wasserstein" => Some(WassersteinDistance)
    case _ => None
  }

  /** `DriftTestMetricsFuncs[name].value` */
  function TestFunc(name: string): (f: Option<TestFunction>)
    ensures f.Some? <==> name in DriftTestNames
  {
    match name
    case "ttest" => Some(TTestInd(false))
    case "manwu" => Some(MannWhitneyU)
    case "levene" => Some(Levene(Mean))
    case "bftest" => Some(Levene(Median))
    case "ks_2samp" => Some(KolmogorovSmirnov2Samp)
    case "CvM" => Some(CramerVonMises2Samp)
    case "chi2" => Some(ChiSquare)
    case _ => None
  }

  /** `PerformanceMetricsFuncs[name].value` */
  function PerformanceFunc(name: string): (f: Option<ScoreFunction>)
    ensures f.Some? <==> name in PerformanceNames
  {
    match name
    case "accuracy" => Some(AccuracyScore)
    case "precision" => Some(PrecisionScore)
    case "recall" => Some(RecallScore)
    case "f1" => Some(F1Score)
    case "log_loss" => Some(LogLoss)
    case "auc" => Some(RocAucScore)
    case "aucpr" => Some(AveragePrecisionScore)
    case "brier" => Some(BrierScoreLoss)
    case "mse" => Some(MeanSquaredError)
    case "mae" => Some(MeanAbsoluteError)
    case "mape" => Some(MeanAbsoluteError)
    case "r2" => Some(R2Score)
    case _ => None
  }

  /** Every name a MetricResults record accepts for a non-custom, non-statistics type. */
  function AllMetricNames(): (names: seq<string>)
    ensures forall n :: n in names <==> n in PerformanceNames || n in DriftNames || n in DriftTestNames
  {
    PerformanceNames + DriftNames + DriftTestNames
  }

  /** There are exactly four kinds of metric; a drift test is reported as a drift metric. */
  lemma MetricKinds()
    ensures |MetricsTypeNames| == 4
    ensures "drift_test" !in MetricsTypeNames
  {
  }

  /** The three registries share no name, so a name determines its registry. */
  lemma RegistriesDisjoint(name: string)
    ensures !(DriftFunc(name).Some? && TestFunc(name).Some?)
    ensures !(DriftFunc(name).Some? && PerformanceFunc(name).Some?)
    ensures !(TestFunc(name).Some? && PerformanceFunc(name).Some?)
  {
  }

  /** The registry binds mape and mae to the same routine, mean_absolute_error. */
  lemma MapeIsMae()
    ensures PerformanceFunc("mape") == PerformanceFunc("mae") == Some(MeanAbsoluteError)
  {
  }

  /** levene and bftest are the same scipy routine centred on the mean and on the median. */
  lemma LeveneAndBrownForsythe()
    ensures TestFunc("levene") == Some(Levene(Mean)) && TestFunc("bftest") == Some(Levene(Median))
  {
  }
}
