/**
 * Threshold evaluation: `SystemMonitor.check_thresholds` in monitor.py.
 *
 * A sampled record is compared against the configured limits; every metric
 * whose percentage is strictly above its limit yields one alert, and the
 * alerts come in the fixed order cpu, memory, disk.
 */
module Evaluator {
  import opened Settings

  /** The metrics that carry a threshold. */
  datatype Metric = Cpu | Memory | Disk

  /** The percentages of one sample that the evaluation looks at. */
  datatype Stats = Stats(cpuPercent: real, memoryPercent: real, diskPercent: real)

  /** The result of sampling: `get_system_stats` returns an empty record on failure. */
  datatype Sample = Empty | Sampled(stats: Stats)

  /** One threshold breach: which metric, the measured value and the limit it exceeded. */
  datatype Alert = Alert(metric: Metric, value: real, threshold: real)

  /** Position of a metric in the evaluation order cpu, memory, disk. */
  function Rank(m: Metric): nat
  {
    match m
    case Cpu => 0
    case Memory => 1
    case Disk => 2
  }

  function Reading(s: Stats, m: Metric): real
  {
    match m
    case Cpu => s.cpuPercent
    case Memory => s.memoryPercent
    case Disk => s.diskPercent
  }

  function Limit(t: Thresholds, m: Metric): real
  {
    match m
    case Cpu => t.cpu
    case Memory => t.memory
    case Disk => t.disk
  }

  /** A metric is in breach when its reading is strictly above its limit. */
  predicate Breached(s: Stats, t: Thresholds, m: Metric)
  {
    Reading(s, m) > Limit(t, m)
  }

  /** The one alert a breach of `m` produces. */
  function AlertFor(s: Stats, t: Thresholds, m: Metric): Alert
  {
    Alert(m, Reading(s, m), Limit(t, m))
  }

  /** Some alert in `alerts` concerns metric `m`. */
  predicate Raised(alerts: seq<Alert>, m: Metric)
  {
    exists i :: 0 <= i < |alerts| && alerts[i].metric == m
  }

  /** Metrics appear in strictly increasing evaluation order, so each at most once. */
  predicate InCheckOrder(alerts: seq<Alert>)
  {
    forall i, j :: 0 <= i < j < |alerts| ==> Rank(alerts[i].metric) < Rank(alerts[j].metric)
  }

  /** Every alert carries the reading and the limit of its own metric. */
  predicate CarriesValues(s: Stats, t: Thresholds, alerts: seq<Alert>)
  {
    forall i :: 0 <= i < |alerts| ==> alerts[i] == AlertFor(s, t, alerts[i].metric)
  }

  /**
   * The specification of an evaluation, independent of how it is computed:
   * ordered, one alert per metric at most, correct values, and an alert for
   * exactly the metrics in breach.
   */
  predicate IsEvaluation(s: Stats, t: Thresholds, alerts: seq<Alert>)
  {
    InCheckOrder(alerts) &&
    CarriesValues(s, t, alerts) &&
    forall m :: Raised(alerts, m) <==> Breached(s, t, m)
  }

  /** The metrics in breach. */
  function BreachedMetrics(s: Stats, t: Thresholds): set<Metric>
  {
    set m | m in {Cpu, Memory, Disk} && Breached(s, t, m)
  }

  /** `check_thresholds`: the alerts for one sample, in the order cpu, memory, disk. */
  function CheckThresholds(s: Stats, t: Thresholds): (alerts: seq<Alert>)
    ensures InCheckOrder(alerts) && CarriesValues(s, t, alerts)
    ensures forall i :: 0 <= i < |alerts| ==> Breached(s, t, alerts[i].metric)
    ensures forall m :: Breached(s, t, m) ==> AlertFor(s, t, m) in alerts
  {
    var cpu := if Breached(s, t, Cpu) then [AlertFor(s, t, Cpu)] else [];
    var memory := if Breached(s, t, Memory) then [AlertFor(s, t, Memory)] else [];
    var disk := if Breached(s, t, Disk) then [AlertFor(s, t, Disk)] else [];
    cpu + memory + disk
  }

  /** The result of `CheckThresholds` meets the specification of an evaluation. */
  lemma CheckThresholdsIsEvaluation(s: Stats, t: Thresholds)
    ensures IsEvaluation(s, t, CheckThresholds(s, t))
  {
    var alerts := CheckThresholds(s, t);
    forall m | Breached(s, t, m) ensures Raised(alerts, m) {
      var i :| 0 <= i < |alerts| && alerts[i] == AlertFor(s, t, m);
      assert alerts[i].metric == m;
    }
  }

  /** The metrics in breach, listed one by one. */
  lemma BreachedMetricsByMetric(s: Stats, t: Thresholds)
    ensures BreachedMetrics(s, t)
         == (if Breached(s, t, Cpu) then {Cpu} else {})
          + (if Breached(s, t, Memory) then {Memory} else {})
          + (if Breached(s, t, Disk) then {Disk} else {})
  {
  }

  /** There is one alert per metric in breach, hence at most three. */
  lemma CheckThresholdsCount(s: Stats, t: Thresholds)
    ensures |CheckThresholds(s, t)| == |BreachedMetrics(s, t)| <= 3
  {
    BreachedMetricsByMetric(s, t);
    var cpu: set<Metric> := if Breached(s, t, Cpu) then {Cpu} else {};
    var memory: set<Metric> := if Breached(s, t, Memory) then {Memory} else {};
    var disk: set<Metric> := if Breached(s, t, Disk) then {Disk} else {};
    assert |cpu + memory| == |cpu| + |memory|;
    assert |cpu + memory + disk| == |cpu + memory| + |disk|;
  }

  /**
   * Two alert lists that both follow the evaluation order, both carry the
   * sample's values and raise the same metrics are the same list.
   */
  lemma {:induction false} OrderedAlertsUnique(s: Stats, t: Thresholds, xs: seq<Alert>, ys: seq<Alert>)
    requires InCheckOrder(xs) && CarriesValues(s, t, xs)
    requires InCheckOrder(ys) && CarriesValues(s, t, ys)
    requires forall m :: Raised(xs, m) <==> Raised(ys, m)
    ensures xs == ys
    decreases |xs|
  {
    if xs == [] {
      if ys != [] {
        assert Raised(ys, ys[0].metric);
      }
    } else {
      assert ys != [] by {
        assert Raised(xs, xs[0].metric);
      }
      SameHead(xs, ys);
      assert xs[0] == ys[0];
      forall m ensures Raised(xs[1..], m) <==> Raised(ys[1..], m) {
        TailRaised(xs, m);
        TailRaised(ys, m);
      }
      TailKeepsOrder(s, t, xs);
      TailKeepsOrder(s, t, ys);
      OrderedAlertsUnique(s, t, xs[1..], ys[1..]);
      assert xs == [xs[0]] + xs[1..];
      assert ys == [ys[0]] + ys[1..];
    }
  }

  /** Two non-empty ordered lists that raise the same metrics start with the same metric. */
  lemma SameHead(xs: seq<Alert>, ys: seq<Alert>)
    requires xs != [] && ys != [] && InCheckOrder(xs) && InCheckOrder(ys)
    requires forall m :: Raised(xs, m) <==> Raised(ys, m)
    ensures xs[0].metric == ys[0].metric
  {
    assert Raised(xs, xs[0].metric);
    var j :| 0 <= j < |ys| && ys[j].metric == xs[0].metric;
    assert Raised(ys, ys[0].metric);
    var k :| 0 <= k < |xs| && xs[k].metric == ys[0].metric;
    assert Rank(ys[0].metric) <= Rank(xs[0].metric) <= Rank(ys[0].metric);
  }

  /** Dropping the first alert keeps the order and the values. */
  lemma TailKeepsOrder(s: Stats, t: Thresholds, xs: seq<Alert>)
    requires xs != [] && InCheckOrder(xs) && CarriesValues(s, t, xs)
    ensures InCheckOrder(xs[1..]) && CarriesValues(s, t, xs[1..])
  {
    forall i | 0 <= i < |xs[1..]| ensures xs[1..][i] == xs[i + 1] { }
  }

  /** In an ordered list the tail raises every metric the list raises, except the head's. */
  lemma TailRaised(xs: seq<Alert>, m: Metric)
    requires xs != [] && InCheckOrder(xs)
    ensures Raised(xs[1..], m) <==> Raised(xs, m) && m != xs[0].metric
  {
    if Raised(xs[1..], m) {
      var i :| 0 <= i < |xs[1..]| && xs[1..][i].metric == m;
      assert xs[i + 1].metric == m;
    }
    if Raised(xs, m) && m != xs[0].metric {
      var i :| 0 <= i < |xs| && xs[i].metric == m;
      assert xs[1..][i - 1].metric == m;
    }
  }

  /**
   * The evaluation is determined by its specification: any alert list that
   * meets `IsEvaluation` is the one `CheckThresholds` returns.
   */
  lemma EvaluationUnique(s: Stats, t: Thresholds, alerts: seq<Alert>)
    requires IsEvaluation(s, t, alerts)
    ensures alerts == CheckThresholds(s, t)
  {
    CheckThresholdsIsEvaluation(s, t);
    OrderedAlertsUnique(s, t, alerts, CheckThresholds(s, t));
  }

  /** A reading equal to its limit is not a breach and raises no alert. */
  lemma AtLimitNoAlert(s: Stats, t: Thresholds, m: Metric)
    requires Reading(s, m) == Limit(t, m)
    ensures !Raised(CheckThresholds(s, t), m)
  {
    CheckThresholdsIsEvaluation(s, t);
  }

  /**
   * With the default limits, cpu 45.2, memory 67.8 and disk 92.1 give
   * exactly one alert, for the disk.
   */
  lemma DefaultLimitsDiskExample()
    ensures CheckThresholds(Stats(45.2, 67.8, 92.1), DefaultConfig.thresholds)
         == [Alert(Disk, 92.1, 90.0)]
  {
  }
}
