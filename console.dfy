/**
 * The decisions inside `SystemMonitor.display_stats` in monitor.py: which
 * metrics are marked red and which closing section the report shows. The
 * text itself (number formatting, layout) is not modelled.
 */
module Console {
  import opened Settings
  import opened Evaluator

  /** The closing section of the console report. */
  datatype AlertSection =
    | ActiveAlerts(count: nat, lines: seq<Alert>)  // "ACTIVE ALERTS (count)" and one line per alert
    | AllNormal                                   // "All systems normal - no alerts"

  /** What one report shows: a status mark per metric and the closing section. */
  datatype Display = Display(cpuRed: bool, memoryRed: bool, diskRed: bool, section: AlertSection)

  /** The status mark a report shows for `m`. */
  function IsRed(d: Display, m: Metric): bool
  {
    match m
    case Cpu => d.cpuRed
    case Memory => d.memoryRed
    case Disk => d.diskRed
  }

  /** The closing section for the alerts of this cycle. */
  function SectionFor(alerts: seq<Alert>): (r: AlertSection)
    ensures r.AllNormal? <==> alerts == []
    ensures r.ActiveAlerts? ==> r.count == |alerts| > 0 && r.lines == alerts
  {
    if alerts != [] then ActiveAlerts(|alerts|, alerts) else AllNormal
  }

  /** `display_stats`: the marks compare each reading with its limit on their own. */
  function DisplayStats(s: Stats, t: Thresholds, alerts: seq<Alert>): (d: Display)
    ensures forall m :: IsRed(d, m) <==> Breached(s, t, m)
    ensures d.section == SectionFor(alerts)
  {
    Display(s.cpuPercent > t.cpu, s.memoryPercent > t.memory, s.diskPercent > t.disk,
            SectionFor(alerts))
  }

  /**
   * Shown with the alerts of the same sample, a metric is marked red exactly
   * when an alert for it is listed, and the header counts the metrics in breach.
   */
  lemma DisplayAgreesWithAlerts(s: Stats, t: Thresholds)
    ensures var alerts := CheckThresholds(s, t);
            var d := DisplayStats(s, t, alerts);
            (forall m :: IsRed(d, m) <==> Raised(alerts, m)) &&
            (d.section.ActiveAlerts? ==> d.section.count == |BreachedMetrics(s, t)|) &&
            (d.section.AllNormal? <==> BreachedMetrics(s, t) == {})
  {
    CheckThresholdsIsEvaluation(s, t);
    CheckThresholdsCount(s, t);
  }
}
