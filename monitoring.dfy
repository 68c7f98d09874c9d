/**
 * The monitoring cycle of `SystemMonitor` in monitor.py: `run_once` (sample,
 * evaluate, display, maybe mail), a finite run of `run_monitoring`'s loop,
 * and the `alert_sent` flag that is meant to limit a monitor to one email.
 *
 * The pure functions below specify one cycle and a run of cycles under a
 * `FlagRule`; the class `SystemMonitor` holds the flag, follows the rule of
 * the code (`AsWritten`) and its methods are proved against the functions.
 */
module Monitoring {
  import opened Settings
  import opened Evaluator
  import opened Console
  import opened Notifier

  /** What the outside world supplies to one cycle: the sample and how SMTP would go. */
  datatype CycleInput = CycleInput(sample: Sample, smtp: SmtpOutcome)

  /** What one cycle did. */
  datatype CycleReport =
    | Skipped  // sampling returned an empty record
    | Reported(stats: Stats, alerts: seq<Alert>, display: Display, email: SendResult)

  datatype CycleResult = CycleResult(report: CycleReport, alertSent: bool)

  datatype SessionResult = SessionResult(reports: seq<CycleReport>, alertSent: bool)

  /** The cycle tried to send an email, whatever came of it. */
  predicate Attempted(report: CycleReport)
  {
    report.Reported? && report.email != NotAttempted
  }

  /** No cycle of `reports` tried to send an email. */
  predicate NoAttempts(reports: seq<CycleReport>)
  {
    forall k :: 0 <= k < |reports| ==> !Attempted(reports[k])
  }

  /** The alert lists of the emails the server received, in order. */
  function Deliveries(reports: seq<CycleReport>): (e: seq<seq<Alert>>)
    ensures |e| <= |reports|
    ensures forall k :: 0 <= k < |e| ==> e[k] != []
  {
    if reports == [] then []
    else
      var first := reports[0];
      (if first.Reported? && Delivered(first.email) && first.alerts != [] then [first.alerts] else [])
      + Deliveries(reports[1..])
  }

  /** How many cycles of `reports` raised the flag under `rule`. */
  function FlagRaisings(rule: FlagRule, reports: seq<CycleReport>): (n: nat)
    ensures n <= |reports|
  {
    if reports == [] then 0
    else
      var first := reports[0];
      (if first.Reported? && RaisesFlag(rule, first.email) then 1 else 0)
      + FlagRaisings(rule, reports[1..])
  }

  /** `run_once`: one cycle with the flag at `alertSent`. */
  function RunCycle(rule: FlagRule, cfg: Config, alertSent: bool, input: CycleInput): (r: CycleResult)
    // an empty sample ends the cycle before evaluation and alerting
    ensures input.sample.Empty? ==> r == CycleResult(Skipped, alertSent)
    // otherwise the report holds the sample, its evaluation and its display
    ensures input.sample.Sampled? ==>
      r.report.Reported? && r.report.stats == input.sample.stats &&
      r.report.alerts == CheckThresholds(input.sample.stats, cfg.thresholds) &&
      r.report.display == DisplayStats(input.sample.stats, cfg.thresholds, r.report.alerts)
    // an email is attempted exactly for a non-empty alert list, with email on and the flag down
    ensures Attempted(r.report) ==> r.report.alerts != [] && cfg.email.enabled && !alertSent
    ensures r.report.Reported? && r.report.alerts != [] && cfg.email.enabled && !alertSent ==>
      Attempted(r.report)
    // the flag only rises, and only by what the rule says
    ensures r.alertSent <==> alertSent || (r.report.Reported? && RaisesFlag(rule, r.report.email))
  {
    match input.sample
    case Empty => CycleResult(Skipped, alertSent)
    case Sampled(s) =>
      var alerts := CheckThresholds(s, cfg.thresholds);
      var display := DisplayStats(s, cfg.thresholds, alerts);
      if alerts != [] then
        var n := NotifyStep(rule, alertSent, alerts, cfg.email.enabled, input.smtp);
        CycleResult(Reported(s, alerts, display, n.result), n.alertSent)
      else
        CycleResult(Reported(s, alerts, display, NotAttempted), alertSent)
  }

  /** A run of consecutive cycles of one monitor, starting with the flag at `alertSent`. */
  function RunSession(rule: FlagRule, cfg: Config, alertSent: bool, inputs: seq<CycleInput>): (r: SessionResult)
    ensures |r.reports| == |inputs|
    ensures alertSent ==> r.alertSent
    decreases |inputs|
  {
    if inputs == [] then SessionResult([], alertSent)
    else
      var first := RunCycle(rule, cfg, alertSent, inputs[0]);
      var rest := RunSession(rule, cfg, first.alertSent, inputs[1..]);
      SessionResult([first.report] + rest.reports, rest.alertSent)
  }

  /** Running `a` and then `b` is running `a + b`. */
  lemma {:induction false} RunSessionAppend(rule: FlagRule, cfg: Config, alertSent: bool, a: seq<CycleInput>, b: seq<CycleInput>)
    ensures var ra := RunSession(rule, cfg, alertSent, a);
            var rb := RunSession(rule, cfg, ra.alertSent, b);
            RunSession(rule, cfg, alertSent, a + b) == SessionResult(ra.reports + rb.reports, rb.alertSent)
    decreases |a|
  {
    if a == [] {
      assert a + b == b;
    } else {
      var first := RunCycle(rule, cfg, alertSent, a[0]);
      assert (a + b)[0] == a[0];
      assert (a + b)[1..] == a[1..] + b;
      RunSessionAppend(rule, cfg, first.alertSent, a[1..], b);
    }
  }

  /** One more cycle at the end of a run. */
  lemma RunSessionSnoc(rule: FlagRule, cfg: Config, alertSent: bool, inputs: seq<CycleInput>, next: CycleInput)
    ensures var r := RunSession(rule, cfg, alertSent, inputs);
            var c := RunCycle(rule, cfg, r.alertSent, next);
            RunSession(rule, cfg, alertSent, inputs + [next]) == SessionResult(r.reports + [c.report], c.alertSent)
  {
    var r := RunSession(rule, cfg, alertSent, inputs);
    var c := RunCycle(rule, cfg, r.alertSent, next);
    RunSessionAppend(rule, cfg, alertSent, inputs, [next]);
    assert RunSession(rule, cfg, r.alertSent, [next]) == SessionResult([c.report], c.alertSent) by {
      assert [next][1..] == [];
    }
  }

  /** The run of the first `i + 1` cycles extends the run of the first `i` by cycle `i`. */
  lemma SessionStep(rule: FlagRule, cfg: Config, start: bool, inputs: seq<CycleInput>, i: nat,
                    reports: seq<CycleReport>, before: bool, report: CycleReport, after: bool)
    requires i < |inputs|
    requires SessionResult(reports, before) == RunSession(rule, cfg, start, inputs[..i])
    requires CycleResult(report, after) == RunCycle(rule, cfg, before, inputs[i])
    ensures SessionResult(reports + [report], after) == RunSession(rule, cfg, start, inputs[..i + 1])
  {
    RunSessionSnoc(rule, cfg, start, inputs[..i], inputs[i]);
    assert inputs[..i + 1] == inputs[..i] + [inputs[i]];
  }

  lemma {:induction false} DeliveriesAppend(a: seq<CycleReport>, b: seq<CycleReport>)
    ensures Deliveries(a + b) == Deliveries(a) + Deliveries(b)
    decreases |a|
  {
    if a == [] {
      assert a + b == b;
    } else {
      assert (a + b)[0] == a[0];
      assert (a + b)[1..] == a[1..] + b;
      DeliveriesAppend(a[1..], b);
    }
  }

  /**
   * The flag counts the cycles that raise it: over any run, exactly one cycle
   * raises the flag when the run ends with it raised and began with it down,
   * and none otherwise.
   */
  lemma {:induction false} FlagRaisingsMatchFlag(rule: FlagRule, cfg: Config, alertSent: bool, inputs: seq<CycleInput>)
    ensures var r := RunSession(rule, cfg, alertSent, inputs);
            FlagRaisings(rule, r.reports) == (if r.alertSent && !alertSent then 1 else 0)
    decreases |inputs|
  {
    if inputs != [] {
      var first := RunCycle(rule, cfg, alertSent, inputs[0]);
      var rest := RunSession(rule, cfg, first.alertSent, inputs[1..]);
      FlagRaisingsMatchFlag(rule, cfg, first.alertSent, inputs[1..]);
      var reports := [first.report] + rest.reports;
      assert reports[0] == first.report && reports[1..] == rest.reports;
    }
  }

  /**
   * As written, a monitor completes at most one SMTP exchange over any
   * sequence of cycles (but see `SecondDeliveryAfterQuitFails`).
   */
  lemma AtMostOneCompletedSend(cfg: Config, inputs: seq<CycleInput>)
    ensures FlagRaisings(AsWritten, RunSession(AsWritten, cfg, false, inputs).reports) <= 1
  {
    FlagRaisingsMatchFlag(AsWritten, cfg, false, inputs);
  }

  /** When the flag is raised on delivery, every delivery raises it. */
  lemma {:induction false} OnDeliveryCountsDeliveries(reports: seq<CycleReport>)
    ensures |Deliveries(reports)| <= FlagRaisings(OnDelivery, reports)
    decreases |reports|
  {
    if reports != [] {
      OnDeliveryCountsDeliveries(reports[1..]);
    }
  }

  /**
   * With the flag raised as soon as the server has the message, a monitor
   * delivers at most one alert email over any sequence of cycles.
   */
  lemma AtMostOneDelivery(cfg: Config, inputs: seq<CycleInput>)
    ensures |Deliveries(RunSession(OnDelivery, cfg, false, inputs).reports)| <= 1
  {
    var r := RunSession(OnDelivery, cfg, false, inputs);
    FlagRaisingsMatchFlag(OnDelivery, cfg, false, inputs);
    OnDeliveryCountsDeliveries(r.reports);
  }

  /**
   * As written, two emails can go out: the first is accepted and then `quit`
   * raises, which leaves the flag down; the next breaching cycle sends again.
   */
  lemma SecondDeliveryAfterQuitFails()
    ensures var cfg := DefaultConfig.(email := DefaultConfig.email.(enabled := true));
            var hot := Sampled(Stats(95.0, 0.0, 0.0));
            var inputs := [CycleInput(hot, AcceptedThenRaised), CycleInput(hot, Completed)];
            |Deliveries(RunSession(AsWritten, cfg, false, inputs).reports)| == 2
  {
    var cfg := DefaultConfig.(email := DefaultConfig.email.(enabled := true));
    var hot := Sampled(Stats(95.0, 0.0, 0.0));
    var inputs := [CycleInput(hot, AcceptedThenRaised), CycleInput(hot, Completed)];
    var alerts := [Alert(Cpu, 95.0, 80.0)];
    assert CheckThresholds(hot.stats, cfg.thresholds) == alerts;
    var first := RunCycle(AsWritten, cfg, false, inputs[0]);
    assert first.report.email == Failed(true) && !first.alertSent;
    var second := RunCycle(AsWritten, cfg, false, inputs[1]);
    assert second.report.email == Sent;
    var tail := RunSession(AsWritten, cfg, false, inputs[1..]);
    assert inputs[1..] == [inputs[1]] && inputs[1..][1..] == [];
    assert tail.reports == [second.report];
    var reports := RunSession(AsWritten, cfg, false, inputs).reports;
    assert reports == [first.report] + tail.reports;
    assert reports[1..] == [second.report] && reports[1..][1..] == [];
  }

  /** Once the flag is set, no later cycle attempts another email. */
  lemma {:induction false} NoAttemptAfterSent(rule: FlagRule, cfg: Config, inputs: seq<CycleInput>)
    ensures NoAttempts(RunSession(rule, cfg, true, inputs).reports)
    decreases |inputs|
  {
    if inputs != [] {
      NoAttemptAfterSent(rule, cfg, inputs[1..]);
      var first := RunCycle(rule, cfg, true, inputs[0]);
      var rest := RunSession(rule, cfg, true, inputs[1..]);
      var reports := [first.report] + rest.reports;
      assert RunSession(rule, cfg, true, inputs).reports == reports;
      assert forall k :: 1 <= k < |reports| ==> reports[k] == rest.reports[k - 1];
    }
  }

  /** With email disabled, as in the default configuration, no cycle ever attempts a send. */
  lemma {:induction false} DisabledNeverAttempts(rule: FlagRule, cfg: Config, alertSent: bool, inputs: seq<CycleInput>)
    requires !cfg.email.enabled
    ensures NoAttempts(RunSession(rule, cfg, alertSent, inputs).reports)
    ensures RunSession(rule, cfg, alertSent, inputs).alertSent == alertSent
    decreases |inputs|
  {
    if inputs != [] {
      DisabledNeverAttempts(rule, cfg, alertSent, inputs[1..]);
      var first := RunCycle(rule, cfg, alertSent, inputs[0]);
      var rest := RunSession(rule, cfg, alertSent, inputs[1..]);
      var reports := [first.report] + rest.reports;
      assert RunSession(rule, cfg, alertSent, inputs).reports == reports;
      assert forall k :: 1 <= k < |reports| ==> reports[k] == rest.reports[k - 1];
    }
  }

  /** An attempt is needed for a delivery. */
  lemma {:induction false} NoAttemptsNoDeliveries(reports: seq<CycleReport>)
    requires NoAttempts(reports)
    ensures Deliveries(reports) == []
    decreases |reports|
  {
    if reports != [] {
      assert !Attempted(reports[0]);
      NoAttemptsNoDeliveries(reports[1..]);
    }
  }

  /** A monitor without a loadable configuration file never sends email. */
  lemma DefaultConfigNeverEmails(rule: FlagRule, outcome: LoadOutcome, inputs: seq<CycleInput>)
    requires !outcome.Parsed?
    ensures Deliveries(RunSession(rule, LoadConfig(outcome), false, inputs).reports) == []
  {
    DisabledNeverAttempts(rule, LoadConfig(outcome), false, inputs);
    NoAttemptsNoDeliveries(RunSession(rule, LoadConfig(outcome), false, inputs).reports);
  }

  /**
   * Failed sends do not use up the flag: after cycles none of which raised
   * it, a cycle whose sample breaches a limit, with email enabled, attempts a
   * send again.
   */
  lemma RetryAfterFailures(rule: FlagRule, cfg: Config, earlier: seq<CycleInput>, next: CycleInput)
    requires FlagRaisings(rule, RunSession(rule, cfg, false, earlier).reports) == 0
    requires cfg.email.enabled
    requires next.sample.Sampled? && CheckThresholds(next.sample.stats, cfg.thresholds) != []
    ensures Attempted(RunSession(rule, cfg, false, earlier + [next]).reports[|earlier|])
  {
    FlagRaisingsMatchFlag(rule, cfg, false, earlier);
    RunSessionAppend(rule, cfg, false, earlier, [next]);
    var ra := RunSession(rule, cfg, false, earlier);
    assert !ra.alertSent;
  }

  /** A system monitor: its configuration and the session flag `alert_sent`. */
  class SystemMonitor {
    const config: Config
    var alertSent: bool
    /** The alert lists of the emails the server received so far. */
    ghost var outbox: seq<seq<Alert>>
    /** How many SMTP exchanges completed so far. */
    ghost var completedSends: nat

    /** At most one completed exchange, and the flag says whether it happened. */
    ghost predicate Valid()
      reads this
    {
      completedSends <= 1 && (alertSent <==> completedSends == 1) &&
      (alertSent ==> outbox != []) &&
      forall k :: 0 <= k < |outbox| ==> outbox[k] != []
    }

    /** `__init__`: load the configuration; no email has been sent. */
    constructor (outcome: LoadOutcome)
      ensures Valid()
      ensures config == LoadConfig(outcome) && !alertSent && outbox == [] && completedSends == 0
    {
      config := LoadConfig(outcome);
      alertSent := false;
      outbox := [];
      completedSends := 0;
    }

    /** `send_alert`: mail the alerts unless there are none, email is off, or the flag is set. */
    method SendAlert(alerts: seq<Alert>, stats: Stats, smtp: SmtpOutcome) returns (result: SendResult)
      requires Valid()
      modifies this
      ensures Valid()
      ensures Notification(result, alertSent) == NotifyStep(AsWritten, old(alertSent), alerts, config.email.enabled, smtp)
      ensures outbox == old(outbox) + (if Delivered(result) then [alerts] else [])
      ensures completedSends == old(completedSends) + (if result.Sent? then 1 else 0)
    {
      if alerts == [] || !config.email.enabled {
        return NotAttempted;
      }
      if alertSent {
        return NotAttempted;
      }
      match smtp
      case Refused =>
        result := Failed(false);
      case AcceptedThenRaised =>
        outbox := outbox + [alerts];
        result := Failed(true);
      case Completed =>
        outbox := outbox + [alerts];
        alertSent := true;
        completedSends := completedSends + 1;
        result := Sent;
    }

    /** `run_once`: one cycle; returns the sample it worked on, empty when sampling failed. */
    method RunOnce(input: CycleInput) returns (stats: Sample, report: CycleReport)
      requires Valid()
      modifies this
      ensures Valid()
      ensures stats == input.sample
      ensures CycleResult(report, alertSent) == RunCycle(AsWritten, config, old(alertSent), input)
      ensures outbox == old(outbox) + Deliveries([report])
    {
      stats := input.sample;
      if stats.Empty? {
        report := Skipped;
        assert [report][1..] == [];
        return;
      }
      var s := stats.stats;
      var alerts := CheckThresholds(s, config.thresholds);
      var display := DisplayStats(s, config.thresholds, alerts);
      var email := NotAttempted;
      if alerts != [] {
        email := SendAlert(alerts, s, input.smtp);
      }
      report := Reported(s, alerts, display, email);
      assert [report][1..] == [];
    }

    /** `run_monitoring`'s loop, for a finite number of cycles. */
    method RunMonitoring(inputs: seq<CycleInput>) returns (reports: seq<CycleReport>)
      requires Valid()
      modifies this
      ensures Valid()
      ensures SessionResult(reports, alertSent) == RunSession(AsWritten, config, old(alertSent), inputs)
      ensures outbox == old(outbox) + Deliveries(reports)
    {
      reports := [];
      ghost var start := alertSent;
      var i := 0;
      while i < |inputs|
        invariant 0 <= i <= |inputs|
        invariant Valid()
        invariant SessionResult(reports, alertSent) == RunSession(AsWritten, config, start, inputs[..i])
        invariant outbox == old(outbox) + Deliveries(reports)
      {
        ghost var before := alertSent;
        var _, report := RunOnce(inputs[i]);
        SessionStep(AsWritten, config, start, inputs, i, reports, before, report, alertSent);
        DeliveriesAppend(reports, [report]);
        reports := reports + [report];
        i := i + 1;
      }
      assert inputs[..i] == inputs;
    }
  }
}
