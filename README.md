# System health monitor — decision layer in Dafny

This project models the decision logic of `SystemMonitor` in `monitor.py`:
the periodic CPU/memory/disk monitor that compares each sample against
configured thresholds, prints a report, and mails an alert guarded by the
session flag `alert_sent`, which is meant to allow one alert email per
monitor instance. The sampling itself (psutil), the SMTP exchange, YAML
parsing, logging and JSON export are outside the model; their outcomes are
inputs.

Files, one module each:

- `settings.dfy` (`Settings`): the configuration record, the fixed default
  configuration, and `LoadConfig`. A missing file or a YAML error gives the
  whole default. A parsed file is used exactly as loaded.
- `evaluator.dfy` (`Evaluator`): `Stats`, `Sample` (`Empty` is the empty
  record `get_system_stats` returns on failure), `Alert(metric, value, threshold)`
  and `CheckThresholds`. It is specified by `IsEvaluation`: strict `>`,
  order cpu, memory, disk, one alert per metric in breach. Lemmas prove that
  `CheckThresholds` meets this specification and that no other list does.
- `console.dfy` (`Console`): the decisions in `display_stats`. These are
  the red/green mark per metric and the closing section: "ACTIVE ALERTS (n)"
  with the alerts, or "All systems normal".
- `notifier.dfy` (`Notifier`): `NotifyStep`, the gate of `send_alert` and
  the move of the flag. How far the SMTP exchange got is an input
  `SmtpOutcome`: `Refused` (raised before the server had the message),
  `AcceptedThenRaised` (`send_message` returned, then `quit` raised) or
  `Completed`. A `FlagRule` says when the flag rises: `AsWritten` (the code:
  only after a completed exchange) or `OnDelivery` (the corrected rule, see
  "## Findings").
- `monitoring.dfy` (`Monitoring`): `RunCycle` specifies `run_once`.
  `RunSession` specifies a finite run of `run_monitoring`'s loop. Lemmas
  cover the email policy under both rules. The class `SystemMonitor`
  follows the code (`AsWritten`). It holds `config` and `alertSent`, plus a
  ghost `outbox` of every alert list the server received and a ghost count
  of completed exchanges. Its methods `SendAlert`, `RunOnce` and
  `RunMonitoring` are proved against the functions above. The invariant
  `Valid()` keeps at most one completed exchange, with the flag raised
  exactly when it happened.

Percentages and thresholds are `real`; only the comparison matters to the
model.

Configuration loading follows `monitor.py:46-81`. A missing file or a YAML
error prints a message and continues with the complete default
configuration. A parsed document is used as it is, with no per-field merge
of defaults. Other failures while opening or reading the file are not
caught there and end the program (see "## Left out").

`check_thresholds` changes neither the sample nor the configuration. In
the model this holds by construction: it is a function, and `config` is a
`const` field of `SystemMonitor`.

## Model

| member | source | states |
|---|---|---|
| `Settings.LoadConfig` | monitor.py:46-81 | A parsed document is returned unchanged. A missing file or a parse error gives the default: thresholds 80/85/90, check interval 60, email disabled, smtp.gmail.com:587, logging INFO to system_monitor.log |
| `Evaluator.CheckThresholds` | monitor.py:179-215 | Alerts come in strictly increasing cpu, memory, disk order. Each carries its metric's reading and limit. Every alert's metric is in breach, and every metric in breach has its alert in the list |
| `Evaluator.CheckThresholdsIsEvaluation` | monitor.py:189-215 | The result meets `IsEvaluation`: a metric is raised if and only if its reading is strictly above its limit, in order, with correct values |
| `Evaluator.CheckThresholdsCount` | monitor.py:189-215 | The number of alerts equals the number of metrics in breach, and is at most 3 |
| `Evaluator.OrderedAlertsUnique` | monitor.py:189-215 | Two ordered alert lists that carry the sample's values and raise the same metrics are equal |
| `Evaluator.EvaluationUnique` | monitor.py:189-215 | Any list meeting the evaluation specification is exactly `CheckThresholds`'s result, so the order and contents are fully determined |
| `Evaluator.AtLimitNoAlert` | monitor.py:193-208 | A reading equal to its threshold raises no alert (strict `>`) |
| `Evaluator.DefaultLimitsDiskExample` | monitor.py:207-213 | With the default limits, cpu 45.2 / memory 67.8 / disk 92.1 gives exactly one alert, disk 92.1 over 90 |
| `Console.SectionFor` | monitor.py:318-324 | "All systems normal" if and only if there are no alerts. Otherwise the "ACTIVE ALERTS (n)" header has n equal to the number of alerts, followed by those alerts |
| `Console.DisplayStats` | monitor.py:295-306 | Each metric is marked red if and only if its reading is strictly above its limit. The closing section is the one for the alerts passed in |
| `Console.DisplayAgreesWithAlerts` | monitor.py:295-324 | Shown with its own evaluation, a metric is red exactly when an alert for it is listed. The header count equals the number of metrics in breach |
| `Notifier.NotifyStep` | monitor.py:225-280 | No attempt if and only if the list is empty, email is disabled or the flag is set. An attempt delivers unless refused and completes only if completed. The flag never drops and rises only as the rule says. As written, a message accepted before `quit` raised leaves the flag down |
| `Monitoring.RunCycle` | monitor.py:346-364 | An empty sample ends the cycle with nothing evaluated, shown or sent. Otherwise the cycle evaluates and displays. It attempts a send exactly when alerts are non-empty, email is enabled and the flag is down |
| `Monitoring.RunSession` | monitor.py:374-386 | One report per cycle. The flag, once set, stays set across cycles |
| `Monitoring.FlagRaisingsMatchFlag` | monitor.py:225-280 | Over any run, the number of cycles that raised the flag is 1 exactly when the run raised it, and 0 otherwise |
| `Monitoring.AtMostOneCompletedSend` | monitor.py:228-230 | As written, a fresh monitor completes at most one SMTP exchange over any sequence of cycles; it does not bound deliveries |
| `Monitoring.SecondDeliveryAfterQuitFails` | monitor.py:270-280 | As written, a run of two breaching cycles, the first accepted by the server with `quit` then raising, delivers two emails |
| `Monitoring.AtMostOneDelivery` | monitor.py:228-230 | With the flag raised once the server has the message, a fresh monitor delivers at most one alert email over any sequence of cycles |
| `Monitoring.NoAttemptAfterSent` | monitor.py:228-230 | Once the flag is set, no later cycle attempts a send, even when a different metric breaches |
| `Monitoring.DisabledNeverAttempts` | monitor.py:225-226 | With email disabled no cycle attempts a send, and the flag does not move |
| `Monitoring.DefaultConfigNeverEmails` | monitor.py:52-81 | A monitor running on the default configuration never delivers an email |
| `Monitoring.RetryAfterFailures` | monitor.py:277-280 | After cycles none of which raised the flag, for example because every send failed, the next breaching cycle attempts a send again, provided email is enabled |
| `Monitoring.SystemMonitor.constructor` | monitor.py:34-44 | The config is `LoadConfig` of the load outcome. The flag starts false, nothing has been delivered and no exchange completed |
| `Monitoring.SystemMonitor.SendAlert` | monitor.py:217-280 | The new flag and the outcome are those of `NotifyStep` as written. The outbox grows by the alert list exactly when the server received it, including when `quit` then raised. The completed count grows exactly on a completed exchange, and `Valid()` keeps it at most one |
| `Monitoring.SystemMonitor.RunOnce` | monitor.py:346-364 | Returns the sample, empty when sampling failed. The report and new flag are those of `RunCycle` as written. The outbox grows by that cycle's delivery |
| `Monitoring.SystemMonitor.RunMonitoring` | monitor.py:366-386 | The reports and final flag of a finite run of cycles are those of `RunSession` as written. The outbox grows by exactly the deliveries of those reports |

## Findings

| source | as written | input that shows it | evidently intended | confidence | as-written member | corrected member |
|---|---|---|---|---|---|---|
| monitor.py:270-280 | `alert_sent = True` comes after `server.quit()` in the same `try`, so an exception from `quit` after `send_message` returned is logged as a failed send and leaves the flag down | email enabled, cpu 95 over 80 in two cycles; in the first the server accepts the message and `quit` raises, in the second the exchange completes: two emails go out | one alert email per monitoring session (monitor.py:228): raise the flag once the server has the message | medium, not executed | `Monitoring.SecondDeliveryAfterQuitFails` | `Monitoring.AtMostOneDelivery` |

The class `SystemMonitor` follows the code as written. The lemmas about
suppression, disabled email, default configuration and retries are proved
for both flag rules.

## Left out

- `get_system_stats` (monitor.py:96-177) reads OS counters through psutil. Its result is the input `Sample`: `Sampled(stats)`, or `Empty` for the failure at monitor.py:175-177.
- `Stats` holds only the three percentages. Sizes in GB, load average, core counts, network counters, uptime and process count only feed text. The byte-to-GB conversion and `round(..., 2)` are floating-point arithmetic.
- Alert message text and the email body (`:.1f` formatting, used-GB figures, monitor.py:194-213, 241-265) are not modelled. An alert is the abstract `Alert(metric, value, threshold)`.
- The SMTP/MIME exchange (monitor.py:233-274) is network I/O. It is reduced to `SmtpOutcome`. An exception before the server accepted the message is `Refused`. An exception after `send_message` returned (from `quit` or the success log line) is `AcceptedThenRaised`: the email has gone out, yet the source logs it as a failure and leaves the flag down. A partial acceptance by the server is not distinguished.
- `display_stats` prints. Only its marks and closing section are modelled, not the header, timestamp, uptime, process or network lines.
- `Settings.LoadConfig`: YAML parsing is I/O. Only the two caught cases are modelled, a missing file (monitor.py:52) and a YAML error (monitor.py:55). Other exceptions from opening or reading the file (a permission error, a directory, undecodable text) are not caught there: they escape `__init__` and `main` returns 1 (monitor.py:449-451); the model has no outcome for them. A parsed document is assumed to hold every key with the right type. A document without the `logging` keys aborts inside `__init__` (monitor.py:85). An empty file (`safe_load` returns `None`), or one lacking other keys, fails later with a `KeyError`/`TypeError`. The message printed at monitor.py:53 and the parse-error message printed at monitor.py:56 are not modelled.
- `_setup_logging`, every logger call and `save_stats_json` (monitor.py:83-94, 328-344) are logging and file I/O.
- `Monitoring.SystemMonitor.RunMonitoring` models a finite prefix of the `while True` loop. `time.sleep(check_interval)`, the `KeyboardInterrupt` exit and the re-raise of other exceptions (monitor.py:366-393) are process plumbing.
- `main` (monitor.py:396-453): argument parsing, `--once`/`--json` dispatch and exit codes are process plumbing.
