/**
 * The gate of `SystemMonitor.send_alert` in monitor.py: when an alert email
 * is attempted and how the session flag `alert_sent` moves. Composing the
 * message and talking SMTP are not modelled; how far the SMTP exchange got
 * is an input.
 */
module Notifier {
  import opened Evaluator

  /** How far the SMTP exchange of one attempt got. */
  datatype SmtpOutcome =
    | Refused             // raised before the server accepted the message (connect, STARTTLS, login or send)
    | AcceptedThenRaised  // `send_message` returned, then `quit` or the success log line raised
    | Completed           // the whole exchange ran without an exception

  /** What one call of `send_alert` did. */
  datatype SendResult =
    | NotAttempted            // returned early: no alerts, email disabled, or flag already set
    | Failed(delivered: bool) // an exception was caught and logged; `delivered` if the server had the message
    | Sent                    // the exchange completed

  /** The server received the alert email. */
  predicate Delivered(r: SendResult)
  {
    r.Sent? || (r.Failed? && r.delivered)
  }

  /**
   * When the flag is raised. `AsWritten` is monitor.py: only after the whole
   * exchange, `quit` included, has returned. `OnDelivery` raises it as soon
   * as the server accepted the message, which keeps the one-email policy.
   */
  datatype FlagRule = AsWritten | OnDelivery

  /** The results after which `rule` raises the flag. */
  predicate RaisesFlag(rule: FlagRule, r: SendResult)
  {
    r.Sent? || (rule.OnDelivery? && Delivered(r))
  }

  /** The outcome of one call and the value of the flag afterwards. */
  datatype Notification = Notification(result: SendResult, alertSent: bool)

  /**
   * One call of `send_alert` with the flag at `alertSent`, given how the SMTP
   * exchange would go.
   */
  function NotifyStep(rule: FlagRule, alertSent: bool, alerts: seq<Alert>, emailEnabled: bool, smtp: SmtpOutcome): (n: Notification)
    // no attempt when there is nothing to report, email is off, or the flag is set
    ensures n.result == NotAttempted <==> alerts == [] || !emailEnabled || alertSent
    // otherwise the SMTP exchange decides: delivered unless refused, completed only if completed
    ensures n.result != NotAttempted ==>
      (Delivered(n.result) <==> !smtp.Refused?) && (n.result.Sent? <==> smtp.Completed?)
    // the flag is raised by what the rule says and by nothing else, and never lowered
    ensures n.alertSent <==> alertSent || RaisesFlag(rule, n.result)
    // an email only ever goes out while the flag is down
    ensures Delivered(n.result) ==> !alertSent
    // as written, a message accepted before `quit` raised leaves the flag down
    ensures rule == AsWritten && n.result == Failed(true) ==> !n.alertSent
  {
    if alerts == [] || !emailEnabled then Notification(NotAttempted, alertSent)
    else if alertSent then Notification(NotAttempted, alertSent)
    else
      match smtp
      case Refused => Notification(Failed(false), alertSent)
      case AcceptedThenRaised => Notification(Failed(true), rule == OnDelivery)
      case Completed => Notification(Sent, true)
  }
}
