/**
 * The alert sink. In the monitor every alert goes through one global
 * `sendAlert(subject, text)` that hands a mail to an external service;
 * here that service is an outbox that records, in order, every alert sent.
 */
module Alerts {

  /**
   * The text of an alert. The source renders the numbers into the text
   * (`value >= level`, `value < level`) or sends an empty text; the
   * rendering of numbers is not modelled, the comparison that is reported is.
   */
  datatype Body =
    | AtLeast(value: real, level: real)
    | Below(value: real, level: real)
    | Blank

  datatype Alert = Alert(subject: string, body: Body)

  /** Everything sent so far, oldest first. */
  class Outbox {
    var sent: seq<Alert>

    constructor ()
      ensures sent == []
    {
      sent := [];
    }

    /** Fire-and-forget delivery of one alert. */
    method Send(subject: string, body: Body)
      modifies this
      ensures sent == old(sent) + [Alert(subject, body)]
    {
      sent := sent + [Alert(subject, body)];
    }
  }
}
