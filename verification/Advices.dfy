/** What a pacs.002 does to the payment it reports on, code by code. */
module Advices {
  import opened Wrappers
  import opened Payments
  import opened Protocol

  /** How a pacs.002 writes a status. */
  function TxSts(status: AdviceStatus): string {
    match status
    case Actc => "ACTC"
    case Acsc => "ACSC"
    case Accc => "ACCC"
    case Acwp => "ACWP"
    case Pdng => "PDNG"
    case Blck => "BLCK"
    case Rjct => "RJCT"
  }

  predicate Interim(code: string) { code == "ACTC" || code == "PDNG" }

  predicate Settling(code: string) { code == "ACSC" || code == "ACCC" || code == "ACWP" || code == "BLCK" }

  predicate Known(code: string) { Interim(code) || Settling(code) || code == "RJCT" }

  /** A report with a verdict the gateway understands. */
  predicate Usable(report: Report) { report.txSts.Some? && Known(report.txSts.value) }

  /** The port's answer carries such a report. */
  predicate Tells(answer: PortAnswer) { answer.Advice? && answer.body.Status? && Usable(answer.body.report) }

  predicate Waiting(state: PaymentState) { state.AckPending? || state.TimeoutUnresolved? }

  /** The report, as it is recorded. */
  ghost predicate IsAdvice(report: Report, now: int, e: Event) {
    && Usable(report)
    && e.AdviceReceived? && TxSts(e.status) == report.txSts.value && e.adviceReason == report.reason && e.at == now
  }

  /** A payment that waits is settled, rejected or left waiting by the code; a settled one only notes it. */
  ghost predicate Takes(p: Payment, report: Report, now: int, q: Payment)
    requires Usable(report)
  {
    var code := report.txSts.value;
    && (Waiting(p.state) && Settling(code) ==> q.state.Settled?)
    && (Waiting(p.state) && code == "RJCT" ==> q.state.Rejected? && q.rejectionReason == report.reason)
    && (Waiting(p.state) && Interim(code) ==> q.state == p.state)
    && (p.state.Settled? ==> q.state.Settled?)
    && (!(Waiting(p.state) && code == "RJCT") ==> q.rejectionReason == p.rejectionReason)
    && q.lastAdvice.Some? && TxSts(q.lastAdvice.value) == code
    && |q.events| == |p.events| + 1 && q.events[..|p.events|] == p.events && IsAdvice(report, now, q.events[|p.events|])
    && q == p.(state := q.state, lastAdvice := q.lastAdvice, rejectionReason := q.rejectionReason, events := q.events)
  }

  /** A report counts exactly when its code is known, and is recorded under its own status. */
  lemma AdviceIsRecorded(report: Report, now: int)
    ensures AdviceOf(report, now).Some? <==> Usable(report)
    ensures AdviceOf(report, now).Some? ==> IsAdvice(report, now, AdviceOf(report, now).value)
  {
  }

  /** It moves exactly the payments that wait or are settled, as its code says. */
  lemma AdviceMoves(p: Payment, report: Report, now: int)
    requires Usable(report)
    ensures AdviceOf(report, now).Some?
    ensures var r := Applied(p, AdviceOf(report, now).value);
      && (r.Ok? <==> Waiting(p.state) || p.state.Settled?)
      && (r.Ok? ==> Takes(p, report, now, r.value))
  {
    AdviceIsRecorded(report, now);
  }

  lemma ToldIsAdvice(answer: PortAnswer, now: int)
    ensures AdviceIn(answer, now) == if Tells(answer) then AdviceOf(answer.body.report, now) else None
    ensures AdviceIn(answer, now).Some? <==> Tells(answer)
  {
    if answer.Advice? && answer.body.Status? {
      AdviceIsRecorded(answer.body.report, now);
    }
  }
}
