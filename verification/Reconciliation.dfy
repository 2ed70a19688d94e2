/** Reconciliation policy: what to do about a payment that has not resolved, and what to ask about it. */
module Reconciliation {
  import opened Wrappers
  import opened Payments
  import opened Histories
  import opened Text
  import opened Pacs008

  datatype Action = Rest | DeclareTimeout | SendQuery

  function NextAction(p: Payment, now: int, timeoutSecs: int, backoffSecs: int): Action {
    match p.state
    case AckPending =>
      if p.publishedAt.Some? && now - p.publishedAt.value >= timeoutSecs then DeclareTimeout else Rest
    case TimeoutUnresolved =>
      if p.lastQueryAt.None? || now - p.lastQueryAt.value >= backoffSecs then SendQuery else Rest
    case _ => Rest
  }

  /** The publication on record lies at least so far back. */
  ghost predicate TimeoutDue(h: seq<Event>, now: int, timeoutSecs: int) {
    LastOf(h, PublishTime).Some? && LastOf(h, PublishTime).value + timeoutSecs <= now
  }

  /** No query is on record, or the last one lies at least so far back. */
  ghost predicate QueryIsDue(h: seq<Event>, now: int, backoffSecs: int) {
    LastOf(h, QueryTime).Some? ==> LastOf(h, QueryTime).value + backoffSecs <= now
  }

  /** What is done next, read off the history: the timeout when it is due, a query whenever one is, nothing else. */
  lemma ActionByHistory(h: seq<Event>, now: int, timeoutSecs: int, backoffSecs: int)
    requires Replay(h).Ok?
    ensures var p := Replay(h).value;
      var action := NextAction(p, now, timeoutSecs, backoffSecs);
      && (action.DeclareTimeout? <==> p.state.AckPending? && TimeoutDue(h, now, timeoutSecs))
      && (action.SendQuery? <==> p.state.TimeoutUnresolved? && QueryIsDue(h, now, backoffSecs))
  {
    ReplayFolds(h);
  }

  // -------------------------------------------------- the status request

  const SERVICE_ROUTING_NUMBER := "993000007"

  /** A pacs.028: its own id and parties, and the payment it asks about. */
  datatype StatusRequest = StatusRequest(
    messageId: string,
    creationDateTime: string,
    originalMessageId: string,
    originalMessageName: string,
    originalCreationDateTime: string,
    instructingAgent: string,
    instructedAgent: string,
    originalEndToEndId: Option<string>,
    originalUetr: Option<string>)

  /** The message id of a payment's `number`-th status query. */
  function QueryId(sender: string, date: string, number: nat): string {
    FedNowMessageId(date, sender, "Q" + Decimal(number))
  }

  function RequestFor(sender: string, date: string, p: Payment): StatusRequest {
    StatusRequest(QueryId(sender, date, p.queriesSent), p.creationDateTime, p.messageId, "pacs.008.001.08",
                  p.creationDateTime, sender, SERVICE_ROUTING_NUMBER, Some(p.endToEndId), p.uetr)
  }

  /** It asks the service about this payment, under the number of its latest query. */
  ghost predicate AsksAbout(request: StatusRequest, sender: string, date: string, h: seq<Event>)
    requires h != [] && h[0].Created?
  {
    && request.messageId == date + sender + "Q" + Decimal(Count(h, IsQuery))
    && request.originalMessageId == h[0].messageId && request.originalMessageName == "pacs.008.001.08"
    && request.originalCreationDateTime == request.creationDateTime == h[0].creationDateTime
    && request.originalEndToEndId == Some(h[0].endToEndId) && request.originalUetr == h[0].uetr
    && request.instructingAgent == sender && request.instructedAgent == "993000007"
  }

  lemma RequestAsks(sender: string, date: string, h: seq<Event>)
    requires Replay(h).Ok?
    ensures h != [] && h[0].Created? && AsksAbout(RequestFor(sender, date, Replay(h).value), sender, date, h)
  {
    ReplayFolds(h);
    IdentityIsFixed(h);
    var number := Decimal(Count(h, IsQuery));
    assert date + sender + ("Q" + number) == date + sender + "Q" + number;
  }
}
