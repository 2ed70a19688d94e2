/** A northbound submission and the one message built for it. */
module Requests {
  import opened Wrappers
  import opened Text
  import opened Pacs008
  import opened Amounts
  import opened Validation

  datatype SubmitRequest = SubmitRequest(
    key: string,
    date: string,
    senderReference: string,
    creationDateTime: string,
    endToEndId: string,
    uetr: Option<string>,
    amountCents: nat,
    debtorName: string,
    debtorAccount: string,
    creditorName: string,
    creditorAccount: string,
    creditorAgent: string,
    categoryPurpose: string,
    settlementDate: string)

  function MessageIdOf(sender: string, req: SubmitRequest): string {
    FedNowMessageId(req.date, sender, req.senderReference)
  }

  /** The pacs.008 that submission builds, validates and queues. */
  function MessageOf(sender: string, req: SubmitRequest): Document {
    NewBuilder(MessageIdOf(sender, req), req.creationDateTime, req.endToEndId, req.amountCents, sender,
               req.creditorAgent)
    .(settlementDate := Some(req.settlementDate),
      categoryPurpose := Some(req.categoryPurpose),
      debtorName := Some(req.debtorName),
      debtorAccount := Some(req.debtorAccount),
      creditorName := Some(req.creditorName),
      creditorAccount := Some(req.creditorAccount),
      uetr := req.uetr)
    .Build()
  }

  // ------------------------------------------------------ read back

  /** The message identifies itself and its payment as the request does: date, sender, then reference. */
  ghost predicate CarriesIds(doc: Document, sender: string, req: SubmitRequest)
    requires |doc.transactions| == 1
  {
    var hdr, t := doc.header, doc.transactions[0];
    && |hdr.messageId| == |req.date| + |sender| + |req.senderReference|
    && hdr.messageId[..|req.date|] == req.date
    && hdr.messageId[|req.date|..|req.date| + |sender|] == sender
    && hdr.messageId[|req.date| + |sender|..] == req.senderReference
    && hdr.creationDateTime == req.creationDateTime
    && t.instructionId.None? && t.endToEndId == req.endToEndId && t.uetr == req.uetr
  }

  /** It moves the request's amount between the request's parties: out of the debtor's account, into the creditor's. */
  ghost predicate CarriesTransfer(t: Transaction, sender: string, req: SubmitRequest) {
    && CentsOf(t.amount.value) == Some(req.amountCents) && t.amount.currency == "USD"
    && t.settlementDate == Some(req.settlementDate)
    && t.debtorName == Some(req.debtorName) && HoldsAccount(t.debtorAccount, req.debtorAccount)
    && t.creditorName == Some(req.creditorName) && HoldsAccount(t.creditorAccount, req.creditorAccount)
    && IsBank(t.debtorAgent, sender) && IsBank(t.creditorAgent, req.creditorAgent)
    && t.instructingAgent.Some? && IsBank(t.instructingAgent.value, sender)
    && t.instructedAgent.Some? && IsBank(t.instructedAgent.value, req.creditorAgent)
    && t.paymentType.Some?
    && PrtryOf(t.paymentType.value.categoryPurpose) == Some(req.categoryPurpose)
    && PrtryOf(t.paymentType.value.localInstrument) == Some("FDNA")
  }

  ghost predicate HoldsAccount(account: Option<Account>, number: string) {
    account.Some? && account.value.other == Some(number)
  }

  ghost predicate IsBank(agent: Agent, routingNumber: string) {
    && agent.member.Some?
    && agent.member.value.scheme == Some("USABA") && agent.member.value.id == routingNumber
  }

  ghost predicate Carries(doc: Document, sender: string, req: SubmitRequest) {
    |doc.transactions| == 1 && CarriesIds(doc, sender, req) && CarriesTransfer(doc.transactions[0], sender, req)
  }

  /** Read back field by field, a built message says what was requested. */
  lemma BuiltCarriesRequest(sender: string, req: SubmitRequest)
    ensures Carries(MessageOf(sender, req), sender, req)
  {
    CentsRoundTrip(req.amountCents);
    var id := MessageIdOf(sender, req);
    assert id[..|req.date|] == req.date;
    assert id[|req.date|..|req.date| + |sender|] == sender;
    assert id[|req.date| + |sender|..] == req.senderReference;
  }

  /** What a caller can check before submitting, on the inputs alone. */
  ghost predicate CleanInputs(sender: string, req: SubmitRequest, isDateTime: string -> bool) {
    && MessageIdShape(req.date + sender + req.senderReference)
    && isDateTime(req.creationDateTime)
    && 1 <= |req.endToEndId| <= 35
    && (req.uetr.Some? ==> Uetr(req.uetr.value))
    && (req.categoryPurpose == "CONS" || req.categoryPurpose == "BIZZ")
    && 1 <= req.amountCents <= 99_999_999_999_999
    && CleanRoutingNumber(sender)
    && CleanRoutingNumber(req.creditorAgent)
  }

  ghost predicate CleanRoutingNumber(s: string) {
    |s| == 9 && (forall i | 0 <= i < 9 :: '0' <= s[i] <= '9') && ChecksOut(s)
  }

  /** A built message passes every profile rule exactly when its inputs are clean. */
  lemma BuiltIsCleanExactly(sender: string, req: SubmitRequest, isDateTime: string -> bool)
    ensures DocumentIssues(MessageOf(sender, req), isDateTime) == [] <==> CleanInputs(sender, req, isDateTime)
  {
    hide RoutingNumber, IsFedNowMessageId, MessageIdShape, ChecksOut;
    var doc := MessageOf(sender, req);
    NoIssuesMeansProfile(doc, isDateTime);
    FacetsOfCents(req.amountCents);
    MessageIdByShape(req.date + sender + req.senderReference);
    RoutingNumberByDigits(sender);
    RoutingNumberByDigits(req.creditorAgent);
    assert MessageIdOf(sender, req) == req.date + sender + req.senderReference;
    assert ProfileAmount(doc.transactions[0].amount) <==> AmountInRange(req.amountCents);
    assert ProfileAgent(AgentOf(sender)) <==> RoutingNumber(sender);
    assert ProfileAgent(AgentOf(req.creditorAgent)) <==> RoutingNumber(req.creditorAgent);
  }

  /** Nothing the payment turns on is lost in the message: equal messages had equal inputs. */
  lemma MessageDeterminesInputs(sender: string, a: SubmitRequest, b: SubmitRequest)
    requires MessageOf(sender, a) == MessageOf(sender, b)
    ensures a == b.(key := a.key, date := a.date, senderReference := a.senderReference)
    ensures a.date + sender + a.senderReference == b.date + sender + b.senderReference
    ensures |a.date| == |b.date| ==> a == b.(key := a.key)
  {
    assert MessageOf(sender, a).header.messageId == a.date + sender + a.senderReference;
    assert MessageOf(sender, b).header.messageId == b.date + sender + b.senderReference;
    hide MessageOf;
    BuiltCarriesRequest(sender, a);
    BuiltCarriesRequest(sender, b);
  }
}
