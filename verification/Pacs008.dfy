/** The customer credit transfer (pacs.008.001.08) as a typed record, and its builder. */
module Pacs008 {
  import opened Wrappers
  import opened Text

  const NAMESPACE := "urn:iso:std:iso:20022:tech:xsd:pacs.008.001.08"

  datatype Choice = Choice(code: Option<string>, proprietary: Option<string>)

  datatype PaymentType = PaymentType(localInstrument: Option<Choice>, categoryPurpose: Option<Choice>)

  /** A clearing-system member: the scheme code and the routing number. */
  datatype Member = Member(scheme: Option<string>, id: string)

  datatype Agent = Agent(member: Option<Member>)

  datatype Account = Account(other: Option<string>)

  datatype Amount = Amount(currency: string, value: string)

  datatype GroupHeader = GroupHeader(messageId: string, creationDateTime: string,
                                     numberOfTransactions: string, settlementMethod: string,
                                     clearingSystem: Option<string>)

  datatype Transaction = Transaction(
    instructionId: Option<string>,
    endToEndId: string,
    uetr: Option<string>,
    paymentType: Option<PaymentType>,
    amount: Amount,
    settlementDate: Option<string>,
    chargeBearer: string,
    instructingAgent: Option<Agent>,
    instructedAgent: Option<Agent>,
    debtorName: Option<string>,
    debtorAccount: Option<Account>,
    debtorAgent: Agent,
    creditorAgent: Agent,
    creditorName: Option<string>,
    creditorAccount: Option<Account>)

  datatype Document = Document(xmlns: Option<string>, header: GroupHeader, transactions: seq<Transaction>)

  /** `CCYYMMDD`, the connection party id, then the sender's reference. */
  function FedNowMessageId(date: string, connectionParty: string, reference: string): string {
    date + connectionParty + reference
  }

  /** `1250.00`-style lexical form from cents. */
  function FormatCents(cents: nat): string {
    Decimal(cents / 100) + ['.', DigitChar(cents % 100 / 10), DigitChar(cents % 10)]
  }

  function Proprietary(v: string): Choice { Choice(None, Some(v)) }

  function AgentOf(routingNumber: string): Agent { Agent(Some(Member(Some("USABA"), routingNumber))) }

  /** The collected inputs of one credit transfer. */
  datatype Builder = Builder(
    messageId: string,
    creationDateTime: string,
    endToEndId: string,
    amountCents: nat,
    debtorAgent: string,
    creditorAgent: string,
    instructingAgent: Option<string>,
    instructedAgent: Option<string>,
    instructionId: Option<string>,
    uetr: Option<string>,
    settlementDate: Option<string>,
    localInstrument: Option<string>,
    categoryPurpose: Option<string>,
    debtorName: Option<string>,
    debtorAccount: Option<string>,
    creditorName: Option<string>,
    creditorAccount: Option<string>)
  {
    function Build(): Document {
      Document(
        Some(NAMESPACE),
        GroupHeader(messageId, creationDateTime, "1", "CLRG", Some("FDN")),
        [Transaction(
           instructionId,
           endToEndId,
           uetr,
           Some(PaymentType(
                  Some(Proprietary(if localInstrument.Some? then localInstrument.value else "FDNA")),
                  if categoryPurpose.Some? then Some(Proprietary(categoryPurpose.value)) else None)),
           Amount("USD", FormatCents(amountCents)),
           settlementDate,
           "SLEV",
           Some(AgentOf(if instructingAgent.Some? then instructingAgent.value else debtorAgent)),
           Some(AgentOf(if instructedAgent.Some? then instructedAgent.value else creditorAgent)),
           debtorName,
           if debtorAccount.Some? then Some(Account(debtorAccount)) else None,
           AgentOf(debtorAgent),
           AgentOf(creditorAgent),
           creditorName,
           if creditorAccount.Some? then Some(Account(creditorAccount)) else None)])
    }
  }

  /** A builder holding only the identification core. */
  function NewBuilder(messageId: string, creationDateTime: string, endToEndId: string, amountCents: nat,
          debtorAgent: string, creditorAgent: string): Builder
  {
    Builder(messageId, creationDateTime, endToEndId, amountCents, debtorAgent, creditorAgent,
            None, None, None, None, None, None, None, None, None, None, None)
  }

  /** For fixed-length dates and party ids, a message id determines all three of its parts. */
  lemma MessageIdDeterminesParts(d1: string, p1: string, r1: string, d2: string, p2: string, r2: string)
    requires |d1| == |d2| && |p1| == |p2|
    requires FedNowMessageId(d1, p1, r1) == FedNowMessageId(d2, p2, r2)
    ensures d1 == d2 && p1 == p2 && r1 == r2
  {
    var id := FedNowMessageId(d1, p1, r1);
    assert d1 == id[..|d1|] == d2;
    assert p1 == id[|d1|..|d1| + |p1|] == p2;
    assert r1 == id[|d1| + |p1|..] == r2;
  }
}
