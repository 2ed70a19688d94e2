/** The FedNow profile of a credit transfer: the issue-collecting validators and what they accept. */
module Validation {
  import opened Wrappers
  import opened Text
  import opened Pacs008
  import opened Amounts

  datatype RuleSource = XsdFacet | IsoRule | FedNowProfile

  datatype Issue = Issue(code: string, path: string, source: RuleSource)

  const LOCAL_INSTRUMENT := "FDNA"

  predicate CategoryPurpose(v: string) { v == "CONS" || v == "BIZZ" }

  // --------------------------------------------------- lexical predicates

  predicate Max35Text(s: string) { 1 <= |s| <= 35 }

  /** 18..35 alphanumerics, the first eight of them digits. */
  predicate IsFedNowMessageId(s: string) {
    && 18 <= |s| <= 35
    && AllDigits(s[..8])
    && forall i | 8 <= i < |s| :: IsAlphanumeric(s[i])
  }

  /** 18 to 35 letters and digits, of which the first eight are digits. */
  ghost predicate MessageIdShape(id: string) {
    && 18 <= |id| <= 35
    && (forall i | 0 <= i < 8 :: '0' <= id[i] <= '9')
    && forall i | 0 <= i < |id| :: '0' <= id[i] <= '9' || 'a' <= id[i] <= 'z' || 'A' <= id[i] <= 'Z'
  }

  lemma MessageIdByShape(id: string)
    ensures IsFedNowMessageId(id) <==> MessageIdShape(id)
  {
    if |id| >= 8 {
      assert forall i | 0 <= i < 8 :: id[..8][i] == id[i];
    }
  }

  function Weight(i: nat): nat { if i % 3 == 0 then 3 else if i % 3 == 1 then 7 else 1 }

  /** The 3-7-1 weighted digit sum. */
  function AbaSum(s: string): nat
    requires AllDigits(s)
  {
    if s == [] then 0 else AbaSum(s[..|s| - 1]) + Weight(|s| - 1) * DigitValue(s[|s| - 1])
  }

  predicate AbaChecksumOk(s: string)
    requires AllDigits(s)
  {
    AbaSum(s) % 10 == 0
  }

  predicate RoutingNumber(s: string) { |s| == 9 && AllDigits(s) && AbaChecksumOk(s) }

  /** Three times the first of each three digits, seven times the second, and the third once. */
  ghost function DigitSum(s: string): nat
    requires |s| == 9 && AllDigits(s)
  {
    3 * (DigitValue(s[0]) + DigitValue(s[3]) + DigitValue(s[6]))
    + 7 * (DigitValue(s[1]) + DigitValue(s[4]) + DigitValue(s[7]))
    + (DigitValue(s[2]) + DigitValue(s[5]) + DigitValue(s[8]))
  }

  ghost predicate ChecksOut(s: string)
    requires |s| == 9 && AllDigits(s)
  {
    DigitSum(s) % 10 == 0
  }

  /** Three digits further on. */
  lemma AbaSumOfThree(s: string, n: nat)
    requires AllDigits(s) && n + 3 <= |s| && n % 3 == 0
    ensures AbaSum(s[..n + 3])
         == AbaSum(s[..n]) + 3 * DigitValue(s[n]) + 7 * DigitValue(s[n + 1]) + DigitValue(s[n + 2])
  {
    assert s[..n + 3][..n + 2] == s[..n + 2] && s[..n + 2][..n + 1] == s[..n + 1] && s[..n + 1][..n] == s[..n];
    assert AbaSum(s[..n + 1]) == AbaSum(s[..n]) + 3 * DigitValue(s[n]);
    assert AbaSum(s[..n + 2]) == AbaSum(s[..n + 1]) + 7 * DigitValue(s[n + 1]);
    assert AbaSum(s[..n + 3]) == AbaSum(s[..n + 2]) + 1 * DigitValue(s[n + 2]);
  }

  lemma AbaSumOfNine(s: string)
    requires |s| == 9 && AllDigits(s)
    ensures AbaSum(s) == DigitSum(s)
  {
    hide AbaSum, DigitValue;
    AbaSumOfThree(s, 0);
    AbaSumOfThree(s, 3);
    AbaSumOfThree(s, 6);
    assert s[..0 + 3] == s[..3] && s[..3 + 3] == s[..6] && s[..6 + 3] == s && s[..0] == "";
    assert AbaSum("") == 0 by { NothingSums(); }
  }

  lemma NothingSums()
    ensures AbaSum("") == 0
  {
  }

  /** A routing number is nine digits that check out by position. */
  lemma RoutingNumberByDigits(s: string)
    ensures RoutingNumber(s) <==> |s| == 9 && AllDigits(s) && ChecksOut(s)
  {
    hide AbaSum, DigitSum;
    if |s| == 9 && AllDigits(s) {
      AbaSumOfNine(s);
    }
  }

  predicate Hex(s: string) { forall i | 0 <= i < |s| :: IsDigit(s[i]) || 'a' <= s[i] <= 'f' }

  /** The lowercase UUID version 4 pattern, group by group. */
  predicate Uetr(s: string) {
    && |s| == 36
    && Hex(s[..8]) && s[8] == '-'
    && Hex(s[9..13]) && s[13] == '-'
    && s[14] == '4' && Hex(s[15..18]) && s[18] == '-'
    && s[19] in {'8', '9', 'a', 'b'} && Hex(s[20..23]) && s[23] == '-'
    && Hex(s[24..])
  }

  predicate UetrAt(i: nat, c: char) {
    if i == 8 || i == 13 || i == 18 || i == 23 then c == '-'
    else if i == 14 then c == '4'
    else if i == 19 then c in {'8', '9', 'a', 'b'}
    else IsDigit(c) || 'a' <= c <= 'f'
  }

  /** The byte loop accepts exactly the pattern. */
  method CheckUetr(s: string) returns (ok: bool)
    ensures ok <==> Uetr(s)
  {
    if |s| != 36 {
      return false;
    }
    for i := 0 to |s|
      invariant forall j | 0 <= j < i :: UetrAt(j, s[j])
    {
      if !UetrAt(i, s[i]) {
        UetrByPosition(s);
        return false;
      }
    }
    UetrByPosition(s);
    return true;
  }

  lemma UetrByPosition(s: string)
    requires |s| == 36
    ensures Uetr(s) <==> forall j | 0 <= j < 36 :: UetrAt(j, s[j])
  {
    if Uetr(s) {
      forall j | 0 <= j < 36
        ensures UetrAt(j, s[j])
      {
        if j < 8 { assert s[..8][j] == s[j]; }
        else if 9 <= j < 13 { assert s[9..13][j - 9] == s[j]; }
        else if 15 <= j < 18 { assert s[15..18][j - 15] == s[j]; }
        else if 20 <= j < 23 { assert s[20..23][j - 20] == s[j]; }
        else if 24 <= j { assert s[24..][j - 24] == s[j]; }
      }
    }
    if forall j | 0 <= j < 36 :: UetrAt(j, s[j]) {
      assert UetrAt(8, s[8]) && UetrAt(13, s[13]) && UetrAt(14, s[14]);
      assert UetrAt(18, s[18]) && UetrAt(19, s[19]) && UetrAt(23, s[23]);
    }
  }

  lemma {:induction false} AbaSumOfUpdate(s: string, i: nat, c: char)
    requires AllDigits(s) && i < |s| && IsDigit(c)
    ensures AbaSum(s[i := c]) == AbaSum(s) + Weight(i) * (DigitValue(c) - DigitValue(s[i]))
  {
    var t, n := s[i := c], |s| - 1;
    if i == n {
      assert t[..n] == s[..n];
      assert Weight(i) * DigitValue(c)
          == Weight(i) * DigitValue(s[i]) + Weight(i) * (DigitValue(c) - DigitValue(s[i]));
    } else {
      assert t[..n] == s[..n][i := c];
      AbaSumOfUpdate(s[..n], i, c);
    }
  }

  /** The check digit catches every single mistyped digit. */
  lemma OneWrongDigitIsCaught(s: string, i: nat, c: char)
    requires RoutingNumber(s) && i < 9 && IsDigit(c) && c != s[i]
    ensures !RoutingNumber(s[i := c])
  {
    AbaSumOfUpdate(s, i, c);
    WeightsAreUnits(Weight(i), DigitValue(c) - DigitValue(s[i]), AbaSum(s));
  }

  /** 3, 7 and 1 are units modulo ten: no digit change is absorbed. */
  lemma WeightsAreUnits(w: nat, delta: int, sum: nat)
    requires w == 3 || w == 7 || w == 1
    requires -10 < delta < 10 && delta != 0
    requires sum % 10 == 0
    ensures (sum + w * delta) % 10 != 0
  {
    if w == 3 {
      assert (sum + 3 * delta) % 10 != 0;
    } else if w == 7 {
      assert (sum + 7 * delta) % 10 != 0;
    }
  }

  // ------------------------------------------------------------ the rules

  function IssueUnless(holds: bool, code: string, path: string, source: RuleSource): seq<Issue> {
    if holds then [] else [Issue(code, path, source)]
  }

  function AmountIssues(path: string, amount: Amount): seq<Issue> {
    CurrencyIssues(path, amount.currency) + ValueIssues(path, amount.value)
  }

  function CurrencyIssues(path: string, ccy: string): seq<Issue> {
    if |ccy| != 3 || !(forall i | 0 <= i < |ccy| :: IsUpper(ccy[i])) then
      [Issue("xsd.ccy.pattern", path + "/@Ccy", XsdFacet)]
    else IssueUnless(ccy == "USD", "fednow.ccy.usd", path + "/@Ccy", FedNowProfile)
  }

  function ValueIssues(path: string, value: string): seq<Issue> {
    match ParseDecimal(value)
    case None => [Issue("xsd.amount.format", path, XsdFacet)]
    case Some(facets) =>
      IssueUnless(!facets.isZero, "fednow.amount.positive", path, FedNowProfile)
      + IssueUnless(facets.fractionDigits <= 2, "fednow.amount.cents", path, FedNowProfile)
      + IssueUnless(facets.totalDigits <= 14, "fednow.amount.digits", path, FedNowProfile)
  }

  function RoutingIssues(path: string, id: string): seq<Issue> {
    if |id| != 9 || !AllDigits(id) then [Issue("fednow.aba.format", path, FedNowProfile)]
    else IssueUnless(AbaChecksumOk(id), "fednow.aba.checksum", path, FedNowProfile)
  }

  function AgentIssues(path: string, agent: Agent): seq<Issue> {
    match agent.member
    case None => [Issue("fednow.agent.clrsysmmbid", path + "/FinInstnId/ClrSysMmbId", FedNowProfile)]
    case Some(member) =>
      IssueUnless(member.scheme == Some("USABA"), "fednow.agent.usaba",
                  path + "/FinInstnId/ClrSysMmbId/ClrSysId/Cd", FedNowProfile)
      + RoutingIssues(path + "/FinInstnId/ClrSysMmbId/MmbId", member.id)
  }

  function RequiredAgentIssues(path: string, code: string, agent: Option<Agent>): seq<Issue> {
    if agent.None? then [Issue(code, path, FedNowProfile)] else AgentIssues(path, agent.value)
  }

  function PrtryOf(choice: Option<Choice>): Option<string> {
    if choice.Some? then choice.value.proprietary else None
  }

  function PaymentTypeIssues(tx: string, paymentType: Option<PaymentType>): seq<Issue> {
    match paymentType
    case None => [Issue("fednow.pmttpinf.required", tx + "/PmtTpInf", FedNowProfile)]
    case Some(pt) =>
      (match PrtryOf(pt.localInstrument)
       case None => [Issue("fednow.pmttpinf.lclinstrm", tx + "/PmtTpInf/LclInstrm", FedNowProfile)]
       case Some(v) =>
         IssueUnless(v == LOCAL_INSTRUMENT, "fednow.lclinstrm.fdna", tx + "/PmtTpInf/LclInstrm/Prtry",
                     FedNowProfile))
      + (match PrtryOf(pt.categoryPurpose)
         case None => [Issue("fednow.pmttpinf.ctgypurp", tx + "/PmtTpInf/CtgyPurp", FedNowProfile)]
         case Some(v) =>
           IssueUnless(CategoryPurpose(v), "fednow.ctgypurp.known", tx + "/PmtTpInf/CtgyPurp/Prtry",
                       FedNowProfile))
  }

  function ChargeBearerIssues(tx: string, bearer: string): seq<Issue> {
    if bearer !in {"DEBT", "CRED", "SHAR", "SLEV"} then [Issue("xsd.chrgbr.enum", tx + "/ChrgBr", XsdFacet)]
    else IssueUnless(bearer == "SLEV", "fednow.chrgbr.slev", tx + "/ChrgBr", FedNowProfile)
  }

  function IdIssues(tx: string, t: Transaction): seq<Issue> {
    IssueUnless(Max35Text(t.endToEndId), "xsd.endtoendid.length", tx + "/PmtId/EndToEndId", XsdFacet)
    + IssueUnless(t.uetr.Some? ==> Uetr(t.uetr.value), "xsd.uetr.pattern", tx + "/PmtId/UETR", XsdFacet)
  }

  function PartyIssues(tx: string, t: Transaction): seq<Issue> {
    RequiredAgentIssues(tx + "/InstgAgt", "fednow.instgagt.required", t.instructingAgent)
    + RequiredAgentIssues(tx + "/InstdAgt", "fednow.instdagt.required", t.instructedAgent)
    + IssueUnless(t.debtorAccount.Some?, "fednow.dbtracct.required", tx + "/DbtrAcct", FedNowProfile)
    + IssueUnless(t.creditorAccount.Some?, "fednow.cdtracct.required", tx + "/CdtrAcct", FedNowProfile)
    + ChargeBearerIssues(tx, t.chargeBearer)
    + AgentIssues(tx + "/DbtrAgt", t.debtorAgent)
    + AgentIssues(tx + "/CdtrAgt", t.creditorAgent)
  }

  function TransactionIssues(i: nat, t: Transaction): seq<Issue> {
    var tx := "CdtTrfTxInf[" + Decimal(i) + "]";
    IdIssues(tx, t)
    + PaymentTypeIssues(tx, t.paymentType)
    + AmountIssues(tx + "/IntrBkSttlmAmt", t.amount)
    + IssueUnless(t.settlementDate.Some?, "fednow.intrbksttlmdt.required", tx + "/IntrBkSttlmDt", FedNowProfile)
    + PartyIssues(tx, t)
  }

  function CountIssues(nb: string, transactions: nat): seq<Issue> {
    if nb == "" || |nb| > 15 || !AllDigits(nb) then [Issue("xsd.nboftxs.pattern", "GrpHdr/NbOfTxs", XsdFacet)]
    else if Value(nb) != transactions then [Issue("iso.nboftxs.mismatch", "GrpHdr/NbOfTxs", IsoRule)]
    else IssueUnless(nb == "1", "fednow.nboftxs.one", "GrpHdr/NbOfTxs", FedNowProfile)
  }

  function HeaderIssues(doc: Document, isDateTime: string -> bool): seq<Issue> {
    var hdr := doc.header;
    IssueUnless(doc.xmlns == Some(NAMESPACE), "xsd.namespace", "Document", XsdFacet)
    + IssueUnless(Max35Text(hdr.messageId), "xsd.msgid.length", "GrpHdr/MsgId", XsdFacet)
    + IssueUnless(IsFedNowMessageId(hdr.messageId), "fednow.msgid.format", "GrpHdr/MsgId", FedNowProfile)
    + IssueUnless(isDateTime(hdr.creationDateTime), "xsd.credttm.format", "GrpHdr/CreDtTm", XsdFacet)
    + CountIssues(hdr.numberOfTransactions, |doc.transactions|)
    + IssueUnless(hdr.settlementMethod == "CLRG", "fednow.sttlmmtd.clrg", "GrpHdr/SttlmInf/SttlmMtd", FedNowProfile)
    + IssueUnless(hdr.clearingSystem == Some("FDN"), "fednow.clrsys.fdn", "GrpHdr/SttlmInf/ClrSys/Cd", FedNowProfile)
  }

  function IssuesFrom(transactions: seq<Transaction>, i: nat): seq<Issue>
    requires i <= |transactions|
    decreases |transactions| - i
  {
    if i == |transactions| then []
    else TransactionIssues(i, transactions[i]) + IssuesFrom(transactions, i + 1)
  }

  /** Every violation of a document, in the order the validator reports them. */
  function DocumentIssues(doc: Document, isDateTime: string -> bool): seq<Issue> {
    HeaderIssues(doc, isDateTime) + IssuesFrom(doc.transactions, 0)
  }

  lemma Regroup(a: seq<Issue>, b: seq<Issue>, c: seq<Issue>)
    ensures a + (b + c) == (a + b) + c
  {
  }

  /** The validator: header rules first, then each transaction; nothing short-circuits. */
  method ValidatePacs008(doc: Document, isDateTime: string -> bool) returns (issues: seq<Issue>)
    ensures issues == DocumentIssues(doc, isDateTime)
    ensures issues == [] <==> MeetsProfile(doc, isDateTime)
  {
    ghost var expected := DocumentIssues(doc, isDateTime);
    issues := HeaderIssues(doc, isDateTime);
    var i := 0;
    while i < |doc.transactions|
      invariant i <= |doc.transactions|
      invariant issues + IssuesFrom(doc.transactions, i) == expected
    {
      Regroup(issues, TransactionIssues(i, doc.transactions[i]), IssuesFrom(doc.transactions, i + 1));
      issues := issues + TransactionIssues(i, doc.transactions[i]);
      i := i + 1;
    }
    assert issues == expected;
    NoIssuesMeansProfile(doc, isDateTime);
  }

  // ---------------------------------------------------------- what passes

  predicate ProfileAgent(agent: Agent) {
    agent.member.Some? && agent.member.value.scheme == Some("USABA") && RoutingNumber(agent.member.value.id)
  }

  predicate ProfileAmount(amount: Amount) {
    && amount.currency == "USD"
    && var facets := ParseDecimal(amount.value);
       facets.Some? && !facets.value.isZero && facets.value.fractionDigits <= 2 && facets.value.totalDigits <= 14
  }

  predicate ProfileTransaction(t: Transaction) {
    && Max35Text(t.endToEndId)
    && (t.uetr.Some? ==> Uetr(t.uetr.value))
    && t.paymentType.Some?
    && PrtryOf(t.paymentType.value.localInstrument) == Some(LOCAL_INSTRUMENT)
    && PrtryOf(t.paymentType.value.categoryPurpose).Some?
    && CategoryPurpose(PrtryOf(t.paymentType.value.categoryPurpose).value)
    && ProfileAmount(t.amount)
    && t.settlementDate.Some?
    && t.instructingAgent.Some? && ProfileAgent(t.instructingAgent.value)
    && t.instructedAgent.Some? && ProfileAgent(t.instructedAgent.value)
    && t.debtorAccount.Some? && t.creditorAccount.Some?
    && t.chargeBearer == "SLEV"
    && ProfileAgent(t.debtorAgent) && ProfileAgent(t.creditorAgent)
  }

  /** The FedNow profile of a credit transfer, as one conjunction. */
  predicate MeetsProfile(doc: Document, isDateTime: string -> bool) {
    && doc.xmlns == Some(NAMESPACE)
    && IsFedNowMessageId(doc.header.messageId)
    && isDateTime(doc.header.creationDateTime)
    && doc.header.numberOfTransactions == "1"
    && doc.header.settlementMethod == "CLRG"
    && doc.header.clearingSystem == Some("FDN")
    && |doc.transactions| == 1
    && ProfileTransaction(doc.transactions[0])
  }

  lemma AgentClean(path: string, agent: Agent)
    ensures AgentIssues(path, agent) == [] <==> ProfileAgent(agent)
  {
  }

  lemma PartiesClean(tx: string, t: Transaction)
    ensures PartyIssues(tx, t) == [] <==>
      && t.instructingAgent.Some? && ProfileAgent(t.instructingAgent.value)
      && t.instructedAgent.Some? && ProfileAgent(t.instructedAgent.value)
      && t.debtorAccount.Some? && t.creditorAccount.Some?
      && t.chargeBearer == "SLEV"
      && ProfileAgent(t.debtorAgent) && ProfileAgent(t.creditorAgent)
  {
    AgentClean(tx + "/DbtrAgt", t.debtorAgent);
    AgentClean(tx + "/CdtrAgt", t.creditorAgent);
    if t.instructingAgent.Some? { AgentClean(tx + "/InstgAgt", t.instructingAgent.value); }
    if t.instructedAgent.Some? { AgentClean(tx + "/InstdAgt", t.instructedAgent.value); }
  }

  lemma AmountClean(path: string, amount: Amount)
    ensures AmountIssues(path, amount) == [] <==> ProfileAmount(amount)
  {
  }

  lemma TransactionClean(i: nat, t: Transaction)
    ensures TransactionIssues(i, t) == [] <==> ProfileTransaction(t)
  {
    var tx := "CdtTrfTxInf[" + Decimal(i) + "]";
    PartiesClean(tx, t);
    AmountClean(tx + "/IntrBkSttlmAmt", t.amount);
  }

  /** The validator is silent exactly on documents that meet the profile. */
  lemma NoIssuesMeansProfile(doc: Document, isDateTime: string -> bool)
    ensures DocumentIssues(doc, isDateTime) == [] <==> MeetsProfile(doc, isDateTime)
  {
    DecimalDenotes(1);
    assert Decimal(1) == "1";
    assert Value("1") == 1;
    if |doc.transactions| == 1 {
      TransactionClean(0, doc.transactions[0]);
      assert IssuesFrom(doc.transactions, 1) == [];
      assert IssuesFrom(doc.transactions, 0) == TransactionIssues(0, doc.transactions[0]);
    }
  }
}
