/** The profile, rule by rule: which issue stands for which fault. */
module Rules {
  import opened Wrappers
  import opened Text
  import opened Pacs008
  import opened Amounts
  import opened Validation

  // ------------------------------------------------------ rule by rule

  ghost predicate HeaderFault(doc: Document, isDateTime: string -> bool, issue: Issue) {
    var hdr := doc.header;
    || (issue == Issue("xsd.namespace", "Document", XsdFacet)
        && doc.xmlns != Some("urn:iso:std:iso:20022:tech:xsd:pacs.008.001.08"))
    || (issue == Issue("xsd.msgid.length", "GrpHdr/MsgId", XsdFacet) && !(1 <= |hdr.messageId| <= 35))
    || (issue == Issue("fednow.msgid.format", "GrpHdr/MsgId", FedNowProfile) && !MessageIdShape(hdr.messageId))
    || (issue == Issue("xsd.credttm.format", "GrpHdr/CreDtTm", XsdFacet) && !isDateTime(hdr.creationDateTime))
    || CountFault(hdr.numberOfTransactions, |doc.transactions|, issue)
    || (issue == Issue("fednow.sttlmmtd.clrg", "GrpHdr/SttlmInf/SttlmMtd", FedNowProfile) && hdr.settlementMethod != "CLRG")
    || (issue == Issue("fednow.clrsys.fdn", "GrpHdr/SttlmInf/ClrSys/Cd", FedNowProfile) && hdr.clearingSystem != Some("FDN"))
  }

  /** A numeral of up to fifteen digits, naming the actual count, which is one: the first fault is the one reported. */
  ghost predicate CountFault(nb: string, transactions: nat, issue: Issue) {
    var numeral := 1 <= |nb| <= 15 && AllDigits(nb);
    || (issue == Issue("xsd.nboftxs.pattern", "GrpHdr/NbOfTxs", XsdFacet) && !numeral)
    || (issue == Issue("iso.nboftxs.mismatch", "GrpHdr/NbOfTxs", IsoRule) && numeral && Value(nb) != transactions)
    || (issue == Issue("fednow.nboftxs.one", "GrpHdr/NbOfTxs", FedNowProfile)
        && numeral && Value(nb) == transactions && nb != "1")
  }

  /** Three capitals, and those of the dollar. */
  ghost predicate CurrencyFault(path: string, ccy: string, issue: Issue) {
    var capitals := |ccy| == 3 && forall i | 0 <= i < 3 :: 'A' <= ccy[i] <= 'Z';
    || (issue == Issue("xsd.ccy.pattern", path + "/@Ccy", XsdFacet) && !capitals)
    || (issue == Issue("fednow.ccy.usd", path + "/@Ccy", FedNowProfile) && capitals && ccy != "USD")
  }

  /** Digits around at most one point. */
  ghost predicate IsDecimal(s: string, whole: string, fraction: string) {
    && AllDigits(whole) && AllDigits(fraction) && |whole| + |fraction| >= 1
    && (s == whole + "." + fraction || (s == whole && fraction == ""))
  }

  ghost predicate IsNumeral(s: string, whole: string, fraction: string) {
    IsDecimal(s, whole, fraction) && |whole| + |fraction| <= 18 && |fraction| <= 5
  }

  ghost predicate ValueFault(path: string, value: string, issue: Issue) {
    || (issue == Issue("xsd.amount.format", path, XsdFacet) && !exists w, f :: IsNumeral(value, w, f))
    || (exists w, f :: IsNumeral(value, w, f) && NumeralFault(path, w, f, issue))
  }

  ghost predicate NumeralFault(path: string, whole: string, fraction: string, issue: Issue) {
    || (issue == Issue("fednow.amount.positive", path, FedNowProfile) && forall c | c in whole + fraction :: c == '0')
    || (issue == Issue("fednow.amount.cents", path, FedNowProfile) && |fraction| > 2)
    || (issue == Issue("fednow.amount.digits", path, FedNowProfile) && |whole| + |fraction| > 14)
  }

  ghost predicate AgentFault(path: string, agent: Agent, issue: Issue) {
    match agent.member
    case None => issue == Issue("fednow.agent.clrsysmmbid", path + "/FinInstnId/ClrSysMmbId", FedNowProfile)
    case Some(member) =>
      var nine := |member.id| == 9 && AllDigits(member.id);
      || (issue == Issue("fednow.agent.usaba", path + "/FinInstnId/ClrSysMmbId/ClrSysId/Cd", FedNowProfile)
          && member.scheme != Some("USABA"))
      || (issue == Issue("fednow.aba.format", path + "/FinInstnId/ClrSysMmbId/MmbId", FedNowProfile) && !nine)
      || (issue == Issue("fednow.aba.checksum", path + "/FinInstnId/ClrSysMmbId/MmbId", FedNowProfile)
          && nine && !ChecksOut(member.id))
  }

  ghost predicate NamedAgentFault(path: string, code: string, agent: Option<Agent>, issue: Issue) {
    if agent.None? then issue == Issue(code, path, FedNowProfile) else AgentFault(path, agent.value, issue)
  }

  ghost predicate PaymentTypeFault(tx: string, paymentType: Option<PaymentType>, issue: Issue) {
    if paymentType.None? then issue == Issue("fednow.pmttpinf.required", tx + "/PmtTpInf", FedNowProfile)
    else
      var instrument, purpose := PrtryOf(paymentType.value.localInstrument), PrtryOf(paymentType.value.categoryPurpose);
      || (issue == Issue("fednow.pmttpinf.lclinstrm", tx + "/PmtTpInf/LclInstrm", FedNowProfile) && instrument.None?)
      || (issue == Issue("fednow.lclinstrm.fdna", tx + "/PmtTpInf/LclInstrm/Prtry", FedNowProfile)
          && instrument.Some? && instrument.value != "FDNA")
      || (issue == Issue("fednow.pmttpinf.ctgypurp", tx + "/PmtTpInf/CtgyPurp", FedNowProfile) && purpose.None?)
      || (issue == Issue("fednow.ctgypurp.known", tx + "/PmtTpInf/CtgyPurp/Prtry", FedNowProfile)
          && purpose.Some? && purpose.value != "CONS" && purpose.value != "BIZZ")
  }

  ghost predicate BearerFault(tx: string, bearer: string, issue: Issue) {
    var known := bearer == "DEBT" || bearer == "CRED" || bearer == "SHAR" || bearer == "SLEV";
    || (issue == Issue("xsd.chrgbr.enum", tx + "/ChrgBr", XsdFacet) && !known)
    || (issue == Issue("fednow.chrgbr.slev", tx + "/ChrgBr", FedNowProfile) && known && bearer != "SLEV")
  }

  ghost predicate IdFault(tx: string, t: Transaction, issue: Issue) {
    || (issue == Issue("xsd.endtoendid.length", tx + "/PmtId/EndToEndId", XsdFacet) && !(1 <= |t.endToEndId| <= 35))
    || (issue == Issue("xsd.uetr.pattern", tx + "/PmtId/UETR", XsdFacet) && t.uetr.Some? && !Uetr(t.uetr.value))
  }

  ghost predicate PartyFault(tx: string, t: Transaction, issue: Issue) {
    || NamedAgentFault(tx + "/InstgAgt", "fednow.instgagt.required", t.instructingAgent, issue)
    || NamedAgentFault(tx + "/InstdAgt", "fednow.instdagt.required", t.instructedAgent, issue)
    || (issue == Issue("fednow.dbtracct.required", tx + "/DbtrAcct", FedNowProfile) && t.debtorAccount.None?)
    || (issue == Issue("fednow.cdtracct.required", tx + "/CdtrAcct", FedNowProfile) && t.creditorAccount.None?)
    || BearerFault(tx, t.chargeBearer, issue)
    || AgentFault(tx + "/DbtrAgt", t.debtorAgent, issue)
    || AgentFault(tx + "/CdtrAgt", t.creditorAgent, issue)
  }

  ghost predicate TransactionFault(tx: string, t: Transaction, issue: Issue) {
    || IdFault(tx, t, issue)
    || PaymentTypeFault(tx, t.paymentType, issue)
    || CurrencyFault(tx + "/IntrBkSttlmAmt", t.amount.currency, issue)
    || ValueFault(tx + "/IntrBkSttlmAmt", t.amount.value, issue)
    || (issue == Issue("fednow.intrbksttlmdt.required", tx + "/IntrBkSttlmDt", FedNowProfile) && t.settlementDate.None?)
    || PartyFault(tx, t, issue)
  }

  // ------------------------------------------------------------ reported

  lemma HeaderReported(doc: Document, isDateTime: string -> bool, issue: Issue)
    ensures issue in HeaderIssues(doc, isDateTime) <==> HeaderFault(doc, isDateTime, issue)
  {
    MessageIdByShape(doc.header.messageId);
    hide IsFedNowMessageId, MessageIdShape, Value;
    CountReported(doc.header.numberOfTransactions, |doc.transactions|, issue);
    hide CountIssues, CountFault;
  }

  lemma CountReported(nb: string, transactions: nat, issue: Issue)
    ensures issue in CountIssues(nb, transactions) <==> CountFault(nb, transactions, issue)
  {
    hide Value;
  }

  lemma CurrencyReported(path: string, ccy: string, issue: Issue)
    ensures issue in CurrencyIssues(path, ccy) <==> CurrencyFault(path, ccy, issue)
  {
  }

  /** The parts of a decimal are what its point separates. */
  lemma DecimalParts(s: string, whole: string, fraction: string)
    requires IsDecimal(s, whole, fraction)
    ensures (if SplitOnce(s, '.').Some? then SplitOnce(s, '.').value else (s, "")) == (whole, fraction)
    ensures (forall i | 0 <= i < |s| :: s[i] == '0' || s[i] == '.') <==> forall c | c in whole + fraction :: c == '0'
  {
    assert '.' !in whole && '.' !in fraction;
    if s == whole + "." + fraction {
      assert s == whole + ['.'] + fraction;
      SplitAtFirst(whole, '.', fraction);
    } else {
      assert whole + fraction == s;
      assert forall i | 0 <= i < |s| :: s[i] in s;
    }
    ZerosAround(s, whole, fraction);
  }

  lemma ZerosAround(s: string, whole: string, fraction: string)
    requires '.' !in whole && '.' !in fraction
    requires s == whole + "." + fraction || (s == whole && fraction == "")
    ensures (forall i | 0 <= i < |s| :: s[i] == '0' || s[i] == '.') <==> forall c | c in whole + fraction :: c == '0'
  {
    if forall i | 0 <= i < |s| :: s[i] == '0' || s[i] == '.' {
      forall c | c in whole + fraction
        ensures c == '0'
      {
        assert c in s;
      }
    }
    if forall c | c in whole + fraction :: c == '0' {
      forall i | 0 <= i < |s|
        ensures s[i] == '0' || s[i] == '.'
      {
        assert s[i] in whole || s[i] in fraction || s[i] == '.';
        assert s[i] != '.' ==> s[i] in whole + fraction;
      }
    }
  }

  /** What parses is a numeral, cut at its point. */
  lemma ParsesNumerals(s: string)
    ensures ParseDecimal(s).Some? <==> exists w, f :: IsNumeral(s, w, f)
    ensures forall w, f | IsNumeral(s, w, f) ::
      ParseDecimal(s) == Some(DecimalFacets(forall c | c in w + f :: c == '0', |f|, |w| + |f|))
  {
    forall w, f | IsNumeral(s, w, f)
      ensures ParseDecimal(s) == Some(DecimalFacets(forall c | c in w + f :: c == '0', |f|, |w| + |f|))
    {
      DecimalParts(s, w, f);
    }
    if ParseDecimal(s).Some? {
      var w, f := PartsOfParsed(s);
    }
  }

  lemma PartsOfParsed(s: string) returns (w: string, f: string)
    requires ParseDecimal(s).Some?
    ensures IsNumeral(s, w, f)
  {
    var i := IndexOf(s, '.');
    if i < |s| {
      w, f := s[..i], s[i + 1..];
      assert s == w + "." + f;
    } else {
      w, f := s, "";
    }
  }

  lemma ValueReported(path: string, value: string, issue: Issue)
    ensures issue in ValueIssues(path, value) <==> ValueFault(path, value, issue)
  {
    ParsesNumerals(value);
    hide ParseDecimal, IsNumeral;
    if w, f :| IsNumeral(value, w, f) {
      forall w', f' | IsNumeral(value, w', f')
        ensures NumeralFault(path, w', f', issue) <==> issue in ValueIssues(path, value)
      {
      }
    }
  }

  lemma AgentReported(path: string, agent: Agent, issue: Issue)
    ensures issue in AgentIssues(path, agent) <==> AgentFault(path, agent, issue)
  {
    if agent.member.Some? {
      RoutingNumberByDigits(agent.member.value.id);
      hide AbaChecksumOk, ChecksOut;
    }
  }

  lemma NamedAgentReported(path: string, code: string, agent: Option<Agent>, issue: Issue)
    ensures issue in RequiredAgentIssues(path, code, agent) <==> NamedAgentFault(path, code, agent, issue)
  {
    hide AgentIssues, AgentFault;
    if agent.Some? {
      AgentReported(path, agent.value, issue);
    }
  }

  lemma PaymentTypeReported(tx: string, paymentType: Option<PaymentType>, issue: Issue)
    ensures issue in PaymentTypeIssues(tx, paymentType) <==> PaymentTypeFault(tx, paymentType, issue)
  {
  }

  lemma BearerReported(tx: string, bearer: string, issue: Issue)
    ensures issue in ChargeBearerIssues(tx, bearer) <==> BearerFault(tx, bearer, issue)
  {
  }

  lemma PartyReported(tx: string, t: Transaction, issue: Issue)
    ensures issue in PartyIssues(tx, t) <==> PartyFault(tx, t, issue)
  {
    hide RequiredAgentIssues, AgentIssues, ChargeBearerIssues, NamedAgentFault, AgentFault, BearerFault;
    NamedAgentReported(tx + "/InstgAgt", "fednow.instgagt.required", t.instructingAgent, issue);
    NamedAgentReported(tx + "/InstdAgt", "fednow.instdagt.required", t.instructedAgent, issue);
    BearerReported(tx, t.chargeBearer, issue);
    AgentReported(tx + "/DbtrAgt", t.debtorAgent, issue);
    AgentReported(tx + "/CdtrAgt", t.creditorAgent, issue);
  }

  lemma TransactionReported(i: nat, t: Transaction, issue: Issue)
    ensures issue in TransactionIssues(i, t) <==> TransactionFault("CdtTrfTxInf[" + Decimal(i) + "]", t, issue)
  {
    hide PartyIssues, PaymentTypeIssues, CurrencyIssues, ValueIssues, PartyFault, PaymentTypeFault, CurrencyFault,
         ValueFault, Uetr;
    var tx := "CdtTrfTxInf[" + Decimal(i) + "]";
    PaymentTypeReported(tx, t.paymentType, issue);
    CurrencyReported(tx + "/IntrBkSttlmAmt", t.amount.currency, issue);
    ValueReported(tx + "/IntrBkSttlmAmt", t.amount.value, issue);
    PartyReported(tx, t, issue);
  }

  lemma {:induction false} TransactionsReported(transactions: seq<Transaction>, i: nat, issue: Issue)
    requires i <= |transactions|
    ensures issue in IssuesFrom(transactions, i) <==>
      exists k :: i <= k < |transactions| && TransactionFault("CdtTrfTxInf[" + Decimal(k) + "]", transactions[k], issue)
    decreases |transactions| - i
  {
    hide TransactionIssues, TransactionFault, Decimal;
    if i < |transactions| {
      TransactionReported(i, transactions[i], issue);
      TransactionsReported(transactions, i + 1, issue);
    }
  }

  /** The validator reports an issue exactly when the document has the fault it stands for, at the place it names. */
  lemma EachRuleReported(doc: Document, isDateTime: string -> bool, issue: Issue)
    ensures issue in DocumentIssues(doc, isDateTime) <==>
      || HeaderFault(doc, isDateTime, issue)
      || exists k :: 0 <= k < |doc.transactions|
                     && TransactionFault("CdtTrfTxInf[" + Decimal(k) + "]", doc.transactions[k], issue)
  {
    hide HeaderIssues, HeaderFault, TransactionFault, IssuesFrom, Decimal;
    HeaderReported(doc, isDateTime, issue);
    TransactionsReported(doc.transactions, 0, issue);
  }
}
