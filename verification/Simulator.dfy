/** The far side: scenarios, the advice ledger, the receive queues and the delayed pushes. */
module Simulators {
  import opened Wrappers
  import opened Text
  import opened Pacs008
  import opened Amounts
  import opened Requests
  import opened Protocol

  /** What the simulator does with an accepted message. */
  datatype Scenario =
    | Settle
    | AcceptWithoutPosting
    | AcwpThen(followUp: string)
    | Reject(code: string)
    | RejectService(code: string)
    | Timeout
    | Delay(ms: nat)

  /** Creditor-agent routing number to scenario. */
  type Scenarios = map<string, Scenario>

  /** The zero-configuration triggers, on the last two digits. */
  function AmountScenario(value: string): Scenario {
    if EndsWith(value, ".11") then Reject("AC04")
    else if EndsWith(value, ".22") then AcceptWithoutPosting
    else if EndsWith(value, ".33") then Scenario.Timeout
    else if EndsWith(value, ".44") then Delay(2000)
    else if EndsWith(value, ".55") then RejectService("E990")
    else if EndsWith(value, ".66") then AcwpThen("ACCC")
    else Settle
  }

  /** Configured scenarios first, then the amount. */
  function Decide(scenarios: Scenarios, doc: Document): Scenario
    requires doc.transactions != []
  {
    var tx := doc.transactions[0];
    if tx.creditorAgent.member.Some? && tx.creditorAgent.member.value.id in scenarios then
      scenarios[tx.creditorAgent.member.value.id]
    else AmountScenario(tx.amount.value)
  }

  /** The same triggers, read off the cents. */
  function CentsScenario(cents: nat): Scenario {
    match cents % 100
    case 11 => Reject("AC04")
    case 22 => AcceptWithoutPosting
    case 33 => Scenario.Timeout
    case 44 => Delay(2000)
    case 55 => RejectService("E990")
    case 66 => AcwpThen("ACCC")
    case _ => Settle
  }

  /** With no scenario configured for its creditor agent, a built message's fate depends on the cents alone. */
  lemma DecidedByCents(scenarios: Scenarios, sender: string, req: SubmitRequest)
    requires req.creditorAgent !in scenarios
    ensures Decide(scenarios, MessageOf(sender, req)) == CentsScenario(req.amountCents)
  {
    var tx := MessageOf(sender, req).transactions[0];
    assert tx.creditorAgent == AgentOf(req.creditorAgent);
    assert tx.amount.value == FormatCents(req.amountCents);
    var cents := req.amountCents;
    assert ".11" == ['.', DigitChar(1), DigitChar(1)] && ".22" == ['.', DigitChar(2), DigitChar(2)];
    assert ".33" == ['.', DigitChar(3), DigitChar(3)] && ".44" == ['.', DigitChar(4), DigitChar(4)];
    assert ".55" == ['.', DigitChar(5), DigitChar(5)] && ".66" == ['.', DigitChar(6), DigitChar(6)];
    SuffixReadsCents(cents, 11);
    SuffixReadsCents(cents, 22);
    SuffixReadsCents(cents, 33);
    SuffixReadsCents(cents, 44);
    SuffixReadsCents(cents, 55);
    SuffixReadsCents(cents, 66);
  }

  /** A scenario configured for the creditor's bank is the one that happens, whatever the amount. */
  lemma DecidedByConfiguration(scenarios: Scenarios, sender: string, req: SubmitRequest)
    requires req.creditorAgent in scenarios
    ensures Decide(scenarios, MessageOf(sender, req)) == scenarios[req.creditorAgent]
  {
    BuiltCarriesRequest(sender, req);
  }

  /** An outcome that settles the payment, whatever its sender hears. */
  predicate Settles(s: Scenario) { !Rejects(s) }

  predicate Rejects(s: Scenario) { s.Reject? || s.RejectService? }

  /** The advice on a message: the final outcome, even when nothing is sent. */
  function FirstAdvice(s: Scenario, id: string): Report {
    match s
    case Settle | Timeout | Delay(_) => Report(Some(id), Some("ACSC"), None)
    case AcceptWithoutPosting | AcwpThen(_) => Report(Some(id), Some("ACWP"), None)
    case Reject(code) => Report(Some(id), Some("RJCT"), Some(code))
    case RejectService(code) => Report(Some(id), Some("RJCT"), Some(code))
  }

  /** The receiving participant's later status. */
  function FollowUp(status: string, id: string): Report {
    Report(Some(id), Some(status), if status == "RJCT" then Some("AC04") else None)
  }

  /** Every advice a message ever produces, in order. */
  function LedgerOf(s: Scenario, id: string): (advices: seq<Report>)
    ensures advices != [] && forall r | r in advices :: r.originalId == Some(id)
  {
    if s.AcwpThen? then [FirstAdvice(s, id), FollowUp(s.followUp, id)] else [FirstAdvice(s, id)]
  }

  // ---------------------------------------------------------- the node's state

  /** An advice on its way to a participant's queue. */
  datatype Push = Push(participant: string, report: Report)

  datatype Node = Node(scenarios: Scenarios, ledger: map<string, seq<Report>>, queues: map<string, seq<Report>>,
                       delayed: seq<Push>)

  function QueueOf(n: Node, participant: string): seq<Report> {
    if participant in n.queues then n.queues[participant] else []
  }

  function Enqueued(n: Node, push: Push): Node {
    n.(queues := n.queues[push.participant := QueueOf(n, push.participant) + [push.report]])
  }

  /** Invalid messages are rejected by the service itself, whatever the scenario. */
  function Decision(scenarios: Scenarios, clean: bool, doc: Document): Scenario
    requires doc.transactions != []
  {
    if clean then Decide(scenarios, doc) else RejectService("SIMV")
  }

  /** A credit transfer over HTTP: the advice is the response, or withheld. */
  function HttpTransfer(n: Node, clean: bool, doc: Document): (Node, PortAnswer) {
    if doc.transactions == [] then (n, Rejected)
    else
      var s, id := Decision(n.scenarios, clean, doc), doc.header.messageId;
      (n.(ledger := n.ledger[id := LedgerOf(s, id)]),
       if s.Timeout? then Accepted else Advice(Status(FirstAdvice(s, id))))
  }

  /** A status request over HTTP: the latest advice on the original message. */
  function HttpQuery(n: Node, valid: bool, id: string): PortAnswer {
    if !valid || id !in n.ledger || n.ledger[id] == [] then Rejected
    else Advice(Status(n.ledger[id][|n.ledger[id]| - 1]))
  }

  /** A credit transfer over the queue pair: advices are enqueued, now or later. */
  function MqTransfer(n: Node, participant: string, clean: bool, doc: Document): (Node, PortAnswer) {
    if doc.transactions == [] then (n, Rejected)
    else
      var s, id := Decision(n.scenarios, clean, doc), doc.header.messageId;
      var n1 := n.(ledger := n.ledger[id := LedgerOf(s, id)]);
      var first := Push(participant, FirstAdvice(s, id));
      (match s
       case Timeout => n1
       case Delay(_) => n1.(delayed := n1.delayed + [first])
       case AcwpThen(status) => Enqueued(n1, first).(delayed := n1.delayed + [Push(participant, FollowUp(status, id))])
       case _ => Enqueued(n1, first),
       Accepted)
  }

  /** A status request over the queue pair: the latest advice is enqueued. */
  function MqQuery(n: Node, participant: string, valid: bool, id: string): (Node, PortAnswer) {
    if !valid || id !in n.ledger || n.ledger[id] == [] then (n, Rejected)
    else (Enqueued(n, Push(participant, n.ledger[id][|n.ledger[id]| - 1])), Accepted)
  }

  /** A destructive get. */
  function MqReceive(n: Node, participant: string): (Node, Option<Report>) {
    var q := QueueOf(n, participant);
    if q == [] then (n, None) else (n.(queues := n.queues[participant := q[1..]]), Some(q[0]))
  }

  /** A delay is over. */
  function Delivered(n: Node, i: nat): Node
    requires i < |n.delayed|
  {
    Enqueued(n, n.delayed[i]).(delayed := n.delayed[..i] + n.delayed[i + 1..])
  }

  // -------------------------------------------------- what the node ever says

  /** Everything on record or on its way satisfies `truth`. */
  ghost predicate Says(n: Node, truth: Report -> bool) {
    && (forall id | id in n.ledger :: n.ledger[id] != [] && forall r | r in n.ledger[id] :: r.originalId == Some(id) && truth(r))
    && (forall participant, r | participant in n.queues && r in n.queues[participant] :: truth(r))
    && (forall push | push in n.delayed :: truth(push.report))
  }

  lemma EnqueuedSays(n: Node, push: Push, truth: Report -> bool)
    requires Says(n, truth) && truth(push.report)
    ensures Says(Enqueued(n, push), truth)
  {
  }

  lemma LedgerSays(n: Node, id: string, advices: seq<Report>, truth: Report -> bool)
    requires Says(n, truth) && advices != []
    requires forall r | r in advices :: r.originalId == Some(id) && truth(r)
    ensures Says(n.(ledger := n.ledger[id := advices]), truth)
  {
  }

  lemma DelayedSays(n: Node, push: Push, truth: Report -> bool)
    requires Says(n, truth) && truth(push.report)
    ensures Says(n.(delayed := n.delayed + [push]), truth)
  {
  }

  /** After a transfer the node says nothing new but advices on that transfer. */
  lemma TransferSays(n: Node, participant: string, clean: bool, doc: Document, truth: Report -> bool)
    requires Says(n, truth) && doc.transactions != []
    requires forall r | r in LedgerOf(Decision(n.scenarios, clean, doc), doc.header.messageId) :: truth(r)
    ensures Says(HttpTransfer(n, clean, doc).0, truth)
    ensures Says(MqTransfer(n, participant, clean, doc).0, truth)
    ensures var answer := HttpTransfer(n, clean, doc).1;
      answer.Advice? ==>
        answer.body.Status? && answer.body.report in LedgerOf(Decision(n.scenarios, clean, doc), doc.header.messageId)
  {
    hide Says, Decision;
    var s, id := Decision(n.scenarios, clean, doc), doc.header.messageId;
    var n1 := n.(ledger := n.ledger[id := LedgerOf(s, id)]);
    var first := Push(participant, FirstAdvice(s, id));
    assert LedgerOf(s, id)[0] == FirstAdvice(s, id);
    LedgerSays(n, id, LedgerOf(s, id), truth);
    EnqueuedSays(n1, first, truth);
    DelayedSays(n1, first, truth);
    if s.AcwpThen? {
      assert LedgerOf(s, id)[1] == FollowUp(s.followUp, id);
      DelayedSays(Enqueued(n1, first), Push(participant, FollowUp(s.followUp, id)), truth);
    }
  }

  /** A query only repeats what is on record for its message. */
  lemma QuerySays(n: Node, participant: string, valid: bool, id: string, truth: Report -> bool)
    requires Says(n, truth)
    ensures Says(MqQuery(n, participant, valid, id).0, truth)
    ensures MqQuery(n, participant, valid, id).1.Accepted? || MqQuery(n, participant, valid, id).1.Rejected?
    ensures var answer := HttpQuery(n, valid, id);
      answer.Advice? ==> answer.body.Status? && truth(answer.body.report) && answer.body.report.originalId == Some(id)
  {
    if valid && id in n.ledger {
      var advices := n.ledger[id];
      assert advices[|advices| - 1] in advices;
      EnqueuedSays(n, Push(participant, advices[|advices| - 1]), truth);
    }
  }

  lemma ReceiveSays(n: Node, participant: string, truth: Report -> bool)
    requires Says(n, truth)
    ensures Says(MqReceive(n, participant).0, truth)
    ensures MqReceive(n, participant).1.Some? ==> truth(MqReceive(n, participant).1.value)
  {
  }

  lemma DeliveredSays(n: Node, i: nat, truth: Report -> bool)
    requires Says(n, truth) && i < |n.delayed|
    ensures Says(Delivered(n, i), truth)
  {
    EnqueuedSays(n, n.delayed[i], truth);
    var rest := n.delayed[..i] + n.delayed[i + 1..];
    assert forall push | push in rest :: push in n.delayed;
  }

  /** The scenario engine can change its mind in one case only: both verdicts are heard from an `ACWP` with a late `RJCT`. */
  lemma VerdictsHeard(s: Scenario, id: string, r: Report)
    requires r in LedgerOf(s, id)
    ensures r.txSts == Some("RJCT") ==> Rejects(s) || s == AcwpThen("RJCT")
    ensures r.txSts != Some("RJCT") ==> Settles(s)
    ensures Rejects(s) ==> r.txSts == Some("RJCT") && r.reason == Some(s.code)
  {
  }

  // -------------------------------------------------------------- queues

  /** What happens to the queues. */
  datatype QueueStep = Put(push: Push) | Get(participant: string)

  /** The node afterwards, and what one participant got, in order. */
  function Queued(n: Node, steps: seq<QueueStep>, participant: string): (Node, seq<Report>)
    decreases |steps|
  {
    if steps == [] then (n, [])
    else
      var (before, got) := Queued(n, steps[..|steps| - 1], participant);
      match steps[|steps| - 1]
      case Put(push) => (Enqueued(before, push), got)
      case Get(other) =>
        var (after, report) := MqReceive(before, other);
        (after, if other == participant && report.Some? then got + [report.value] else got)
  }

  /** What was put in for one participant, in order. */
  function PutFor(steps: seq<QueueStep>, participant: string): seq<Report>
    decreases |steps|
  {
    if steps == [] then []
    else
      var last := steps[|steps| - 1];
      PutFor(steps[..|steps| - 1], participant)
      + if last.Put? && last.push.participant == participant then [last.push.report] else []
  }

  /** First in, first out, for each participant by itself: what it got and what still waits is what was put in. */
  lemma {:induction false} FirstInFirstOut(n: Node, steps: seq<QueueStep>, participant: string)
    ensures var (after, got) := Queued(n, steps, participant);
      got + QueueOf(after, participant) == QueueOf(n, participant) + PutFor(steps, participant)
    decreases |steps|
  {
    if steps != [] {
      var front, last := steps[..|steps| - 1], steps[|steps| - 1];
      FirstInFirstOut(n, front, participant);
      var (before, got) := Queued(n, front, participant);
      var queue := QueueOf(before, participant);
      if last.Get? && last.participant == participant && queue != [] {
        assert got + [queue[0]] + queue[1..] == got + queue;
      } else if last.Put? && last.push.participant == participant {
        assert got + (queue + [last.push.report]) == got + queue + [last.push.report];
      }
    }
  }

  // ------------------------------------------------------------ the simulator

  /** Shared simulator state behind its locks, updated in place by the handlers. */
  class Simulator {
    const scenarios: Scenarios
    var ledger: map<string, seq<Report>>
    var queues: map<string, seq<Report>>
    var delayed: seq<Push>

    function View(): Node
      reads this
    {
      Node(scenarios, ledger, queues, delayed)
    }

    constructor (scenarios: Scenarios)
      ensures View() == Node(scenarios, map[], map[], [])
    {
      this.scenarios := scenarios;
      ledger, queues, delayed := map[], map[], [];
    }

    method Enqueue(participant: string, report: Report)
      modifies this`queues
      ensures View() == Enqueued(old(View()), Push(participant, report))
    {
      var q := if participant in queues then queues[participant] else [];
      queues := queues[participant := q + [report]];
    }

    /** Decide, put every advice in the ledger, and say what was decided. */
    method Record(clean: bool, doc: Document) returns (s: Scenario)
      requires doc.transactions != []
      modifies this`ledger
      ensures s == Decision(scenarios, clean, doc)
      ensures ledger == old(ledger)[doc.header.messageId := LedgerOf(s, doc.header.messageId)]
    {
      s := if clean then Decide(scenarios, doc) else RejectService("SIMV");
      var id := doc.header.messageId;
      var entry := [FirstAdvice(s, id)];
      if s.AcwpThen? {
        entry := entry + [FollowUp(s.followUp, id)];
      }
      assert entry == LedgerOf(s, id);
      ledger := ledger[id := entry];
    }

    method HandlePacs008(clean: bool, doc: Document) returns (answer: PortAnswer)
      modifies this`ledger
      ensures (View(), answer) == HttpTransfer(old(View()), clean, doc)
    {
      if doc.transactions == [] {
        return Rejected;
      }
      var s := Record(clean, doc);
      answer := if s.Timeout? then Accepted else Advice(Status(FirstAdvice(s, doc.header.messageId)));
    }

    method LatestAdvice(id: string) returns (advice: Option<Report>)
      ensures advice == if id in ledger && ledger[id] != [] then Some(ledger[id][|ledger[id]| - 1]) else None
    {
      if id !in ledger || ledger[id] == [] {
        return None;
      }
      return Some(ledger[id][|ledger[id]| - 1]);
    }

    method HandlePacs028(valid: bool, id: string) returns (answer: PortAnswer)
      ensures answer == HttpQuery(View(), valid, id)
    {
      if !valid {
        return Rejected;
      }
      var advice := LatestAdvice(id);
      answer := if advice.Some? then Advice(Status(advice.value)) else Rejected;
    }

    /** Every advice is enqueued: at once, or by a spawned task once its delay is over. */
    method MqProcessCreditTransfer(participant: string, clean: bool, doc: Document) returns (answer: PortAnswer)
      modifies this
      ensures (View(), answer) == MqTransfer(old(View()), participant, clean, doc)
    {
      if doc.transactions == [] {
        return Rejected;
      }
      var s := Record(clean, doc);
      var id := doc.header.messageId;
      if s.Delay? {
        delayed := delayed + [Push(participant, FirstAdvice(s, id))];
      } else if s.AcwpThen? {
        Enqueue(participant, FirstAdvice(s, id));
        delayed := delayed + [Push(participant, FollowUp(s.followUp, id))];
      } else if !s.Timeout? {
        Enqueue(participant, FirstAdvice(s, id));
      }
      return Accepted;
    }

    method MqProcessStatusRequest(participant: string, valid: bool, id: string) returns (answer: PortAnswer)
      modifies this`queues
      ensures (View(), answer) == MqQuery(old(View()), participant, valid, id)
    {
      if !valid {
        return Rejected;
      }
      var advice := LatestAdvice(id);
      if advice.None? {
        return Rejected;
      }
      Enqueue(participant, advice.value);
      return Accepted;
    }

    method HandleMqReceive(participant: string) returns (report: Option<Report>)
      modifies this`queues
      ensures (View(), report) == MqReceive(old(View()), participant)
      ensures var before, after := QueueOf(old(View()), participant), QueueOf(View(), participant);
        && ledger == old(ledger) && delayed == old(delayed)
        && (report.None? <==> before == []) && (report.Some? ==> before == [report.value] + after)
        && forall other | other != participant :: QueueOf(View(), other) == QueueOf(old(View()), other)
    {
      var q := if participant in queues then queues[participant] else [];
      if q == [] {
        return None;
      }
      queues := queues[participant := q[1..]];
      return Some(q[0]);
    }

    /** What a spawned task does when it wakes. */
    method Wake(i: nat)
      requires i < |delayed|
      modifies this
      ensures View() == Delivered(old(View()), i)
    {
      Enqueue(delayed[i].participant, delayed[i].report);
      delayed := delayed[..i] + delayed[i + 1..];
    }
  }
}
