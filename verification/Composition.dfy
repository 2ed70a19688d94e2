/**
 * Gateway and simulator composed over an unreliable network: messages may arrive late, often or never,
 * replies may be lost, pushes are delayed, and the gateway may crash; its verdicts still agree with what
 * the far side decided.
 */
module Composition {
  import opened Wrappers
  import opened Payments
  import opened Histories
  import opened Pacs008
  import opened Requests
  import opened Validation
  import opened RiskGates
  import opened Protocol
  import opened Reconciliation
  import opened StoreInvariant
  import opened Interleaving
  import opened Footprints
  import opened Reachability
  import opened Guarantees
  import opened Simulators
  import T = Tables

  /** How the two sides are connected, and what the far side's validators accept. */
  datatype Far = Far(http: bool, participant: string, cleanEnvelope: Document -> bool, scenarios: Scenarios)

  /** What the far side decides about a message, whenever it processes it. */
  function Verdict(cfg: Config, far: Far, doc: Document): Scenario
    requires doc.transactions != []
  {
    Decision(far.scenarios, if far.http then cfg.clean(doc) else far.cleanEnvelope(doc), doc)
  }

  /** The two sides, and every reply the far side has given so far. */
  datatype System = System(w: World, node: Node, replies: set<(Document, PortAnswer)>, queryReplies: set<(string, PortAnswer)>)

  function Initially(far: Far): System { System(START, Node(far.scenarios, map[], map[], []), {}, {}) }

  datatype Hop =
    | Own(action: Label)                             // a gateway step that talks to no one
    | Arrives(entry: T.Entry)                        // a message given to the port reaches the far side
    | Answers(id: nat, answer: PortAnswer)           // a send returns
    | QueryArrives(key: Key, valid: bool)            // a status request reaches the far side
    | QueryAnswers(id: nat, answer: PortAnswer)      // a status request returns
    | Polls(id: nat, lost: bool)                     // a destructive get, whose reply may be lost
    | Pushes(i: nat)                                 // a delay is over

  /** The port has been given this entry, or is being given it. */
  predicate Given(w: World, entry: T.Entry) {
    || (exists mark | mark in w.trace :: mark.HandedOff? && mark.entry == entry)
    || (exists id | id in w.tasks :: w.tasks[id].Sending? && w.tasks[id].entry == entry)
  }

  /** Transport failures and refusals can come from the network; anything else the far side said. */
  predicate CanReturn<X(==)>(replies: set<(X, PortAnswer)>, about: X, answer: PortAnswer) {
    answer.TransportFailure? || answer.Rejected? || (about, answer) in replies
  }

  function Transferred(cfg: Config, far: Far, n: Node, doc: Document): (Node, PortAnswer) {
    if far.http then HttpTransfer(n, cfg.clean(doc), doc)
    else MqTransfer(n, far.participant, far.cleanEnvelope(doc), doc)
  }

  function Asked028(far: Far, n: Node, valid: bool, id: string): (Node, PortAnswer) {
    if far.http then (n, HttpQuery(n, valid, id)) else MqQuery(n, far.participant, valid, id)
  }

  function Hopped(cfg: Config, far: Far, s: System, hop: Hop): System {
    match hop
    case Own(action) => if Silent(action) then s.(w := Next(cfg, s.w, action)) else s
    case Arrives(entry) =>
      if !Given(s.w, entry) then s
      else
        var (node, answer) := Transferred(cfg, far, s.node, entry.message);
        s.(node := node, replies := s.replies + {(entry.message, answer)})
    case Answers(id, answer) =>
      if id in s.w.tasks && s.w.tasks[id].Sending? && CanReturn(s.replies, s.w.tasks[id].entry.message, answer) then
        s.(w := Next(cfg, s.w, Step(id, Oracle.Port(answer))))
      else s
    case QueryArrives(key, valid) =>
      var p := T.Load(s.w.db, key);
      if p.None? || p.value.queriesSent == 0 then s
      else
        var (node, answer) := Asked028(far, s.node, valid, p.value.messageId);
        s.(node := node, queryReplies := s.queryReplies + {(p.value.messageId, answer)})
    case QueryAnswers(id, answer) =>
      if id in s.w.tasks && s.w.tasks[id].AwaitingQuery? && T.Load(s.w.db, s.w.tasks[id].key).Some?
         && CanReturn(s.queryReplies, T.Load(s.w.db, s.w.tasks[id].key).value.messageId, answer) then
        s.(w := Next(cfg, s.w, Step(id, Oracle.Port(answer))))
      else s
    case Polls(id, lost) =>
      if far.http || id !in s.w.tasks || !s.w.tasks[id].Polling? then s
      else
        var (node, report) := MqReceive(s.node, far.participant);
        var body := if lost || report.None? then None else Some(Status(report.value));
        s.(w := Next(cfg, s.w, Step(id, Oracle.Polled(body))), node := node)
    case Pushes(i) => if i < |s.node.delayed| then s.(node := Delivered(s.node, i)) else s
  }

  function Unfold(cfg: Config, far: Far, hops: seq<Hop>): System
    decreases |hops|
  {
    if hops == [] then Initially(far)
    else Hopped(cfg, far, Unfold(cfg, far, hops[..|hops| - 1]), hops[|hops| - 1])
  }

  /** Distinct payments have distinct message ids. */
  ghost predicate DistinctIds(cfg: Config, requests: Ledger) {
    forall a, b | a in requests && b in requests && a != b ::
      MessageIdOf(cfg.sender, requests[a]) != MessageIdOf(cfg.sender, requests[b])
  }

  // ------------------------------------------------------------ what is true

  /** An advice the far side could give on the payment of `key`. */
  ghost predicate Fits(cfg: Config, far: Far, requests: Ledger, key: Key, r: Report) {
    key in requests
    && cfg.build(requests[key]).transactions != []
    && r in LedgerOf(Verdict(cfg, far, cfg.build(requests[key])), MessageIdOf(cfg.sender, requests[key]))
  }

  ghost predicate EventFits(cfg: Config, far: Far, requests: Ledger, key: Key, e: Event) {
    exists r :: Fits(cfg, far, requests, key, r) && AdviceOf(r, e.at) == Some(e)
  }

  /** An advice on some payment this gateway made. */
  ghost predicate Truthful(cfg: Config, far: Far, requests: Ledger, r: Report) {
    exists key :: Fits(cfg, far, requests, key, r)
  }

  ghost predicate AnswerFits(cfg: Config, far: Far, requests: Ledger, key: Key, answer: PortAnswer) {
    answer.Advice? ==> answer.body.Status? && Fits(cfg, far, requests, key, answer.body.report)
  }

  /** What a task heard from the far side. */
  ghost predicate Heard(cfg: Config, far: Far, requests: Ledger, task: Task) {
    match task
    case Acknowledging(entry, answer, _, _) => AnswerFits(cfg, far, requests, entry.key, answer)
    case Publishing(entry, answer, _, _) => AnswerFits(cfg, far, requests, entry.key, answer)
    case Advising(key, event, _, _) => EventFits(cfg, far, requests, key, event)
    case Listing(report, _) => Truthful(cfg, far, requests, report)
    case Searching(report, _, _) => Truthful(cfg, far, requests, report)
    case Correlated(key, event, _) => EventFits(cfg, far, requests, key, event)
    case QueryAdvising(key, event) => EventFits(cfg, far, requests, key, event)
    case _ => true
  }

  ghost predicate StreamsFit(cfg: Config, far: Far, requests: Ledger, streams: map<Key, seq<Event>>) {
    forall key, e | key in streams && e in streams[key] && e.AdviceReceived? :: EventFits(cfg, far, requests, key, e)
  }

  ghost predicate NodeFits(cfg: Config, far: Far, requests: Ledger, n: Node) {
    n.scenarios == far.scenarios && Says(n, Truth(cfg, far, requests))
  }

  ghost function Truth(cfg: Config, far: Far, requests: Ledger): Report -> bool {
    r => Truthful(cfg, far, requests, r)
  }

  /** Replies name the message or the payment they are about. */
  ghost predicate RepliesFit(cfg: Config, far: Far, requests: Ledger, s: System) {
    && (forall m, answer | (m, answer) in s.replies ::
          exists key :: key in requests && m == cfg.build(requests[key]) && AnswerFits(cfg, far, requests, key, answer))
    && (forall id, answer | (id, answer) in s.queryReplies && answer.Advice? ::
          answer.body.Status? && Truthful(cfg, far, requests, answer.body.report)
          && answer.body.report.originalId == Some(id))
  }

  ghost predicate SystemOk(cfg: Config, far: Far, s: System) {
    && WorldOk(cfg, s.w)
    && StreamsFit(cfg, far, s.w.requests, s.w.db.streams)
    && NodeFits(cfg, far, s.w.requests, s.node)
    && RepliesFit(cfg, far, s.w.requests, s)
    && forall id | id in s.w.tasks :: Heard(cfg, far, s.w.requests, s.w.tasks[id])
  }

  // ------------------------------------------------ truth survives new payments

  ghost predicate Extends(requests: Ledger, requests': Ledger) {
    forall k | k in requests :: k in requests' && requests'[k] == requests[k]
  }

  lemma EventStillFits(cfg: Config, far: Far, requests: Ledger, requests': Ledger, key: Key, e: Event)
    requires EventFits(cfg, far, requests, key, e) && Extends(requests, requests')
    ensures EventFits(cfg, far, requests', key, e)
  {
    hide AdviceOf, LedgerOf, Verdict;
    var r :| Fits(cfg, far, requests, key, r) && AdviceOf(r, e.at) == Some(e);
    assert Fits(cfg, far, requests', key, r);
  }

  lemma StillTruthful(cfg: Config, far: Far, requests: Ledger, requests': Ledger, r: Report)
    requires Truthful(cfg, far, requests, r) && Extends(requests, requests')
    ensures Truthful(cfg, far, requests', r)
  {
    hide LedgerOf, Verdict;
    var key :| Fits(cfg, far, requests, key, r);
    assert Fits(cfg, far, requests', key, r);
  }

  lemma StillHeard(cfg: Config, far: Far, requests: Ledger, requests': Ledger, task: Task)
    requires Heard(cfg, far, requests, task) && Extends(requests, requests')
    ensures Heard(cfg, far, requests', task)
  {
    hide EventFits, Truthful, LedgerOf, Verdict;
    match task
    case Advising(key, event, _, _) => EventStillFits(cfg, far, requests, requests', key, event);
    case Correlated(key, event, _) => EventStillFits(cfg, far, requests, requests', key, event);
    case QueryAdvising(key, event) => EventStillFits(cfg, far, requests, requests', key, event);
    case Listing(report, _) => StillTruthful(cfg, far, requests, requests', report);
    case Searching(report, _, _) => StillTruthful(cfg, far, requests, requests', report);
    case _ =>
  }

  lemma NodeStillFits(cfg: Config, far: Far, requests: Ledger, requests': Ledger, n: Node)
    requires NodeFits(cfg, far, requests, n) && Extends(requests, requests')
    ensures NodeFits(cfg, far, requests', n)
  {
    hide Truthful, Extends, Says;
    var truth, truth' := Truth(cfg, far, requests), Truth(cfg, far, requests');
    forall r | truth(r)
      ensures truth'(r)
    {
      StillTruthful(cfg, far, requests, requests', r);
    }
    SaysMore(n, truth, truth');
  }

  lemma SaysMore(n: Node, truth: Report -> bool, truth': Report -> bool)
    requires Says(n, truth) && forall r :: truth(r) ==> truth'(r)
    ensures Says(n, truth')
  {
  }

  lemma RepliesStillFit(cfg: Config, far: Far, requests: Ledger, requests': Ledger, s: System)
    requires RepliesFit(cfg, far, requests, s) && Extends(requests, requests')
    ensures RepliesFit(cfg, far, requests', s)
  {
    hide Truthful, LedgerOf, Verdict;
    forall m, answer | (m, answer) in s.replies
      ensures exists key :: key in requests' && m == cfg.build(requests'[key]) && AnswerFits(cfg, far, requests', key, answer)
    {
      var key :| key in requests && m == cfg.build(requests[key]) && AnswerFits(cfg, far, requests, key, answer);
      assert key in requests' && m == cfg.build(requests'[key]) && AnswerFits(cfg, far, requests', key, answer);
    }
    forall id, answer | (id, answer) in s.queryReplies && answer.Advice?
      ensures answer.body.Status? && Truthful(cfg, far, requests', answer.body.report)
    {
      StillTruthful(cfg, far, requests, requests', answer.body.report);
    }
  }

  // --------------------------------------------------------- a gateway step

  /** What a step is told by the far side fits the payment it is about. */
  ghost predicate OracleFits(cfg: Config, far: Far, requests: Ledger, task: Task, oracle: Oracle) {
    && (task.Sending? && oracle.Port? ==> AnswerFits(cfg, far, requests, task.entry.key, oracle.reply))
    && (task.AwaitingQuery? && oracle.Port? ==> AnswerFits(cfg, far, requests, task.key, oracle.reply))
    && (task.Polling? && oracle.Polled? && oracle.body.Some? && oracle.body.value.Status? ==>
          Truthful(cfg, far, requests, oracle.body.value.report))
  }

  lemma AdviceFits(cfg: Config, far: Far, requests: Ledger, key: Key, answer: PortAnswer, now: int)
    requires AnswerFits(cfg, far, requests, key, answer) && AdviceIn(answer, now).Some?
    ensures EventFits(cfg, far, requests, key, AdviceIn(answer, now).value)
  {
    hide LedgerOf, Verdict;
    assert Fits(cfg, far, requests, key, answer.body.report);
  }

  /** With distinct ids, a report found by its message id is about the payment found. */
  lemma CorrelationIsSound(cfg: Config, far: Far, t: T.Tables, requests: Ledger, report: Report, key: Key, now: int)
    requires TablesOk(cfg, t, requests) && DistinctIds(cfg, requests)
    requires Truthful(cfg, far, requests, report) && T.Load(t, key).Some? && AdviceOf(report, now).Some?
    requires Some(T.Load(t, key).value.messageId) == report.originalId
    ensures T.Load(t, key).value.key == key
    ensures EventFits(cfg, far, requests, key, AdviceOf(report, now).value)
  {
    hide TablesOk, Replay, LedgerOf, Verdict;
    LoadIsAt(cfg, t, requests, key);
    KnownStream(cfg, t, requests, key);
    IdOnRecord(cfg, requests[key], t.streams[key]);
    var about :| Fits(cfg, far, requests, about, report);
    LedgerNames(cfg, far, requests, about, report);
  }

  lemma IdOnRecord(cfg: Config, req: SubmitRequest, h: seq<Event>)
    requires StreamOk(cfg, req, h)
    ensures Replay(h).Ok? && Replay(h).value.messageId == MessageIdOf(cfg.sender, req)
  {
    IdentityIsFixed(h);
  }

  lemma LedgerNames(cfg: Config, far: Far, requests: Ledger, key: Key, r: Report)
    requires Fits(cfg, far, requests, key, r)
    ensures key in requests && r.originalId == Some(MessageIdOf(cfg.sender, requests[key]))
  {
  }

  lemma DrainHeard(cfg: Config, far: Far, t: T.Tables, requests: Ledger, task: Task, oracle: Oracle)
    requires InDrain(task)
    requires Heard(cfg, far, requests, task) && OracleFits(cfg, far, requests, task, oracle)
    ensures Heard(cfg, far, requests, DrainStep(t, task, oracle).next)
  {
    hide EventFits, AnswerFits, AdviceIn, T.Append, T.MarkPublished, T.NextUnpublished;
    if task.Publishing? && AdviceIn(task.answer, task.now).Some? {
      AdviceFits(cfg, far, requests, task.entry.key, task.answer, task.now);
    }
  }

  lemma PumpHeard(cfg: Config, far: Far, t: T.Tables, requests: Ledger, task: Task, oracle: Oracle)
    requires InPump(task)
    requires TablesOk(cfg, t, requests) && DistinctIds(cfg, requests)
    requires Heard(cfg, far, requests, task) && OracleFits(cfg, far, requests, task, oracle)
    ensures Heard(cfg, far, requests, PumpStep(t, task, oracle).next)
  {
    hide TablesOk, EventFits, Truthful, AdviceOf, T.Append, T.Load;
    if task.Searching? && oracle.Pick? && oracle.choice in task.candidates && T.Load(t, oracle.choice).Some?
       && AdviceOf(task.report, task.now).Some? && Some(T.Load(t, oracle.choice).value.messageId) == task.report.originalId {
      CorrelationIsSound(cfg, far, t, requests, task.report, oracle.choice, task.now);
    }
  }

  lemma ReconcileHeard(cfg: Config, far: Far, t: T.Tables, requests: Ledger, task: Task, oracle: Oracle)
    requires InReconcile(task)
    requires Heard(cfg, far, requests, task) && OracleFits(cfg, far, requests, task, oracle)
    ensures Heard(cfg, far, requests, ReconcileStep(cfg, t, task, oracle).next)
  {
    hide EventFits, AnswerFits, AdviceIn, T.Append, T.Load, NextAction;
    if task.AwaitingQuery? && oracle.Port? && AdviceIn(oracle.reply, task.now).Some? {
      AdviceFits(cfg, far, requests, task.key, oracle.reply, task.now);
    }
  }

  lemma SubmitHeard(cfg: Config, far: Far, t: T.Tables, requests: Ledger, task: Task, oracle: Oracle)
    requires InSubmit(task)
    requires Heard(cfg, far, requests, task)
    ensures Heard(cfg, far, requests, SubmitStep(cfg, t, task, oracle).next)
  {
    hide EventFits, Truthful, AnswerFits, VerdictOf, CreationOf, T.Create, T.Append, T.Park, T.SubmitToOutbox;
  }

  lemma HoldHeard(cfg: Config, far: Far, t: T.Tables, requests: Ledger, task: Task, oracle: Oracle)
    requires InHold(task)
    requires Heard(cfg, far, requests, task)
    ensures Heard(cfg, far, requests, HoldStep(cfg, t, task, oracle).next)
  {
    hide EventFits, Truthful, AnswerFits, HeldPayment, Expired, T.ReleaseParked, T.DiscardParked, T.Load;
  }

  /** What a task is left holding after its step fits the payment it is about. */
  lemma NextHeard(cfg: Config, far: Far, t: T.Tables, requests: Ledger, task: Task, oracle: Oracle)
    requires TablesOk(cfg, t, requests) && DistinctIds(cfg, requests)
    requires Heard(cfg, far, requests, task) && OracleFits(cfg, far, requests, task, oracle)
    ensures Heard(cfg, far, requests, Run(cfg, t, task, oracle).next)
  {
    hide TablesOk, DistinctIds, OracleFits, EventFits, Truthful, AnswerFits, Heard, SubmitStep, DrainStep, PumpStep,
         HoldStep, ReconcileStep;
    if InSubmit(task) {
      SubmitHeard(cfg, far, t, requests, task, oracle);
    } else if InDrain(task) {
      DrainHeard(cfg, far, t, requests, task, oracle);
    } else if InPump(task) {
      PumpHeard(cfg, far, t, requests, task, oracle);
    } else if InHold(task) {
      HoldHeard(cfg, far, t, requests, task, oracle);
    } else if InReconcile(task) {
      ReconcileHeard(cfg, far, t, requests, task, oracle);
    }
  }

  /** Only advices that were heard are written. */
  lemma WrittenAdvicesFit(cfg: Config, far: Far, t: T.Tables, requests: Ledger, trace: seq<Mark>, task: Task, e: Event)
    requires TaskOk(cfg, t, requests, trace, task) && Heard(cfg, far, requests, task)
    requires e in Written(cfg, task) && e.AdviceReceived?
    ensures Target(task).Some? && EventFits(cfg, far, requests, Target(task).value, e)
  {
    hide EventFits, Truthful, AnswerFits;
  }

  lemma StreamsStillFit(cfg: Config, far: Far, t: T.Tables, requests: Ledger, trace: seq<Mark>, task: Task,
          t': T.Tables, requests': Ledger)
    requires TaskOk(cfg, t, requests, trace, task) && Heard(cfg, far, requests, task)
    requires StreamsFit(cfg, far, requests, t.streams) && Extends(requests, requests')
    requires t'.streams == t.streams || Wrote(cfg, t, task, t')
    ensures StreamsFit(cfg, far, requests', t'.streams)
  {
    hide EventFits, TaskOk, Heard, Written;
    forall key, e | key in t'.streams && e in t'.streams[key] && e.AdviceReceived?
      ensures EventFits(cfg, far, requests', key, e)
    {
      if key in t.streams && e in t.streams[key] {
        EventStillFits(cfg, far, requests, requests', key, e);
      } else {
        WrittenAdvicesFit(cfg, far, t, requests, trace, task, e);
        EventStillFits(cfg, far, requests, requests', key, e);
      }
    }
  }

  /** A gateway step keeps the two sides in agreement. */
  lemma StepAgrees(cfg: Config, far: Far, s: System, id: nat, oracle: Oracle)
    requires SystemOk(cfg, far, s) && id in s.w.tasks && DistinctIds(cfg, s.w.requests)
    requires OracleFits(cfg, far, s.w.requests, s.w.tasks[id], oracle)
    ensures SystemOk(cfg, far, s.(w := Next(cfg, s.w, Step(id, oracle))))
    ensures Extends(s.w.requests, Next(cfg, s.w, Step(id, oracle)).requests)
  {
    hide TablesOk, TraceOk, NoRepeats, TaskOk, Run, SoleOwners, SoleReconcilers, FootprintOk, Heard, StreamsFit,
         NodeFits, RepliesFit,
         OracleFits, Admitted, DistinctIds;
    var task := s.w.tasks[id];
    var move := Run(cfg, s.w.db, task, oracle);
    var w' := Next(cfg, s.w, Step(id, oracle));
    StepKeeps(cfg, s.w, id, oracle);
    StepKeepsTables(cfg, s.w, id, oracle);
    MoveFootprint(cfg, s.w.db, task, oracle);
    FootprintIsWrite(cfg, s.w.db, task, move);
    StreamsStillFit(cfg, far, s.w.db, s.w.requests, s.w.trace, task, move.db, w'.requests);
    NodeStillFits(cfg, far, s.w.requests, w'.requests, s.node);
    RepliesStillFit(cfg, far, s.w.requests, w'.requests, s);
    RepliesFrame(cfg, far, w'.requests, s, s.(w := w'));
    NextHeard(cfg, far, s.w.db, s.w.requests, task, oracle);
    forall other | other in w'.tasks
      ensures Heard(cfg, far, w'.requests, w'.tasks[other])
    {
      StillHeard(cfg, far, s.w.requests, w'.requests, if other == id then move.next else s.w.tasks[other]);
    }
  }

  lemma RepliesFrame(cfg: Config, far: Far, requests: Ledger, s: System, s': System)
    requires RepliesFit(cfg, far, requests, s) && s'.replies == s.replies && s'.queryReplies == s.queryReplies
    ensures RepliesFit(cfg, far, requests, s')
  {
  }

  // ------------------------------------------------------------- the hops

  lemma StartAgrees(cfg: Config, far: Far, s: System, action: Label)
    requires SystemOk(cfg, far, s) && !action.Step?
    ensures SystemOk(cfg, far, s.(w := Next(cfg, s.w, action)))
    ensures Next(cfg, s.w, action).requests == s.w.requests
  {
    hide WorldOk, StreamsFit, NodeFits, TaskOk;
    NextKeeps(cfg, s.w, action);
    RepliesFrame(cfg, far, s.w.requests, s, s.(w := Next(cfg, s.w, action)));
    hide RepliesFit;
  }

  /** What the port has been given is what was built for a payment on record. */
  lemma GivenIsBuilt(cfg: Config, w: World, entry: T.Entry)
    requires WorldOk(cfg, w) && Given(w, entry)
    ensures entry.key in w.requests && entry.message == cfg.build(w.requests[entry.key])
  {
    hide TablesOk, NoRepeats, SoleOwners, SoleReconcilers;
    if mark :| mark in w.trace && mark.HandedOff? && mark.entry == entry {
      assert MarkHolds(w.db, mark);
    } else {
      var id :| id in w.tasks && w.tasks[id].Sending? && w.tasks[id].entry == entry;
      assert TaskOk(cfg, w.db, w.requests, w.trace, w.tasks[id]);
    }
    EntryIsBuilt(cfg, w.db, w.requests, entry.id);
  }

  lemma BuiltMessage(cfg: Config, isDateTime: string -> bool, req: SubmitRequest)
    requires BuildsPacs008(cfg, isDateTime)
    ensures cfg.build(req).transactions != [] && cfg.build(req).header.messageId == MessageIdOf(cfg.sender, req)
  {
    assert cfg.build(req) == MessageOf(cfg.sender, req);
  }

  lemma ArrivalAgrees(cfg: Config, far: Far, isDateTime: string -> bool, s: System, entry: T.Entry)
    requires BuildsPacs008(cfg, isDateTime) && SystemOk(cfg, far, s)
    ensures SystemOk(cfg, far, Hopped(cfg, far, s, Arrives(entry)))
  {
    hide WorldOk, StreamsFit, Heard, BuildsPacs008, Transferred;
    if Given(s.w, entry) {
      var requests, doc, key := s.w.requests, entry.message, entry.key;
      GivenIsBuilt(cfg, s.w, entry);
      BuiltMessage(cfg, isDateTime, requests[key]);
      TransferFits(cfg, far, requests, s.node, key);
      var (node, answer) := Transferred(cfg, far, s.node, doc);
      ReplyAdded(cfg, far, requests, s, s.(node := node, replies := s.replies + {(doc, answer)}), doc, answer, key);
      hide RepliesFit, NodeFits;
    }
  }

  lemma ReplyAdded(cfg: Config, far: Far, requests: Ledger, s: System, s': System, m: Document, answer: PortAnswer,
          key: Key)
    requires RepliesFit(cfg, far, requests, s) && s'.replies == s.replies + {(m, answer)} && s'.queryReplies == s.queryReplies
    requires key in requests && m == cfg.build(requests[key]) && AnswerFits(cfg, far, requests, key, answer)
    ensures RepliesFit(cfg, far, requests, s')
  {
    hide AnswerFits, Truthful;
  }

  /** The far side's processing of a built message says nothing but advices on it. */
  lemma TransferFits(cfg: Config, far: Far, requests: Ledger, n: Node, key: Key)
    requires NodeFits(cfg, far, requests, n) && key in requests
    requires cfg.build(requests[key]).transactions != []
    requires cfg.build(requests[key]).header.messageId == MessageIdOf(cfg.sender, requests[key])
    ensures var (node, answer) := Transferred(cfg, far, n, cfg.build(requests[key]));
      NodeFits(cfg, far, requests, node) && AnswerFits(cfg, far, requests, key, answer)
  {
    hide Says, LedgerOf, Decision;
    var doc, truth := cfg.build(requests[key]), Truth(cfg, far, requests);
    var clean := if far.http then cfg.clean(doc) else far.cleanEnvelope(doc);
    forall r | r in LedgerOf(Decision(n.scenarios, clean, doc), doc.header.messageId)
      ensures truth(r)
    {
      assert Fits(cfg, far, requests, key, r);
    }
    TransferSays(n, far.participant, clean, doc, truth);
    ScenariosStay(n, far.participant, clean, doc);
  }

  lemma ScenariosStay(n: Node, participant: string, clean: bool, doc: Document)
    ensures HttpTransfer(n, clean, doc).0.scenarios == n.scenarios
    ensures MqTransfer(n, participant, clean, doc).0.scenarios == n.scenarios
    ensures !MqTransfer(n, participant, clean, doc).1.Advice?
  {
  }

  lemma QueryArrivalAgrees(cfg: Config, far: Far, s: System, key: Key, valid: bool)
    requires SystemOk(cfg, far, s)
    ensures SystemOk(cfg, far, Hopped(cfg, far, s, QueryArrives(key, valid)))
  {
    hide WorldOk, StreamsFit, Heard, T.Load, Says;
    var p := T.Load(s.w.db, key);
    if p.Some? {
      QuerySays(s.node, far.participant, valid, p.value.messageId, Truth(cfg, far, s.w.requests));
      var (node, answer) := Asked028(far, s.node, valid, p.value.messageId);
      hide Truthful, AnswerFits;
    }
  }

  lemma PollAgrees(cfg: Config, far: Far, s: System, id: nat, lost: bool)
    requires SystemOk(cfg, far, s) && DistinctIds(cfg, s.w.requests)
    ensures SystemOk(cfg, far, Hopped(cfg, far, s, Polls(id, lost)))
    ensures Extends(s.w.requests, Hopped(cfg, far, s, Polls(id, lost)).w.requests)
  {
    hide WorldOk, StreamsFit, Heard, Next, Says, DistinctIds, RepliesFit;
    if !far.http && id in s.w.tasks && s.w.tasks[id].Polling? {
      var truth := Truth(cfg, far, s.w.requests);
      ReceiveSays(s.node, far.participant, truth);
      var (node, report) := MqReceive(s.node, far.participant);
      var body := if lost || report.None? then None else Some(Status(report.value));
      var received := s.(node := node);
      RepliesFrame(cfg, far, s.w.requests, s, received);
      assert report.Some? ==> truth(report.value);
      StepAgrees(cfg, far, received, id, Oracle.Polled(body));
    }
  }

  /** A send or a status request that returns is told what fits the payment it is about. */
  lemma ReturnAgrees(cfg: Config, far: Far, isDateTime: string -> bool, s: System, hop: Hop)
    requires BuildsPacs008(cfg, isDateTime) && SystemOk(cfg, far, s) && DistinctIds(cfg, s.w.requests)
    requires hop.Answers? || hop.QueryAnswers?
    ensures SystemOk(cfg, far, Hopped(cfg, far, s, hop))
    ensures Extends(s.w.requests, Hopped(cfg, far, s, hop).w.requests)
  {
    hide WorldOk, StreamsFit, Heard, Next, NodeFits, DistinctIds, RepliesFit, BuildsPacs008, AnswerFits;
    if hop.id in s.w.tasks {
      if hop.Answers? && s.w.tasks[hop.id].Sending? && CanReturn(s.replies, s.w.tasks[hop.id].entry.message, hop.answer) {
        ReplyFits(cfg, far, isDateTime, s, s.w.tasks[hop.id].entry, hop.answer);
        StepAgrees(cfg, far, s, hop.id, Oracle.Port(hop.answer));
      } else if hop.QueryAnswers? && s.w.tasks[hop.id].AwaitingQuery? && T.Load(s.w.db, s.w.tasks[hop.id].key).Some?
                && CanReturn(s.queryReplies, T.Load(s.w.db, s.w.tasks[hop.id].key).value.messageId, hop.answer) {
        QueryReplyFits(cfg, far, s, s.w.tasks[hop.id].key, hop.answer);
        StepAgrees(cfg, far, s, hop.id, Oracle.Port(hop.answer));
      }
    }
  }

  lemma ReplyFits(cfg: Config, far: Far, isDateTime: string -> bool, s: System, entry: T.Entry, answer: PortAnswer)
    requires BuildsPacs008(cfg, isDateTime) && SystemOk(cfg, far, s) && DistinctIds(cfg, s.w.requests)
    requires Given(s.w, entry) && CanReturn(s.replies, entry.message, answer)
    ensures AnswerFits(cfg, far, s.w.requests, entry.key, answer)
  {
    hide WorldOk, StreamsFit, Heard, NodeFits, BuildsPacs008, LedgerOf, Verdict;
    GivenIsBuilt(cfg, s.w, entry);
    if (entry.message, answer) in s.replies {
      var key :| key in s.w.requests && entry.message == cfg.build(s.w.requests[key])
                 && AnswerFits(cfg, far, s.w.requests, key, answer);
      BuiltMessage(cfg, isDateTime, s.w.requests[key]);
      BuiltMessage(cfg, isDateTime, s.w.requests[entry.key]);
      assert key == entry.key;
    }
  }

  lemma QueryReplyFits(cfg: Config, far: Far, s: System, key: Key, answer: PortAnswer)
    requires SystemOk(cfg, far, s) && DistinctIds(cfg, s.w.requests)
    requires T.Load(s.w.db, key).Some? && CanReturn(s.queryReplies, T.Load(s.w.db, key).value.messageId, answer)
    ensures AnswerFits(cfg, far, s.w.requests, key, answer)
  {
    hide TablesOk, TraceOk, NoRepeats, TasksOk, StreamsFit, Heard, NodeFits, LedgerOf, Verdict, Replay;
    if answer.Advice? {
      LoadIsAt(cfg, s.w.db, s.w.requests, key);
      KnownStream(cfg, s.w.db, s.w.requests, key);
      IdOnRecord(cfg, s.w.requests[key], s.w.db.streams[key]);
      var about :| Fits(cfg, far, s.w.requests, about, answer.body.report);
      LedgerNames(cfg, far, s.w.requests, about, answer.body.report);
    }
  }

  lemma PushAgrees(cfg: Config, far: Far, s: System, i: nat)
    requires SystemOk(cfg, far, s) && i < |s.node.delayed|
    ensures SystemOk(cfg, far, s.(node := Delivered(s.node, i)))
  {
    hide WorldOk, StreamsFit, Heard, Says;
    DeliveredSays(s.node, i, Truth(cfg, far, s.w.requests));
    RepliesFrame(cfg, far, s.w.requests, s, s.(node := Delivered(s.node, i)));
    hide RepliesFit;
  }

  lemma HopAgrees(cfg: Config, far: Far, isDateTime: string -> bool, s: System, hop: Hop)
    requires BuildsPacs008(cfg, isDateTime) && SystemOk(cfg, far, s) && DistinctIds(cfg, s.w.requests)
    ensures SystemOk(cfg, far, Hopped(cfg, far, s, hop))
  {
    hide SystemOk, DistinctIds, BuildsPacs008, Next;
    match hop
    case Own(action) =>
      if Silent(action) {
        if !action.Step? {
          StartAgrees(cfg, far, s, action);
        } else if action.id in s.w.tasks {
          StepAgrees(cfg, far, s, action.id, action.oracle);
        } else {
          NothingSteps(cfg, s.w, action);
        }
      }
    case Arrives(entry) => ArrivalAgrees(cfg, far, isDateTime, s, entry);
    case Answers(_, _) => ReturnAgrees(cfg, far, isDateTime, s, hop);
    case QueryArrives(key, valid) => QueryArrivalAgrees(cfg, far, s, key, valid);
    case QueryAnswers(_, _) => ReturnAgrees(cfg, far, isDateTime, s, hop);
    case Polls(id, lost) => PollAgrees(cfg, far, s, id, lost);
    case Pushes(i) => if i < |s.node.delayed| { PushAgrees(cfg, far, s, i); }
  }

  lemma NothingSteps(cfg: Config, w: World, action: Label)
    requires action.Step? && action.id !in w.tasks
    ensures Next(cfg, w, action) == w
  {
  }

  // -------------------------------------------------------- whole runs

  lemma HopGrows(cfg: Config, far: Far, s: System, hop: Hop)
    requires WorldOk(cfg, s.w)
    ensures WorldOk(cfg, Hopped(cfg, far, s, hop).w)
    ensures Extends(s.w.requests, Hopped(cfg, far, s, hop).w.requests)
  {
    hide WorldOk, Next, Transferred, Asked028, MqReceive, T.Load;
    match hop
    case Own(action) => LabelGrows(cfg, s.w, action);
    case Answers(id, answer) => LabelGrows(cfg, s.w, Step(id, Oracle.Port(answer)));
    case QueryAnswers(id, answer) => LabelGrows(cfg, s.w, Step(id, Oracle.Port(answer)));
    case Polls(id, lost) =>
      var report := MqReceive(s.node, far.participant).1;
      LabelGrows(cfg, s.w, Step(id, Oracle.Polled(if lost || report.None? then None else Some(Status(report.value)))));
    case _ =>
  }

  lemma LabelGrows(cfg: Config, w: World, action: Label)
    requires WorldOk(cfg, w)
    ensures WorldOk(cfg, Next(cfg, w, action)) && Extends(w.requests, Next(cfg, w, action).requests)
  {
    hide WorldOk, Run, CanStart, Admitted;
    NextKeeps(cfg, w, action);
    if action.Step? && action.id in w.tasks {
      StepKeepsTables(cfg, w, action.id, action.oracle);
    }
  }

  lemma {:induction false} EveryUnfolding(cfg: Config, far: Far, isDateTime: string -> bool, hops: seq<Hop>)
    ensures WorldOk(cfg, Unfold(cfg, far, hops).w)
    ensures BuildsPacs008(cfg, isDateTime) && DistinctIds(cfg, Unfold(cfg, far, hops).w.requests) ==>
      SystemOk(cfg, far, Unfold(cfg, far, hops))
    decreases |hops|
  {
    hide WorldOk, SystemOk, Hopped, BuildsPacs008;
    if hops == [] {
      StartIsOk(cfg);
      SystemStarts(cfg, far);
    } else {
      var before, hop := Unfold(cfg, far, hops[..|hops| - 1]), hops[|hops| - 1];
      EveryUnfolding(cfg, far, isDateTime, hops[..|hops| - 1]);
      HopGrows(cfg, far, before, hop);
      if BuildsPacs008(cfg, isDateTime) && DistinctIds(cfg, Unfold(cfg, far, hops).w.requests) {
        FewerStillDistinct(cfg, before.w.requests, Unfold(cfg, far, hops).w.requests);
        HopAgrees(cfg, far, isDateTime, before, hop);
      }
    }
  }

  lemma SystemStarts(cfg: Config, far: Far)
    ensures SystemOk(cfg, far, Initially(far))
  {
    hide WorldOk;
    StartIsOk(cfg);
  }

  lemma FewerStillDistinct(cfg: Config, requests: Ledger, requests': Ledger)
    requires Extends(requests, requests') && DistinctIds(cfg, requests')
    ensures DistinctIds(cfg, requests)
  {
  }

  /**
   * Whatever the network does, the gateway's verdict on a payment is the far side's: settled only if the
   * far side's decision settles it, rejected only if it rejects it, and with its reason code. The one
   * exception is an `ACWP` that the receiving participant later turns into a `RJCT`.
   */
  lemma FarSideAgrees(cfg: Config, far: Far, isDateTime: string -> bool, hops: seq<Hop>, key: Key)
    requires BuildsPacs008(cfg, isDateTime)
    requires DistinctIds(cfg, Unfold(cfg, far, hops).w.requests)
    requires key in Unfold(cfg, far, hops).w.db.streams
    ensures var w := Unfold(cfg, far, hops).w;
      && key in w.requests && cfg.build(w.requests[key]).transactions != [] && Replay(w.db.streams[key]).Ok?
      && VerdictAgrees(At(w.db, key), Verdict(cfg, far, cfg.build(w.requests[key])))
  {
    hide TablesOk, TraceOk, NoRepeats, TasksOk, NodeFits, RepliesFit, Heard, BuildsPacs008, Replay, StreamOk, Verdict,
         DistinctIds,
         Unfold, LedgerOf, VerdictAgrees;
    var s := Unfold(cfg, far, hops);
    EveryUnfolding(cfg, far, isDateTime, hops);
    KnownStream(cfg, s.w.db, s.w.requests, key);
    LoadIsAt(cfg, s.w.db, s.w.requests, key);
    BuiltMessage(cfg, isDateTime, s.w.requests[key]);
    StreamAgrees(cfg, far, s.w.requests, key, s.w.db.streams[key]);
  }

  ghost predicate VerdictAgrees(p: Payment, verdict: Scenario) {
    && (p.state.Settled? ==> Settles(verdict))
    && (p.state.Rejected? ==>
          verdict == AcwpThen("RJCT") || (Rejects(verdict) && p.rejectionReason == Some(verdict.code)))
  }

  lemma StreamAgrees(cfg: Config, far: Far, requests: Ledger, key: Key, h: seq<Event>)
    requires Replay(h).Ok? && key in requests && cfg.build(requests[key]).transactions != []
    requires forall e | e in h && e.AdviceReceived? :: EventFits(cfg, far, requests, key, e)
    ensures VerdictAgrees(Replay(h).value, Verdict(cfg, far, cfg.build(requests[key])))
  {
    hide Replay, LedgerOf, Verdict;
    if Replay(h).value.state.Settled? || Replay(h).value.state.Rejected? {
      var e := VerdictIsRecorded(h);
      var r :| Fits(cfg, far, requests, key, r) && AdviceOf(r, e.at) == Some(e);
      VerdictsHeard(Verdict(cfg, far, cfg.build(requests[key])), MessageIdOf(cfg.sender, requests[key]), r);
      RejectionCode(r, e.at);
    }
  }

  lemma RejectionCode(r: Report, at: int)
    requires AdviceOf(r, at).Some?
    ensures var e := AdviceOf(r, at).value;
      e.AdviceReceived? && (e.status.Rjct? <==> r.txSts == Some("RJCT")) && e.adviceReason == r.reason
  {
  }

  /** Over HTTP, with no scenario configured for its creditor agent, a payment's end depends on its cents alone. */
  lemma CentsDecide(cfg: Config, far: Far, isDateTime: string -> bool, hops: seq<Hop>, key: Key)
    requires BuildsPacs008(cfg, isDateTime) && far.http
    requires DistinctIds(cfg, Unfold(cfg, far, hops).w.requests)
    requires key in Unfold(cfg, far, hops).w.db.streams && key in Unfold(cfg, far, hops).w.requests
    requires Unfold(cfg, far, hops).w.requests[key].creditorAgent !in far.scenarios
    ensures var w := Unfold(cfg, far, hops).w;
      var cents, p := w.requests[key].amountCents % 100, T.Load(w.db, key);
      && p.Some?
      && (p.value.state.Settled? ==> cents != 11 && cents != 55)
      && (p.value.state.Rejected? ==>
            (cents == 11 && p.value.rejectionReason == Some("AC04")) || (cents == 55 && p.value.rejectionReason == Some("E990")))
  {
    hide Unfold, TablesOk, TraceOk, NoRepeats, TasksOk, Replay, StreamOk, Verdict, DistinctIds, BuildsPacs008;
    var w := Unfold(cfg, far, hops).w;
    EveryUnfolding(cfg, far, isDateTime, hops);
    FarSideAgrees(cfg, far, isDateTime, hops, key);
    KnownStream(cfg, w.db, w.requests, key);
    if OnWire(At(w.db, key).state) {
      WireHistory(cfg, w.requests[key], w.db.streams[key]);
      VerdictByCents(cfg, far, isDateTime, w.requests[key]);
    }
  }

  lemma VerdictByCents(cfg: Config, far: Far, isDateTime: string -> bool, req: SubmitRequest)
    requires BuildsPacs008(cfg, isDateTime) && far.http && cfg.clean(cfg.build(req)) && req.creditorAgent !in far.scenarios
    ensures cfg.build(req).transactions != [] && Verdict(cfg, far, cfg.build(req)) == CentsScenario(req.amountCents)
  {
    BuiltMessage(cfg, isDateTime, req);
    assert cfg.build(req) == MessageOf(cfg.sender, req);
    DecidedByCents(far.scenarios, cfg.sender, req);
  }
}
