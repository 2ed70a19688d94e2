/**
 * The gateway as interleaved steps. Every running service operation is a task whose next step is one
 * store call, one port call or one question to the risk gate; tasks interleave freely, the port and the
 * gate answer as they like, and the process may crash between any two steps.
 */
module Protocol {
  import opened Wrappers
  import opened Payments
  import opened Text
  import opened Pacs008
  import opened Requests
  import opened Validation
  import opened Reconciliation
  import opened Reasons
  import opened HoldPolicies
  import opened RiskGates
  import T = Tables

  datatype Config = Config(
    sender: string,
    gated: bool,
    policy: Policy,
    maxAge: I64,
    timeoutSecs: int,
    backoffSecs: int,
    serial: bool, // reconcile calls on one key run one at a time
    hash: T.Hash,
    build: SubmitRequest -> T.Message,
    clean: T.Message -> bool)

  /** The gateway's own builder and validator. */
  ghost predicate BuildsPacs008(cfg: Config, isDateTime: string -> bool) {
    && (forall req :: cfg.build(req) == MessageOf(cfg.sender, req))
    && (forall message :: cfg.clean(message) <==> DocumentIssues(message, isDateTime) == [])
  }

  /** The first transaction entry of a pacs.002, as far as the gateway reads it. */
  datatype Report = Report(originalId: Option<string>, txSts: Option<string>, reason: Option<string>)

  /** What a message turns out to be: nothing readable, some other message, or a pacs.002. */
  datatype Body = Unreadable | Irrelevant | Status(report: Report)

  datatype PortAnswer = Advice(body: Body) | Accepted | Rejected | TransportFailure

  /** One running service operation, by the step it takes next. */
  datatype Task =
    // submit
    | Creating(req: SubmitRequest, now: int)
    | Validating(req: SubmitRequest, now: int)
    | Checking(req: SubmitRequest, now: int)
    | Recording(req: SubmitRequest, now: int, verdict: Verdict)
    | Submitting(req: SubmitRequest, now: int)
    // publish_pending, on behalf of the sweeper or of a caller that loads its payment afterwards
    | Draining(now: int, caller: Option<Key>)
    | Sending(entry: T.Entry, now: int, caller: Option<Key>)
    | Acknowledging(entry: T.Entry, answer: PortAnswer, now: int, caller: Option<Key>)
    | Publishing(entry: T.Entry, answer: PortAnswer, now: int, caller: Option<Key>)
    | Advising(key: Key, event: Event, now: int, caller: Option<Key>)
    | Dropping(entry: T.Entry, now: int, caller: Option<Key>)
    | Returning(key: Key)
    // pump_advices
    | Polling(now: int)
    | Listing(report: Report, now: int)
    | Searching(report: Report, candidates: set<Key>, now: int)
    | Correlated(key: Key, event: Event, now: int)
    // release, cancel, expire_holds
    | ReleaseCheck(key: Key, actor: string, reason: string, now: int)
    | Releasing(key: Key, event: Event, now: int)
    | CancelCheck(key: Key, actor: string, reason: string, now: int)
    | Discarding(key: Key, event: Event)
    | Sweeping(now: int)
    | SweepCheck(candidates: set<Key>, now: int)
    | SweepDiscard(key: Key, event: Event, candidates: set<Key>, now: int)
    // reconcile
    | ReconcileCheck(key: Key, date: string, now: int)
    | Declaring(key: Key, event: Event)
    | Querying(key: Key, date: string, event: Event)
    | AwaitingQuery(key: Key, now: int)
    | QueryAdvising(key: Key, event: Event)
    // over: normally, or because a store call of a submission was refused
    | Done
    | Aborted

  /** What the environment answers in a step. */
  datatype Oracle =
    | Quiet
    | Gate(answer: GateAnswer, elapsedMs: nat)
    | Port(reply: PortAnswer)
    | Polled(body: Option<Body>)
    | Pick(choice: Key)

  /** Facts worth remembering about a run. */
  datatype Mark =
    | Passed(key: Key)                // a submission was the one to create its payment
    | Asked(key: Key)                 // the risk gate was asked
    | HandedOff(entry: T.Entry, answer: PortAnswer)  // a message was given to the port, which answered
    | Dropped(entry: T.Entry)         // a rejected message was consumed
    | Resolved(key: Key)              // a hold was released or discarded
    | Queried(key: Key, number: nat, date: string)  // a status query went out, as the payment's `number`-th

  datatype World = World(db: T.Tables, tasks: map<nat, Task>, trace: seq<Mark>, requests: map<Key, SubmitRequest>)

  const START := World(T.EMPTY, map[], [], map[])

  /** One step's effect: new tables, what comes next, what to remember. */
  datatype Move = Move(db: T.Tables, next: Task, marks: seq<Mark>)

  function AdviceOf(report: Report, now: int): Option<Event> {
    if report.txSts.None? then None
    else match FromTxSts(report.txSts.value)
      case None => None
      case Some(status) => Some(AdviceReceived(status, report.reason, now))
  }

  function AdviceIn(answer: PortAnswer, now: int): Option<Event> {
    if answer.Advice? && answer.body.Status? then AdviceOf(answer.body.report, now) else None
  }

  function CreationOf(cfg: Config, req: SubmitRequest, at: int): Event {
    Event.Created(req.key, MessageIdOf(cfg.sender, req), req.creationDateTime, req.endToEndId, req.uetr, req.amountCents, at)
  }

  function ExpiryEvent(now: int): Event { HoldCancelled(GATEWAY_ACTOR, EXPIRED_REASON, now) }

  function CheckEvent(verdict: Verdict, now: int): Event {
    RiskChecked(verdict.outcome, verdict.reason, verdict.source, verdict.provider, verdict.elapsedMs, now)
  }

  function Stay(t: T.Tables, next: Task): Move { Move(t, next, []) }

  function AfterDrain(caller: Option<Key>): Task { if caller.Some? then Returning(caller.value) else Done }

  // ------------------------------------------------------------ the steps

  predicate InSubmit(task: Task) {
    task.Creating? || task.Validating? || task.Checking? || task.Recording? || task.Submitting?
  }

  predicate InDrain(task: Task) {
    || task.Draining? || task.Sending? || task.Acknowledging? || task.Publishing?
    || task.Advising? || task.Dropping? || task.Returning?
  }

  predicate InPump(task: Task) {
    task.Polling? || task.Listing? || task.Searching? || task.Correlated?
  }

  predicate InHold(task: Task) {
    || task.ReleaseCheck? || task.Releasing? || task.CancelCheck? || task.Discarding?
    || task.Sweeping? || task.SweepCheck? || task.SweepDiscard?
  }

  predicate InReconcile(task: Task) {
    task.ReconcileCheck? || task.Declaring? || task.Querying? || task.AwaitingQuery? || task.QueryAdvising?
  }

  function SubmitStep(cfg: Config, t: T.Tables, task: Task, oracle: Oracle): Move
    requires InSubmit(task)
  {
    var key, message := task.req.key, cfg.build(task.req);
    match task
    case Creating(req, now) =>
      var reply := T.Create(t, CreationOf(cfg, req, now));
      if reply.outcome.Err? || reply.outcome.value.Existing? then Stay(reply.tables, Done)
      else Move(reply.tables,
                if cfg.clean(message) then Validating(req, now) else Done,
                [Passed(key)])
    case Validating(req, now) =>
      var reply := T.Append(t, key, Event.Validated(now));
      if reply.outcome.Err? then Stay(reply.tables, Aborted)
      else Stay(reply.tables, if cfg.gated then Checking(req, now) else Submitting(req, now))
    case Checking(req, now) =>
      if !oracle.Gate? then Stay(t, task)
      else Move(t, Recording(req, now, VerdictOf(cfg.policy, oracle.answer, oracle.elapsedMs)), [Asked(key)])
    case Recording(req, now, verdict) =>
      var checked := CheckEvent(verdict, now);
      if verdict.outcome.Hold? then
        var reply := T.Park(t, key, [checked, HoldParked(cfg.hash(message), now)], message);
        Stay(reply.tables, if reply.outcome.Err? then Aborted else Done)
      else
        var reply := T.Append(t, key, checked);
        Stay(reply.tables,
             if reply.outcome.Err? then Aborted
             else if verdict.outcome.Refuse? then Done
             else Submitting(req, now))
    case Submitting(req, now) =>
      var reply := T.SubmitToOutbox(t, key, Event.Submitted(now), message);
      Stay(reply.tables, if reply.outcome.Err? then Aborted else Draining(now, Some(key)))
  }

  function DrainStep(t: T.Tables, task: Task, oracle: Oracle): Move
    requires InDrain(task)
  {
    match task
    case Draining(now, caller) =>
      var next := T.NextUnpublished(t);
      Stay(t, if next.None? then AfterDrain(caller) else Sending(next.value, now, caller))
    case Sending(entry, now, caller) =>
      if !oracle.Port? then Stay(t, task)
      else
        Move(t,
             match oracle.reply {
               case Rejected => Dropping(entry, now, caller)
               case TransportFailure => AfterDrain(caller)
               case _ => Acknowledging(entry, oracle.reply, now, caller)
             },
             [HandedOff(entry, oracle.reply)])
    case Acknowledging(entry, answer, now, caller) =>
      Stay(T.MarkPublished(t, entry.id), Publishing(entry, answer, now, caller))
    case Publishing(entry, answer, now, caller) =>
      var advice := AdviceIn(answer, now);
      Stay(T.Append(t, entry.key, Published(now)).tables,
           if advice.Some? then Advising(entry.key, advice.value, now, caller) else Draining(now, caller))
    case Advising(key, event, now, caller) =>
      Stay(T.Append(t, key, event).tables, Draining(now, caller))
    case Dropping(entry, now, caller) =>
      Move(T.MarkPublished(t, entry.id), Draining(now, caller), [Dropped(entry)])
    case Returning(_) => Stay(t, Done)
  }

  function PumpStep(t: T.Tables, task: Task, oracle: Oracle): Move
    requires InPump(task)
  {
    match task
    case Polling(now) =>
      if !oracle.Polled? then Stay(t, task)
      else if oracle.body.None? then Stay(t, Done)
      else if oracle.body.value.Status? && oracle.body.value.report.originalId.Some? then
        Stay(t, Listing(oracle.body.value.report, now))
      else Stay(t, Polling(now))
    case Listing(report, now) => Stay(t, Searching(report, t.streams.Keys, now))
    case Searching(report, candidates, now) =>
      if candidates == {} then Stay(t, Polling(now))
      else if !oracle.Pick? || oracle.choice !in candidates then Stay(t, task)
      else
        var p := T.Load(t, oracle.choice);
        if p.Some? && Some(p.value.messageId) == report.originalId then
          var advice := AdviceOf(report, now);
          Stay(t, if advice.Some? then Correlated(p.value.key, advice.value, now) else Polling(now))
        else Stay(t, Searching(report, candidates - {oracle.choice}, now))
    case Correlated(key, event, now) => Stay(T.Append(t, key, event).tables, Polling(now))
  }

  function Expired(cfg: Config, p: Payment, now: int): bool {
    p.heldAt.Some? && IsExpired(cfg.maxAge, p.heldAt.value, now)
  }

  /** Load, then check: known, held, and the reason is a code. */
  function HeldPayment(t: T.Tables, key: Key, reason: string): Option<Payment> {
    var p := T.Load(t, key);
    if p.Some? && p.value.state.Held? && Sanitize(reason) == reason then p else None
  }

  function HoldStep(cfg: Config, t: T.Tables, task: Task, oracle: Oracle): Move
    requires InHold(task)
  {
    match task
    case ReleaseCheck(key, actor, reason, now) =>
      var p := HeldPayment(t, key, reason);
      Stay(t,
           if p.None? then Done
           else if Expired(cfg, p.value, now) then Discarding(key, ExpiryEvent(now))
           else if p.value.heldDigest.None? then Done
           else Releasing(key, HoldReleased(actor, reason, p.value.heldDigest.value, now), now))
    case Releasing(key, event, now) =>
      var reply := T.ReleaseParked(cfg.hash, t, key, event);
      if reply.outcome.Err? then Stay(reply.tables, Done)
      else Move(reply.tables, Draining(now, Some(key)), [Resolved(key)])
    case CancelCheck(key, actor, reason, now) =>
      Stay(t, if HeldPayment(t, key, reason).None? then Done else Discarding(key, HoldCancelled(actor, reason, now)))
    case Discarding(key, event) =>
      var reply := T.DiscardParked(t, key, event);
      Move(reply.tables, Done, if reply.outcome.Ok? then [Resolved(key)] else [])
    case Sweeping(now) => Stay(t, SweepCheck(t.streams.Keys, now))
    case SweepCheck(candidates, now) =>
      if candidates == {} then Stay(t, Done)
      else if !oracle.Pick? || oracle.choice !in candidates then Stay(t, task)
      else
        var p, rest := T.Load(t, oracle.choice), candidates - {oracle.choice};
        if p.Some? && p.value.state.Held? && Expired(cfg, p.value, now) then
          Stay(t, SweepDiscard(oracle.choice, ExpiryEvent(now), rest, now))
        else Stay(t, SweepCheck(rest, now))
    case SweepDiscard(key, event, candidates, now) =>
      var reply := T.DiscardParked(t, key, event);
      Move(reply.tables, SweepCheck(candidates, now), if reply.outcome.Ok? then [Resolved(key)] else [])
  }

  function ReconcileStep(cfg: Config, t: T.Tables, task: Task, oracle: Oracle): Move
    requires InReconcile(task)
  {
    match task
    case ReconcileCheck(key, date, now) =>
      var p := T.Load(t, key);
      Stay(t,
           if p.None? then Done
           else match NextAction(p.value, now, cfg.timeoutSecs, cfg.backoffSecs)
             case Rest => Done
             case DeclareTimeout => Declaring(key, TimeoutDeclared(now))
             case SendQuery => Querying(key, date, QuerySent(now)))
    case Declaring(key, event) => Stay(T.Append(t, key, event).tables, Done)
    case Querying(key, date, event) =>
      var reply := T.Append(t, key, event);
      if reply.outcome.Err? then Stay(reply.tables, Done)
      else Move(reply.tables, AwaitingQuery(key, event.at), [Queried(key, reply.outcome.value.queriesSent, date)])
    case AwaitingQuery(key, now) =>
      if !oracle.Port? then Stay(t, task)
      else
        var advice := AdviceIn(oracle.reply, now);
        Stay(t, if advice.Some? then QueryAdvising(key, advice.value) else Done)
    case QueryAdvising(key, event) => Stay(T.Append(t, key, event).tables, Done)
  }

  function Run(cfg: Config, t: T.Tables, task: Task, oracle: Oracle): Move {
    if InSubmit(task) then SubmitStep(cfg, t, task, oracle)
    else if InDrain(task) then DrainStep(t, task, oracle)
    else if InPump(task) then PumpStep(t, task, oracle)
    else if InHold(task) then HoldStep(cfg, t, task, oracle)
    else if InReconcile(task) then ReconcileStep(cfg, t, task, oracle)
    else Stay(t, task)
  }

  // ------------------------------------------------------------- the runs

  datatype Label = Start(id: nat, task: Task) | Step(id: nat, oracle: Oracle) | Crash

  /** A step that is told nothing by the port. */
  predicate Silent(action: Label) { action.Step? ==> !action.oracle.Port? && !action.oracle.Polled? }

  /** Where service operations begin. */
  predicate EntryPoint(task: Task) {
    task.Creating? || (task.Draining? && task.caller.None?) || task.Polling? || task.ReleaseCheck?
    || task.CancelCheck? || task.Sweeping? || task.ReconcileCheck?
  }

  /** The key a reconciliation is working on. */
  function Reconciling(task: Task): Option<Key> {
    match task
    case ReconcileCheck(key, _, _) => Some(key)
    case Declaring(key, _) => Some(key)
    case Querying(key, _, _) => Some(key)
    case AwaitingQuery(key, _) => Some(key)
    case QueryAdvising(key, _) => Some(key)
    case _ => None
  }

  predicate CanStart(cfg: Config, w: World, id: nat, task: Task) {
    && id !in w.tasks
    && EntryPoint(task)
    && (cfg.serial && task.ReconcileCheck? ==>
          forall other | other in w.tasks :: Reconciling(w.tasks[other]) != Some(task.key))
  }

  function Admitted(w: World, task: Task, marks: seq<Mark>): map<Key, SubmitRequest> {
    if task.Creating? && marks != [] then w.requests[task.req.key := task.req] else w.requests
  }

  function Next(cfg: Config, w: World, action: Label): World {
    match action
    case Start(id, task) => if CanStart(cfg, w, id, task) then w.(tasks := w.tasks[id := task]) else w
    case Step(id, oracle) =>
      if id !in w.tasks then w
      else
        var move := Run(cfg, w.db, w.tasks[id], oracle);
        World(move.db, w.tasks[id := move.next], w.trace + move.marks, Admitted(w, w.tasks[id], move.marks))
    case Crash => w.(tasks := map[])
  }

  function Execute(cfg: Config, labels: seq<Label>): World
    decreases |labels|
  {
    if labels == [] then START
    else Next(cfg, Execute(cfg, labels[..|labels| - 1]), labels[|labels| - 1])
  }
}
