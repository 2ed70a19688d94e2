/** The service as its callers run it: one operation at a time over a store, a port and a risk gate. */
module Services {
  import opened Wrappers
  import opened Payments
  import opened Requests
  import opened Reconciliation
  import opened Reasons
  import opened HoldPolicies
  import opened RiskGates
  import opened Protocol
  import opened Advices
  import opened InMemoryStores
  import opened Sequential
  import opened Drains
  import opened Sweeps
  import opened Pumps
  import opened Summaries
  import opened Histories
  import S = StoreInvariant
  import T = Tables

  // ------------------------------------------------------- the collaborators

  /** The southbound port. Its answers are whatever the far side gives; what it was given and asked is on record. */
  class Port {
    const answers: nat -> PortAnswer
    const queryAnswers: nat -> PortAnswer
    var sent: seq<T.Message>
    var asked: seq<StatusRequest>
    var inbox: seq<Option<Body>> // `None` is a poll that found nothing or failed

    constructor (answers: nat -> PortAnswer, queryAnswers: nat -> PortAnswer, inbox: seq<Option<Body>>)
      ensures this.answers == answers && this.queryAnswers == queryAnswers
      ensures sent == [] && asked == [] && this.inbox == inbox
    {
      this.answers, this.queryAnswers := answers, queryAnswers;
      this.sent, this.asked, this.inbox := [], [], inbox;
    }

    method Submit(message: T.Message) returns (answer: PortAnswer)
      modifies `sent
      ensures sent == old(sent) + [message] && answer == answers(|old(sent)|)
    {
      answer := answers(|sent|);
      sent := sent + [message];
    }

    method Query(request: StatusRequest) returns (answer: PortAnswer)
      modifies `asked
      ensures asked == old(asked) + [request] && answer == queryAnswers(|old(asked)|)
    {
      answer := queryAnswers(|asked|);
      asked := asked + [request];
    }

    method PollAdvice() returns (body: Option<Body>)
      modifies `inbox
      ensures old(inbox) == [] ==> body.None? && inbox == []
      ensures old(inbox) != [] ==> body == old(inbox)[0] && inbox == old(inbox)[1..]
    {
      if inbox == [] {
        return None;
      }
      body := inbox[0];
      inbox := inbox[1..];
    }
  }

  /** The risk gate, as the service sees it: a verdict per question. */
  class Gate {
    const policy: Policy
    const answers: nat -> GateAnswer
    var asked: nat

    constructor (policy: Policy, answers: nat -> GateAnswer)
      ensures this.policy == policy && this.answers == answers && asked == 0
    {
      this.policy, this.answers, asked := policy, answers, 0;
    }

    method Check(elapsedMs: nat) returns (verdict: Verdict)
      modifies this
      ensures asked == old(asked) + 1
      ensures verdict == VerdictOf(policy, answers(old(asked)), elapsedMs)
      ensures verdict.elapsedMs == elapsedMs && CallsFor(policy, answers(old(asked)), verdict)
    {
      verdict := VerdictOf(policy, answers(asked), elapsedMs);
      VerdictIsCalledFor(policy, answers(asked), elapsedMs);
      asked := asked + 1;
    }
  }

  datatype ServiceError =
    | Build
    | Validation
    | Transition(error: TransitionError)
    | UnknownPayment(key: Key)
    | NotHeld(state: PaymentState)
    | HoldExpired
    | NoParkedMessage
    | InvalidReason

  type Answer = Result<Payment, ServiceError>

  // --------------------------------------------------- store calls, read back

  lemma AppendedIsLoaded(t: T.Tables, key: Key, e: Event)
    ensures var reply := T.Append(t, key, e);
      reply.outcome.Ok? ==> T.Load(reply.tables, key) == Some(reply.outcome.value)
  {
    hide Replay;
  }

  lemma ParkedIsLoaded(t: T.Tables, key: Key, es: seq<Event>, message: T.Message)
    ensures var reply := T.Park(t, key, es, message);
      && reply.tables.outbox == t.outbox && reply.tables.nextId == t.nextId
      && (reply.outcome.Ok? ==> T.Load(reply.tables, key) == Some(reply.outcome.value))
  {
    hide Replay;
  }

  lemma ExistingIsLoaded(t: T.Tables, e: Event)
    ensures var reply := T.Create(t, e);
      reply.outcome.Ok? && reply.outcome.value.Existing? ==>
        reply.tables == t && T.Load(t, e.key) == Some(reply.outcome.value.payment)
    ensures e.Created? && e.key in t.streams ==> (T.Create(t, e).outcome.Ok? <==> T.Load(t, e.key).Some?)
  {
    hide Replay;
  }

  lemma SubmittingQueues(t: T.Tables, key: Key, e: Event, message: T.Message)
    requires Numbered(t.outbox, t.nextId)
    ensures var reply := T.SubmitToOutbox(t, key, e, message);
      Numbered(reply.tables.outbox, reply.tables.nextId)
      && (reply.outcome.Ok? ==> Queued(reply.tables.outbox, key, message) && T.Load(reply.tables, key).Some?)
  {
    hide Replay, Queued;
    EnqueuedIsQueued(T.Append(t, key, e).tables, key, message);
  }

  lemma ReleasingQueues(hash: T.Hash, t: T.Tables, key: Key, e: Event)
    requires Numbered(t.outbox, t.nextId)
    ensures var reply := T.ReleaseParked(hash, t, key, e);
      Numbered(reply.tables.outbox, reply.tables.nextId)
      && (reply.outcome.Ok? ==>
            key in t.parked && Queued(reply.tables.outbox, key, t.parked[key]) && T.Load(reply.tables, key).Some?)
  {
    hide Replay, Queued;
    if key in t.parked {
      EnqueuedIsQueued(T.Append(t, key, e).tables.(parked := t.parked - {key}), key, t.parked[key]);
    }
  }

  /** What becomes of a checked message: queued, parked with its payment held, or dropped with it refused. */
  ghost predicate EndsAs(outcome: RiskOutcome, t: T.Tables, key: Key, message: T.Message) {
    match outcome
    case Allow => Queued(t.outbox, key, message)
    case Hold => T.Load(t, key).Some? && T.Load(t, key).value.state.Held? && key in t.parked && t.parked[key] == message
    case Refuse => T.Load(t, key).Some? && T.Load(t, key).value.state.Refused?
  }

  /** A decision is followed; without one the configured outcome is. */
  ghost predicate EndsAsAnswered(policy: Policy, answer: GateAnswer, t: T.Tables, key: Key, message: T.Message) {
    match answer
    case Decided(Clear) => EndsAs(RiskOutcome.Allow, t, key, message)
    case Decided(Stop(_)) => EndsAs(RiskOutcome.Hold, t, key, message)
    case Decided(Deny(_)) => EndsAs(RiskOutcome.Refuse, t, key, message)
    case Undecided(_) => EndsAs(policy.onUnavailable, t, key, message)
  }

  /** The gate lets it pass: by a decision, or because the policy says so when there is none. */
  predicate Passes(policy: Policy, answer: GateAnswer) {
    answer == Decided(Clear) || (answer.Undecided? && policy.onUnavailable.Allow?)
  }

  /** The check that this answer calls for. */
  ghost predicate Checks(policy: Policy, answer: GateAnswer, elapsedMs: nat, now: int, e: Event) {
    e.RiskChecked? && e.at == now && e.elapsedMs == elapsedMs && CallsFor(policy, answer, S.VerdictIn(e))
  }

  /** The answer of the gate is what happens next. */
  lemma AnswerDecides(policy: Policy, answer: GateAnswer, elapsedMs: nat, now: int)
    ensures var verdict := VerdictOf(policy, answer, elapsedMs);
      && (verdict.outcome.Allow? <==> Passes(policy, answer))
      && (forall t, key, message :: EndsAs(verdict.outcome, t, key, message) ==>
            EndsAsAnswered(policy, answer, t, key, message))
      && Checks(policy, answer, elapsedMs, now, CheckEvent(verdict, now))
  {
    hide EndsAs;
    VerdictIsCalledFor(policy, answer, elapsedMs);
  }

  lemma SubmittingContinues(t: T.Tables, key: Key, e: Event, message: T.Message)
    ensures Continues(t, T.SubmitToOutbox(t, key, e, message).tables)
  {
    hide Continues, T.Append;
    var appended, t' := T.Append(t, key, e).tables, T.SubmitToOutbox(t, key, e, message).tables;
    AppendContinues(t, key, e);
    if t'.streams == appended.streams {
      SameStreamsContinue(appended, t');
      ContinuesOn(t, appended, t');
    } else {
      ContinuesOn(t, t, t);
    }
  }

  lemma ParkingContinues(t: T.Tables, key: Key, es: seq<Event>, message: T.Message)
    ensures Continues(t, T.Park(t, key, es, message).tables)
  {
    if T.Park(t, key, es, message).outcome.Ok? {
      var h := t.streams[key];
      assert (h + es)[..|h|] == h;
      if Replay(h).Err? {
        RefusalSticks(h + es, |h|);
      }
    } else {
      SameStreamsContinue(t, t);
    }
  }

  lemma StreamKept(t: T.Tables, t': T.Tables, key: Key)
    requires Continues(t, t') && key in t.streams
    ensures key in t'.streams && t.streams[key] <= t'.streams[key]
  {
  }

  /** An accepted check is what the stream holds next. */
  lemma CheckIsNext(t: T.Tables, key: Key, check: Event, parked: Event, message: T.Message)
    ensures var reply := T.Append(t, key, check);
      reply.outcome.Ok? ==> key in t.streams && reply.tables.streams[key] == t.streams[key] + [check]
    ensures var reply := T.Park(t, key, [check, parked], message);
      reply.outcome.Ok? ==>
        key in t.streams && reply.tables.streams[key] == t.streams[key] + [check, parked]
        && reply.tables.streams[key][|t.streams[key]|] == check
  {
    hide Replay;
  }

  lemma ParkedIsHeld(t: T.Tables, key: Key, hold: Event, parked: Event, message: T.Message)
    requires hold.RiskChecked? && hold.outcome.Hold? && parked.HoldParked?
    ensures var reply := T.Park(t, key, [hold, parked], message);
      reply.outcome.Ok? ==> EndsAs(RiskOutcome.Hold, reply.tables, key, message)
  {
    if T.Park(t, key, [hold, parked], message).outcome.Ok? {
      ReplayExtends(t.streams[key] + [hold], parked);
      assert t.streams[key] + [hold, parked] == t.streams[key] + [hold] + [parked];
      ReplayExtends(t.streams[key], hold);
    }
  }

  lemma RefusalIsFinal(t: T.Tables, key: Key, check: Event)
    requires check.RiskChecked?
    ensures var reply := T.Append(t, key, check);
      reply.outcome.Ok? && check.outcome.Refuse? ==>
        T.Load(reply.tables, key).Some? && T.Load(reply.tables, key).value.state.Refused?
  {
    if T.Append(t, key, check).outcome.Ok? {
      ReplayExtends(t.streams[key], check);
    }
  }

  /** Validated, and not checked yet. */
  ghost predicate Unchecked(t: T.Tables, key: Key) {
    var p := T.Load(t, key);
    p.Some? && p.value.state.Validated? && p.value.riskOutcome.None?
  }

  /** A verdict can be recorded exactly on a validated, unchecked payment. */
  lemma CheckAccepted(t: T.Tables, key: Key, verdict: Verdict, digest: Digest, message: T.Message, now: int)
    ensures var check := CheckEvent(verdict, now);
      Unchecked(t, key) <==>
        if verdict.outcome.Hold? then T.Park(t, key, [check, HoldParked(digest, now)], message).outcome.Ok?
        else T.Append(t, key, check).outcome.Ok?
  {
    var check := CheckEvent(verdict, now);
    if key in t.streams && t.streams[key] != [] {
      var h := t.streams[key];
      ReplayExtends(h, check);
      ReplayExtends(h + [check], HoldParked(digest, now));
      assert h + [check, HoldParked(digest, now)] == h + [check] + [HoldParked(digest, now)];
      if Replay(h).Ok? {
        ReplayIsCoherent(h);
      }
    }
  }

  /** An allowed payment can be queued exactly when it is not queued yet. */
  lemma QueueAccepted(t: T.Tables, key: Key, verdict: Verdict, message: T.Message, now: int)
    requires verdict.outcome.Allow? && T.Append(t, key, CheckEvent(verdict, now)).outcome.Ok?
    ensures var t' := T.Append(t, key, CheckEvent(verdict, now)).tables;
      T.SubmitToOutbox(t', key, Event.Submitted(now), message).outcome.Ok? <==> !T.InOutbox(t.outbox, key)
  {
    hide T.InOutbox;
    var check := CheckEvent(verdict, now);
    var h := t.streams[key];
    ReplayExtends(h, check);
    ReplayExtends(h + [check], Event.Submitted(now));
  }

  lemma NewIsCreated(cfg: Config, t: T.Tables, req: SubmitRequest, now: int)
    ensures req.key !in t.streams ==> T.Create(t, CreationOf(cfg, req, now)).outcome.Ok?
  {
  }

  /** What a new payment's stream holds once it is validated. */
  lemma CreationOpens(cfg: Config, t: T.Tables, req: SubmitRequest, now: int)
    ensures S.Opens(cfg.sender, req, now, CreationOf(cfg, req, now))
    ensures var created := T.Create(t, CreationOf(cfg, req, now)).tables;
      req.key !in t.streams ==>
      && req.key in created.streams && created.streams[req.key] == [CreationOf(cfg, req, now)]
      && var validated := T.Append(created, req.key, Event.Validated(now));
         validated.outcome.Ok? ==>
           req.key in validated.tables.streams
           && validated.tables.streams[req.key] == [CreationOf(cfg, req, now), Event.Validated(now)]
  {
    hide Replay;
  }

  /** A new payment with a clean message is validated, and then ready for the gate or the outbox. */
  lemma NewIsAccepted(cfg: Config, t: T.Tables, req: SubmitRequest, now: int)
    requires req.key !in t.streams
    ensures var created := T.Create(t, CreationOf(cfg, req, now));
      var validated := T.Append(created.tables, req.key, Event.Validated(now));
      && created.outcome.Ok? && validated.outcome.Ok? && Unchecked(validated.tables, req.key)
      && validated.tables.outbox == t.outbox
      && T.SubmitToOutbox(validated.tables, req.key, Event.Submitted(now), cfg.build(req)).outcome.Ok?
         == !T.InOutbox(t.outbox, req.key)
  {
    hide T.InOutbox;
    var creation, validation := CreationOf(cfg, req, now), Event.Validated(now);
    ReplayExtends([creation], validation);
    ReplayExtends([creation] + [validation], Event.Submitted(now));
  }

  // ------------------------------------------------------------------ holds

  /** A known payment that is held, and a reason that is a code. */
  ghost predicate CanResolve(t: T.Tables, key: Key, reason: string) {
    T.Load(t, key).Some? && T.Load(t, key).value.state.Held? && IsCode(reason)
  }

  /** The first of the three that fails is the answer. */
  ghost predicate WhyNot(t: T.Tables, key: Key, reason: string, error: ServiceError) {
    match T.Load(t, key)
    case None => error == UnknownPayment(key)
    case Some(p) => error == if !p.state.Held? then NotHeld(p.state) else InvalidReason
  }

  lemma ResolvableExactly(t: T.Tables, key: Key, reason: string)
    ensures CanResolve(t, key, reason) <==> HeldPayment(t, key, reason).Some?
    ensures CanResolve(t, key, reason) <==> T.Load(t, key).Some? && T.Load(t, key).value.state.Held? && IsCode(reason)
    ensures forall error :: WhyNot(t, key, reason, error) <==>
      error == if T.Load(t, key).None? then UnknownPayment(key)
               else if !T.Load(t, key).value.state.Held? then NotHeld(T.Load(t, key).value.state) else InvalidReason
  {
    hide T.Load, Sanitize;
    SanitizeKeepsCodes(reason);
  }

  lemma CancelledIsCancelled(t: T.Tables, key: Key, e: Event)
    requires T.Load(t, key).Some? && T.Load(t, key).value.state.Held? && e.HoldCancelled?
    ensures T.DiscardParked(t, key, e).outcome.Ok? && T.DiscardParked(t, key, e).outcome.value.state.Cancelled?
  {
    ReplayExtends(t.streams[key], e);
  }

  lemma ReleasingContinues(hash: T.Hash, t: T.Tables, key: Key, e: Event)
    ensures var reply := T.ReleaseParked(hash, t, key, e);
      && Continues(t, reply.tables)
      && (reply.outcome.Ok? ==>
            key in t.streams && key in reply.tables.streams && reply.tables.streams[key] == t.streams[key] + [e])
  {
    hide Continues, T.InOutbox;
    var t' := T.ReleaseParked(hash, t, key, e).tables;
    AppendContinues(t, key, e);
    ContinuesOn(t, t, t);
    if t'.streams == T.Append(t, key, e).tables.streams {
      SameStreamsContinue(T.Append(t, key, e).tables, t');
      ContinuesOn(t, T.Append(t, key, e).tables, t');
    }
  }

  // ---------------------------------------------------------------- advices

  /** An advice moves exactly a payment that waits or is settled, as its code says; any other refuses it. */
  ghost predicate AfterAdvice(t: T.Tables, key: Key, e: Event, report: Report, now: int, t': T.Tables,
          r: Result<Option<Payment>, ServiceError>)
    requires Usable(report)
  {
    var p := T.Load(t, key);
    if p.Some? && (Waiting(p.value.state) || p.value.state.Settled?) then
      && key in t.streams && t' == t.(streams := t.streams[key := t.streams[key] + [e]])
      && r.Ok? && r.value.Some? && Takes(p.value, report, now, r.value.value) && T.Load(t', key) == r.value
    else t' == t && r.Err? && r.error.Transition?
  }

  lemma AppendsAdvice(t: T.Tables, key: Key, report: Report, now: int)
    requires AdviceOf(report, now).Some?
    ensures Usable(report)
    ensures var e := AdviceOf(report, now).value;
      var reply := T.Append(t, key, e);
      AfterAdvice(t, key, e, report, now, reply.tables,
                  match reply.outcome case Ok(p) => Ok(Some(p)) case Err(error) => Err(Transition(error)))
  {
    hide AdviceOf, Takes, Usable;
    AdviceIsRecorded(report, now);
    if T.Load(t, key).Some? {
      AdviceMoves(T.Load(t, key).value, report, now);
      if Applied(T.Load(t, key).value, AdviceOf(report, now).value).Ok? {
        AppendsApplied(t, key, AdviceOf(report, now).value);
      } else {
        ReplayExtends(t.streams[key], AdviceOf(report, now).value);
      }
    } else if key in t.streams && t.streams[key] != [] {
      ReplayExtends(t.streams[key], AdviceOf(report, now).value);
    }
  }

  // --------------------------------------------------------------- queries

  lemma LoadedHistory(t: T.Tables, key: Key)
    requires T.Load(t, key).Some?
    ensures key in t.streams && Replay(t.streams[key]) == Ok(T.Load(t, key).value)
    ensures t.streams[key] != [] && t.streams[key][0].Created? && T.Load(t, key).value.events == t.streams[key]
  {
    IdentityIsFixed(t.streams[key]);
    ReplayKeepsHistory(t.streams[key]);
  }

  lemma AppendsApplied(t: T.Tables, key: Key, e: Event)
    requires T.Load(t, key).Some? && Applied(T.Load(t, key).value, e).Ok?
    ensures key in t.streams
    ensures T.Append(t, key, e)
         == T.Reply(t.(streams := t.streams[key := t.streams[key] + [e]]), Applied(T.Load(t, key).value, e))
    ensures T.Load(T.Append(t, key, e).tables, key) == Some(Applied(T.Load(t, key).value, e).value)
  {
    hide Applied;
    ReplayExtends(t.streams[key], e);
  }

  /** One query is on record and was sent, about this payment; and the advice it brought, if any, is applied. */
  ghost predicate AfterQuery(sender: string, date: string, now: int, before: map<Key, seq<Event>>, key: Key, p: Payment,
          request: StatusRequest, answer: PortAnswer, after: map<Key, seq<Event>>, r: Answer)
  {
    && key in before && before[key] != [] && before[key][0].Created?
    && var h := before[key] + [QuerySent(now)];
       var queried := p.(queriesSent := p.queriesSent + 1, lastQueryAt := Some(now), events := h);
       && AsksAbout(request, sender, date, h)
       && if !Tells(answer) then after == before[key := h] && r == Ok(queried)
          else
            && key in after && |after[key]| == |h| + 1 && after[key][..|h|] == h
            && IsAdvice(answer.body.report, now, after[key][|h|]) && after == before[key := after[key]]
            && r.Ok? && Takes(queried, answer.body.report, now, r.value)
  }

  lemma QueryApplies(t: T.Tables, key: Key, p: Payment, now: int)
    requires T.Load(t, key) == Some(p) && p.state.TimeoutUnresolved?
    ensures T.Append(t, key, QuerySent(now)).outcome == Applied(p, QuerySent(now))
    ensures Applied(p, QuerySent(now)).Ok? && Applied(p, QuerySent(now)).value.state.TimeoutUnresolved?
    ensures var t1 := T.Append(t, key, QuerySent(now)).tables;
      && key in t.streams && t1 == t.(streams := t.streams[key := t.streams[key] + [QuerySent(now)]])
      && T.Load(t1, key) == Some(Applied(p, QuerySent(now)).value)
  {
    AppendsApplied(t, key, QuerySent(now));
  }

  /** The query, its answer, and the advice when there is one: as the protocol takes them, and what they leave. */
  lemma QueryEnds(cfg: Config, t: T.Tables, key: Key, p: Payment, date: string, now: int, answer: PortAnswer,
          queried: Payment)
    requires T.Load(t, key) == Some(p) && p.state.TimeoutUnresolved? && Applied(p, QuerySent(now)) == Ok(queried)
    ensures key in t.streams
    ensures var t1 := T.Append(t, key, QuerySent(now)).tables;
      var advice := AdviceIn(answer, now);
      var last := if advice.Some? then T.Append(t1, key, advice.value) else T.Reply(t1, Ok(queried));
      && last.outcome.Ok?
      && Reaches(cfg, At(t, Querying(key, date, QuerySent(now))), At(last.tables, Done))
      && AfterQuery(cfg.sender, date, now, t.streams, key, p, RequestFor(cfg.sender, date, queried), answer,
                    last.tables.streams, Ok(last.outcome.value))
  {
    hide Reaches, Replay, T.Load, T.Append, Applied, AdviceIn, AfterQuery, Takes, IsAdvice, AsksAbout, RequestFor, Usable;
    QueryApplies(t, key, p, now);
    var t1 := T.Append(t, key, QuerySent(now)).tables;
    LoadedHistory(t, key);
    LoadedHistory(t1, key);
    RequestAsks(cfg.sender, date, t1.streams[key]);
    QueryReaches(cfg, t, key, date, now, answer);
    ToldIsAdvice(answer, now);
    if Tells(answer) {
      var advice := AdviceIn(answer, now).value;
      AdviceIsRecorded(answer.body.report, now);
      AdviceMoves(queried, answer.body.report, now);
      AppendsApplied(t1, key, advice);
      QueryAnswered(cfg.sender, date, now, t.streams, key, p, RequestFor(cfg.sender, date, queried), answer,
                    T.Append(t1, key, advice).tables.streams, queried, advice, Applied(queried, advice).value);
    } else {
      QueryUnanswered(cfg.sender, date, now, t.streams, key, p, RequestFor(cfg.sender, date, queried), answer, t1.streams, queried);
    }
  }

  lemma QueryReaches(cfg: Config, t: T.Tables, key: Key, date: string, now: int, answer: PortAnswer)
    requires T.Append(t, key, QuerySent(now)).outcome.Ok?
    ensures var t1 := T.Append(t, key, QuerySent(now)).tables;
      var advice := AdviceIn(answer, now);
      Reaches(cfg, At(t, Querying(key, date, QuerySent(now))),
              At(if advice.Some? then T.Append(t1, key, advice.value).tables else t1, Done))
  {
    hide Reaches, T.Append, AdviceIn;
    var t1, advice := T.Append(t, key, QuerySent(now)).tables, AdviceIn(answer, now);
    var start, asking := At(t, Querying(key, date, QuerySent(now))), At(t1, AwaitingQuery(key, now));
    ReachesNext(cfg, start, Quiet);
    ReachesNext(cfg, asking, Oracle.Port(answer));
    if advice.None? {
      ReachesFurther(cfg, start, asking, At(t1, Done));
    } else {
      var advising := At(t1, QueryAdvising(key, advice.value));
      ReachesFurther(cfg, start, asking, advising);
      ReachesNext(cfg, advising, Quiet);
      ReachesFurther(cfg, start, advising, At(T.Append(t1, key, advice.value).tables, Done));
    }
  }

  lemma QueryUnanswered(sender: string, date: string, now: int, before: map<Key, seq<Event>>, key: Key, p: Payment,
          request: StatusRequest, answer: PortAnswer, after: map<Key, seq<Event>>, queried: Payment)
    requires key in before && before[key] != [] && before[key][0].Created?
    requires AsksAbout(request, sender, date, before[key] + [QuerySent(now)]) && !Tells(answer)
    requires p.events == before[key] && p.state.TimeoutUnresolved?
    requires Applied(p, QuerySent(now)) == Ok(queried) && after == before[key := before[key] + [QuerySent(now)]]
    ensures AfterQuery(sender, date, now, before, key, p, request, answer, after, Ok(queried))
  {
    hide AsksAbout;
  }

  lemma QueryAnswered(sender: string, date: string, now: int, before: map<Key, seq<Event>>, key: Key, p: Payment,
          request: StatusRequest, answer: PortAnswer, after: map<Key, seq<Event>>, queried: Payment, advice: Event, q: Payment)
    requires key in before && before[key] != [] && before[key][0].Created?
    requires AsksAbout(request, sender, date, before[key] + [QuerySent(now)]) && Tells(answer)
    requires p.events == before[key] && p.state.TimeoutUnresolved? && Applied(p, QuerySent(now)) == Ok(queried)
    requires IsAdvice(answer.body.report, now, advice) && Takes(queried, answer.body.report, now, q)
    requires after == before[key := before[key] + [QuerySent(now)]][key := before[key] + [QuerySent(now)] + [advice]]
    ensures AfterQuery(sender, date, now, before, key, p, request, answer, after, Ok(q))
  {
    hide AsksAbout, Takes;
    assert after == before[key := after[key]];
  }

  /** The gateway service over the in-memory store. */
  class PaymentService {
    const cfg: Config
    const store: InMemoryStore
    const port: Port
    const gate: Gate

    ghost predicate Valid()
      reads this, store
    {
      store.hash == cfg.hash && gate.policy == cfg.policy && Numbered(store.outbox, store.nextOutboxId)
    }

    constructor (cfg: Config, store: InMemoryStore, port: Port, gate: Gate)
      requires store.hash == cfg.hash && gate.policy == cfg.policy && Numbered(store.outbox, store.nextOutboxId)
      ensures Valid()
      ensures this.cfg == cfg && this.store == store && this.port == port && this.gate == gate
    {
      this.cfg, this.store, this.port, this.gate := cfg, store, port, gate;
    }

    /** The port took or refused this entry: consume it, and record the publication if it was taken. */
    method SettleEntry(entry: T.Entry, answer: PortAnswer, now: int)
      requires !answer.TransportFailure?
      modifies store
      ensures store.View() == Settle(old(store.View()), entry, answer, now)
    {
      hide Replay, AdviceIn, T.MarkPublished;
      store.MarkPublished(entry.id);
      if !answer.Rejected? {
        var _ := store.Append(entry.key, Published(now));
        var advice := AdviceIn(answer, now);
        if advice.Some? {
          var _ := store.Append(entry.key, advice.value);
        }
      }
    }

    /**
     * Publish outbox entries until empty or the transport fails: oldest first, each acknowledged once.
     * The effect is that of the drain task run alone, as the protocol describes it.
     */
    method PublishPending(now: int, ghost caller: Option<Key>) returns (published: nat)
      requires Valid()
      modifies store, port`sent
      ensures Valid()
      ensures Reaches(cfg, At(old(store.View()), Draining(now, caller)), At(store.View(), AfterDrain(caller)))
      ensures old(port.sent) <= port.sent
      ensures var pending, given := Pending(old(store.outbox)), port.sent[|old(port.sent)|..];
        var stopped := given != [] && port.answers(|port.sent| - 1).TransportFailure?;
        var taken := if stopped then |given| - 1 else |given|;
        && |given| <= |pending|
        && given == Messages(pending[..|given|])
        && Took(port.answers, |old(port.sent)|, pending, given[..taken], published)
        && Pending(store.outbox) == pending[taken..]
        && (stopped || taken == |pending|)
      ensures SameEntries(old(store.outbox), store.outbox) && Continues(old(store.View()), store.View())
    {
      hide Run, Reaches, Settle, Pending, T.NextUnpublished, T.MarkPublished, AdviceIn, Took, Messages, Confirmed,
           Numbered,
           SameEntries, Continues, T.Append;
      ghost var pending, base, start := Pending(store.outbox), |port.sent|, At(store.View(), Draining(now, caller));
      ghost var given: seq<T.Message> := [];
      published := 0;
      ReachesItself(cfg, start);
      TookNothing(port.answers, base, pending);
      EntriesStay(store.outbox, store.outbox, store.outbox);
      ContinuesOn(store.View(), store.View(), store.View());
      var entry := store.NextUnpublished();
      while entry.Some?
        invariant Valid() && entry == T.NextUnpublished(store.View())
        invariant port.sent == old(port.sent) + given && |given| <= |pending|
        invariant Took(port.answers, base, pending, given, published)
        invariant Pending(store.outbox) == pending[|given|..]
        invariant Reaches(cfg, start, At(store.View(), Draining(now, caller)))
        invariant SameEntries(old(store.outbox), store.outbox) && Continues(old(store.View()), store.View())
        decreases |Pending(store.outbox)|
      {
        ghost var before := store.View();
        HeadOfPending(before);
        GivesOneMore(port.answers, base, pending, given, published);
        var answer := port.Submit(entry.value.message);
        DrainSettles(cfg, before, answer, now, caller);
        if answer.TransportFailure? {
          ReachesFurther(cfg, start, At(before, Draining(now, caller)), At(before, AfterDrain(caller)));
          assert port.sent[base..] == given + [entry.value.message] && port.sent[base..][..|given|] == given;
          return;
        }
        SettleEntry(entry.value, answer, now);
        SettleMarks(before, entry.value, answer, now);
        EntriesStay(old(store.outbox), before.outbox, store.outbox);
        SettleContinues(before, entry.value, answer, now);
        ContinuesOn(old(store.View()), before, store.View());
        ReachesFurther(cfg, start, At(before, Draining(now, caller)), At(store.View(), Draining(now, caller)));
        published := published + if answer.Rejected? then 0 else 1;
        given := given + [entry.value.message];
        entry := store.NextUnpublished();
      }
      assert port.sent[base..] == given == given[..|given|];
      TookAll(port.answers, base, pending, given, published);
      HeadOfPending(store.View());
      DrainEnds(cfg, store.View(), now, caller);
      ReachesFurther(cfg, start, At(store.View(), Draining(now, caller)), At(store.View(), AfterDrain(caller)));
    }

    static lemma EntriesStay(a: seq<T.Entry>, b: seq<T.Entry>, c: seq<T.Entry>)
      ensures SameEntries(a, a)
      ensures SameEntries(a, b) && SameEntries(b, c) ==> SameEntries(a, c)
    {
    }

    // -------------------------------------------------------------- holds

    /** The payment, if it exists, is held, and the reason is a code: checked in this order. */
    method Held(key: Key, reason: string) returns (r: Answer)
      ensures r == match T.Load(store.View(), key)
        case None => Err(UnknownPayment(key))
        case Some(p) =>
          if !p.state.Held? then Err(NotHeld(p.state))
          else if !IsCode(reason) then Err(InvalidReason)
          else Ok(p)
    {
      var loaded := store.Load(key);
      if loaded.None? {
        return Err(UnknownPayment(key));
      }
      if !loaded.value.state.Held? {
        return Err(NotHeld(loaded.value.state));
      }
      var sanitized := SanitizeReason(reason);
      UnspecifiedIsCode();
      if sanitized != reason {
        return Err(InvalidReason);
      }
      return Ok(loaded.value);
    }

    /** A refusal, as the caller can act on it: if the payment left `HELD` meanwhile, say so. */
    method Explain(key: Key, e: TransitionError) returns (error: ServiceError)
      ensures var p := T.Load(store.View(), key);
        error == if p.Some? && !p.value.state.Held? then NotHeld(p.value.state) else Transition(e)
    {
      var loaded := store.Load(key);
      error := if loaded.Some? && !loaded.value.state.Held? then NotHeld(loaded.value.state) else Transition(e);
    }

    /** Cancel with `hold_expired`. */
    method Expire(key: Key, now: int) returns (r: Answer)
      modifies store
      ensures store.View() == T.DiscardParked(old(store.View()), key, ExpiryEvent(now)).tables
      ensures r.Ok? <==> T.DiscardParked(old(store.View()), key, ExpiryEvent(now)).outcome.Ok?
    {
      var outcome := store.DiscardParked(key, ExpiryEvent(now));
      match outcome
      case Ok(p) => r := Ok(p);
      case Err(e) => var error := Explain(key, e); r := Err(error);
    }

    /** Cancel a held payment, at any age: never sent, its parked message deleted. */
    method Cancel(key: Key, actor: string, reason: string, now: int) returns (r: Answer)
      modifies store
      ensures Reaches(cfg, At(old(store.View()), CancelCheck(key, actor, reason, now)), At(store.View(), Done))
      ensures r.Ok? <==> CanResolve(old(store.View()), key, reason)
      ensures r.Ok? ==>
        && key in old(store.streams) && key in store.streams
        && store.View() == old(store.View()).(
             streams := old(store.streams)[key := old(store.streams)[key] + [HoldCancelled(actor, reason, now)]],
             parked := old(store.parked) - {key})
        && T.Load(store.View(), key) == Some(r.value) && r.value.state.Cancelled?
      ensures r.Err? ==> store.View() == old(store.View()) && WhyNot(store.View(), key, reason, r.error)
    {
      hide Reaches, Replay, T.DiscardParked, Sanitize, T.Load, CanResolve, WhyNot;
      ghost var t, start := store.View(), At(store.View(), CancelCheck(key, actor, reason, now));
      ResolvableExactly(t, key, reason);
      ReachesNext(cfg, start, Quiet);
      r := Held(key, reason);
      if r.Err? {
        return;
      }
      var e := HoldCancelled(actor, reason, now);
      HeldIsCancellable(t, key, e);
      CancelledIsCancelled(t, key, e);
      var outcome := store.DiscardParked(key, e);
      ReachesNext(cfg, At(t, Discarding(key, e)), Quiet);
      ReachesFurther(cfg, start, At(t, Discarding(key, e)), At(store.View(), Done));
      r := Ok(outcome.value);
    }

    /** Cancel this hold if it outlived the policy. */
    method ExpireIfDue(key: Key, now: int) returns (due: bool)
      modifies store
      ensures due == Stale(cfg, old(store.View()), key, now)
      ensures store.View() == if due then T.DiscardParked(old(store.View()), key, ExpiryEvent(now)).tables else old(store.View())
    {
      hide Replay, T.DiscardParked, T.Load, Expired;
      var p := store.Load(key);
      due := p.Some? && p.value.state.Held? && Expired(cfg, p.value, now);
      if due {
        HeldIsCancellable(store.View(), key, ExpiryEvent(now));
        var r := Expire(key, now);
        due := r.Ok?;
      }
    }

    /**
     * Cancel every hold that outlived the policy: exactly the stale ones, parked message or not; every other
     * stream and the outbox stay as they are.
     */
    method ExpireHolds(now: int) returns (expired: nat)
      modifies store
      ensures store.View() == SweptOf(old(store.View()), StaleKeys(cfg, old(store.View()), now), now)
      ensures Swept(cfg.maxAge, old(store.View()), now, store.View())
      ensures expired == |set key | key in old(store.streams) && HeldTooLong(cfg.maxAge, old(store.View()), key, now)|
      ensures Reaches(cfg, At(old(store.View()), Sweeping(now)), At(store.View(), Done))
    {
      hide Run, Reaches, Stale, SweptOf, StaleKeys, T.DiscardParked, Swept, HeldTooLong;
      ghost var t, start := store.View(), At(store.View(), Sweeping(now));
      ghost var stale := StaleKeys(cfg, t, now);
      var keys := store.Keys();
      expired := 0;
      SweepBegins(cfg, t, now);
      while keys != {}
        invariant keys <= t.streams.Keys
        invariant store.View() == SweptOf(t, stale - keys, now)
        invariant expired == |stale - keys|
        invariant Reaches(cfg, start, At(store.View(), SweepCheck(keys, now)))
        decreases |keys|
      {
        var key :| key in keys;
        ghost var before := At(store.View(), SweepCheck(keys, now));
        SweepAdvances(cfg, t, keys, key, now);
        var due := ExpireIfDue(key, now);
        expired := expired + if due then 1 else 0;
        keys := keys - {key};
        ReachesFurther(cfg, start, before, At(store.View(), SweepCheck(keys, now)));
      }
      assert stale - {} == stale;
      SweptAsStated(cfg, t, now);
      SweepEnds(cfg, store.View(), now);
      ReachesFurther(cfg, start, At(store.View(), SweepCheck({}, now)), At(store.View(), Done));
    }

    // ------------------------------------------------------------- submit

    /**
     * Submit a payment, idempotently. A known key answers with its payment and touches nothing; an invalid
     * message stays where its creation left it; anything else ends checked, parked, refused or queued.
     */
    method Submit(req: SubmitRequest, now: int, elapsedMs: nat) returns (r: Answer)
      requires Valid()
      modifies store, port`sent, gate
      ensures Valid()
      ensures Completes(cfg, old(store.View()), Creating(req, now), store.View())
      ensures req.key in old(store.streams) ==>
        store.View() == old(store.View()) && port.sent == old(port.sent) && gate.asked == old(gate.asked)
      ensures req.key !in old(store.streams) && !cfg.clean(cfg.build(req)) ==>
        && r == Err(Validation) && port.sent == old(port.sent) && gate.asked == old(gate.asked)
        && store.View() == T.Create(old(store.View()), CreationOf(cfg, req, now)).tables
      ensures req.key !in old(store.streams) && r.Ok? && !cfg.gated ==> Queued(store.outbox, req.key, cfg.build(req))
      ensures req.key !in old(store.streams) && r.Ok? && cfg.gated ==>
        && req.key in store.streams && gate.asked == old(gate.asked) + 1
        && EndsAsAnswered(cfg.policy, gate.answers(old(gate.asked)), store.View(), req.key, cfg.build(req))
        && |store.streams[req.key]| > 2
        && Checks(cfg.policy, gate.answers(old(gate.asked)), elapsedMs, now, store.streams[req.key][2])
      ensures req.key !in old(store.streams) && cfg.clean(cfg.build(req)) ==>
        req.key in store.streams && |store.streams[req.key]| > 1 && store.streams[req.key][1] == Event.Validated(now)
      ensures req.key !in old(store.streams) ==>
        req.key in store.streams && store.streams[req.key] != [] && S.Opens(cfg.sender, req, now, store.streams[req.key][0])
      ensures req.key in old(store.streams) ==> (r.Ok? <==> T.Load(old(store.View()), req.key).Some?)
      ensures req.key !in old(store.streams) && cfg.clean(cfg.build(req)) ==>
        (r.Ok? <==>
          !T.InOutbox(old(store.outbox), req.key)
          || (cfg.gated && !Passes(cfg.policy, gate.answers(old(gate.asked)))))
      ensures S.Consistent(cfg, old(store.View())) ==> (r.Ok? <==> req.key in old(store.streams) || cfg.clean(cfg.build(req)))
      ensures r.Ok? ==> T.Load(store.View(), req.key) == Some(r.value)
    {
      hide Reaches, Replay, T.Append, T.Load, T.SubmitToOutbox, T.InOutbox, Unchecked, EndsAsAnswered,
           Checks, Passes, S.Opens, Queued, Continues, S.Consistent;
      ghost var t, start := store.View(), At(store.View(), Creating(req, now));
      if S.Consistent(cfg, t) {
        S.ConsistentIsOpen(cfg, t, req.key);
      }
      ReachesNext(cfg, start, Quiet);
      ExistingIsLoaded(t, CreationOf(cfg, req, now));
      NewIsCreated(cfg, t, req, now);
      CreationOpens(cfg, t, req, now);
      var created := store.Create(CreationOf(cfg, req, now));
      if created.Err? {
        return Err(Transition(created.error));
      }
      if created.value.Existing? {
        return Ok(created.value.payment);
      }
      if !cfg.clean(cfg.build(req)) {
        return Err(Validation);
      }
      ghost var validating := At(store.View(), Validating(req, now));
      ReachesNext(cfg, validating, Quiet);
      var validated := store.Append(req.key, Event.Validated(now));
      ghost var next := if cfg.gated then Checking(req, now) else Submitting(req, now);
      if validated.Err? {
        ReachesFurther(cfg, start, validating, At(store.View(), Aborted));
        r := Err(Transition(validated.error));
        NewIsAccepted(cfg, t, req, now);
        assert false;
      }
      NewIsAccepted(cfg, t, req, now);
      ReachesFurther(cfg, start, validating, At(store.View(), next));
      ghost var checked := At(store.View(), next);
      if cfg.gated {
        r := CheckThenSend(req, now, elapsedMs);
      } else {
        r := Enqueue(req, now);
      }
      StreamKept(checked.db, store.View(), req.key);
      CompletesAfter(cfg, start, checked, store.View());
    }

    /** Ask the gate, record its verdict, and park, drop or queue the message accordingly. */
    method CheckThenSend(req: SubmitRequest, now: int, elapsedMs: nat) returns (r: Answer)
      requires Valid() && cfg.gated
      modifies store, port`sent, gate
      ensures Valid() && gate.asked == old(gate.asked) + 1
      ensures Completes(cfg, old(store.View()), Checking(req, now), store.View())
      ensures r.Ok? <==>
        Unchecked(old(store.View()), req.key)
        && (Passes(cfg.policy, gate.answers(old(gate.asked))) ==> !T.InOutbox(old(store.outbox), req.key))
      ensures r.Ok? ==> T.Load(store.View(), req.key) == Some(r.value)
      ensures r.Ok? ==> EndsAsAnswered(cfg.policy, gate.answers(old(gate.asked)), store.View(), req.key, cfg.build(req))
      ensures Continues(old(store.View()), store.View())
      ensures r.Ok? ==>
        && req.key in old(store.streams) && req.key in store.streams
        && var h := old(store.streams)[req.key];
           |h| < |store.streams[req.key]|
           && Checks(cfg.policy, gate.answers(old(gate.asked)), elapsedMs, now, store.streams[req.key][|h|])
    {
      hide Reaches, Replay, T.Append, T.Park, T.Load, T.SubmitToOutbox, T.InOutbox, VerdictOf, Unchecked,
           Continues, Checks, Passes, EndsAsAnswered, CallsFor;
      ghost var t, start, answer := store.View(), At(store.View(), Checking(req, now)), gate.answers(gate.asked);
      var message := cfg.build(req);
      var verdict := gate.Check(elapsedMs);
      AnswerDecides(cfg.policy, answer, elapsedMs, now);
      ReachesNext(cfg, start, Oracle.Gate(answer, elapsedMs));
      ghost var recording := At(t, Recording(req, now, verdict));
      ReachesNext(cfg, recording, Quiet);
      var checkEvent := CheckEvent(verdict, now);
      var outcome;
      if verdict.outcome.Hold? {
        outcome := store.Park(req.key, [checkEvent, HoldParked(cfg.hash(message), now)], message);
        ParkedIsLoaded(t, req.key, [checkEvent, HoldParked(cfg.hash(message), now)], message);
        ParkedIsHeld(t, req.key, checkEvent, HoldParked(cfg.hash(message), now), message);
        ParkingContinues(t, req.key, [checkEvent, HoldParked(cfg.hash(message), now)], message);
      } else {
        outcome := store.Append(req.key, checkEvent);
        AppendedIsLoaded(t, req.key, checkEvent);
        RefusalIsFinal(t, req.key, checkEvent);
        AppendContinues(t, req.key, checkEvent);
      }
      CheckIsNext(t, req.key, checkEvent, HoldParked(cfg.hash(message), now), message);
      CheckAccepted(t, req.key, verdict, cfg.hash(message), message, now);
      if outcome.Err? {
        ReachesFurther(cfg, start, recording, At(store.View(), Aborted));
        return Err(Transition(outcome.error));
      }
      if !verdict.outcome.Allow? {
        ReachesFurther(cfg, start, recording, At(store.View(), Done));
        return Ok(outcome.value);
      }
      ghost var submitting := At(store.View(), Submitting(req, now));
      ReachesFurther(cfg, start, recording, submitting);
      ghost var recorded := store.View();
      QueueAccepted(t, req.key, verdict, message, now);
      r := Enqueue(req, now);
      ContinuesOn(t, recorded, store.View());
      StreamKept(recorded, store.View(), req.key);
      CompletesAfter(cfg, start, submitting, store.View());
    }

    /** The outbox pattern's atomic step, then the inline drain. */
    method Enqueue(req: SubmitRequest, now: int) returns (r: Answer)
      requires Valid()
      modifies store, port`sent
      ensures Valid()
      ensures Completes(cfg, old(store.View()), Submitting(req, now), store.View())
      ensures Continues(old(store.View()), store.View())
      ensures r.Ok? <==> T.SubmitToOutbox(old(store.View()), req.key, Event.Submitted(now), cfg.build(req)).outcome.Ok?
      ensures r.Ok? ==> T.Load(store.View(), req.key) == Some(r.value) && Queued(store.outbox, req.key, cfg.build(req))
    {
      hide Reaches, Replay, T.SubmitToOutbox, T.Load, Queued, SameEntries, Continues;
      ghost var start := At(store.View(), Submitting(req, now));
      ReachesNext(cfg, start, Quiet);
      SubmittingQueues(store.View(), req.key, Event.Submitted(now), cfg.build(req));
      ghost var t := store.View();
      SubmittingContinues(t, req.key, Event.Submitted(now), cfg.build(req));
      var outcome := store.SubmitToOutbox(req.key, Event.Submitted(now), cfg.build(req));
      if outcome.Err? {
        return Err(Transition(outcome.error));
      }
      ghost var draining := At(store.View(), Draining(now, Some(req.key)));
      r := DrainThenLoad(req.key, now);
      ContinuesOn(t, draining.db, store.View());
      QueuedStays(draining.db.outbox, store.outbox, req.key, cfg.build(req));
      ReachesFurther(cfg, start, draining, At(store.View(), Done));
    }

    /** Drain inline, then answer with the payment as it stands. */
    method DrainThenLoad(key: Key, now: int) returns (r: Answer)
      requires Valid()
      modifies store, port`sent
      ensures Valid()
      ensures Reaches(cfg, At(old(store.View()), Draining(now, Some(key))), At(store.View(), Done))
      ensures r == match T.Load(store.View(), key) case Some(p) => Ok(p) case None => Err(UnknownPayment(key))
      ensures r.Ok? <==> T.Load(old(store.View()), key).Some?
      ensures SameEntries(old(store.outbox), store.outbox) && Continues(old(store.View()), store.View())
    {
      hide Reaches, T.Load;
      ghost var start := At(store.View(), Draining(now, Some(key)));
      var _ := PublishPending(now, Some(key));
      ReachesNext(cfg, At(store.View(), Returning(key)), Quiet);
      ReachesFurther(cfg, start, At(store.View(), Returning(key)), At(store.View(), Done));
      var loaded := store.Load(key);
      r := if loaded.Some? then Ok(loaded.value) else Err(UnknownPayment(key));
    }

    /**
     * Release a held payment: exactly the parked message goes to the outbox. A hold past the policy is
     * cancelled instead.
     */
    method Release(key: Key, actor: string, reason: string, now: int) returns (r: Answer)
      requires Valid()
      modifies store, port`sent
      ensures Valid()
      ensures Reaches(cfg, At(old(store.View()), ReleaseCheck(key, actor, reason, now)), At(store.View(), Done))
      ensures !CanResolve(old(store.View()), key, reason) ==>
        && r.Err? && WhyNot(old(store.View()), key, reason, r.error)
        && store.View() == old(store.View()) && port.sent == old(port.sent)
      ensures CanResolve(old(store.View()), key, reason) && HeldTooLong(cfg.maxAge, old(store.View()), key, now) ==>
        && r == Err(HoldExpired) && port.sent == old(port.sent) && key in old(store.streams)
        && store.View() == old(store.View()).(
             streams := old(store.streams)[key := old(store.streams)[key] + [HoldCancelled("gateway", "hold_expired", now)]],
             parked := old(store.parked) - {key})
      ensures CanResolve(old(store.View()), key, reason) && !HeldTooLong(cfg.maxAge, old(store.View()), key, now) ==>
        var p := T.Load(old(store.View()), key).value;
        r.Ok? <==>
          p.heldDigest.Some?
          && T.ReleaseParked(cfg.hash, old(store.View()), key,
                             HoldReleased(actor, reason, p.heldDigest.value, now)).outcome.Ok?
      ensures S.Consistent(cfg, old(store.View())) ==>
        (r.Ok? <==>
          CanResolve(old(store.View()), key, reason) && !HeldTooLong(cfg.maxAge, old(store.View()), key, now))
      ensures r.Ok? ==>
        && T.Load(store.View(), key) == Some(r.value)
        && key in old(store.parked) && Queued(store.outbox, key, old(store.parked)[key])
        && key in old(store.streams) && key in store.streams && T.Load(old(store.View()), key).Some?
        && var digest := T.Load(old(store.View()), key).value.heldDigest;
           digest.Some? && old(store.streams)[key] + [HoldReleased(actor, reason, digest.value, now)] <= store.streams[key]
    {
      hide Reaches, Replay, T.DiscardParked, T.ReleaseParked, Sanitize, T.Load, Expired, Queued, SameEntries, S.Consistent,
           CanResolve, WhyNot, HeldTooLong, Continues;
      ghost var t, start := store.View(), At(store.View(), ReleaseCheck(key, actor, reason, now));
      if S.Consistent(cfg, t) {
        S.ConsistentIsOpen(cfg, t, key);
      }
      ResolvableExactly(t, key, reason);
      StaleByHistory(cfg, t, key, now);
      ReachesNext(cfg, start, Quiet);
      r := Held(key, reason);
      if r.Err? {
        return;
      }
      var p := r.value;
      if Expired(cfg, p, now) {
        HeldIsCancellable(t, key, ExpiryEvent(now));
        r := Expire(key, now);
        ReachesNext(cfg, At(t, Discarding(key, ExpiryEvent(now))), Quiet);
        ReachesFurther(cfg, start, At(t, Discarding(key, ExpiryEvent(now))), At(store.View(), Done));
        return Err(HoldExpired);
      }
      if p.heldDigest.None? {
        return Err(ServiceError.NoParkedMessage);
      }
      var e := HoldReleased(actor, reason, p.heldDigest.value, now);
      ghost var releasing := At(t, Releasing(key, e, now));
      ReachesNext(cfg, releasing, Quiet);
      ReleasingQueues(cfg.hash, t, key, e);
      ReleasingContinues(cfg.hash, t, key, e);
      var outcome := store.ReleaseParked(key, e);
      if outcome.Err? {
        ReachesFurther(cfg, start, releasing, At(store.View(), Done));
        var error := Explain(key, outcome.error);
        return Err(error);
      }
      ghost var draining := At(store.View(), Draining(now, Some(key)));
      ReachesFurther(cfg, start, releasing, draining);
      r := DrainThenLoad(key, now);
      StreamKept(draining.db, store.View(), key);
      QueuedStays(draining.db.outbox, store.outbox, key, t.parked[key]);
      ReachesFurther(cfg, start, draining, At(store.View(), Done));
    }

    // ---------------------------------------------------------- reconcile

    /**
     * Declare the timeout when due, query when due, and apply whatever advice comes back; otherwise do nothing.
     * What is due is read off the payment's history.
     */
    method Reconcile(key: Key, date: string, now: int) returns (r: Answer)
      modifies store`streams, port`asked
      ensures Reaches(cfg, At(old(store.View()), ReconcileCheck(key, date, now)), At(store.View(), Done))
      ensures match T.Load(old(store.View()), key)
        case None => r == Err(UnknownPayment(key)) && store.streams == old(store.streams) && port.asked == old(port.asked)
        case Some(p) =>
          var h := old(store.streams)[key];
          if p.state.AckPending? && TimeoutDue(h, now, cfg.timeoutSecs) then
            && store.streams == old(store.streams)[key := h + [TimeoutDeclared(now)]] && port.asked == old(port.asked)
            && r == Ok(p.(state := PaymentState.TimeoutUnresolved, events := h + [TimeoutDeclared(now)]))
          else if p.state.TimeoutUnresolved? && QueryIsDue(h, now, cfg.backoffSecs) then
            && |port.asked| == |old(port.asked)| + 1 && old(port.asked) <= port.asked
            && AfterQuery(cfg.sender, date, now, old(store.streams), key, p, port.asked[|old(port.asked)|],
                          port.queryAnswers(|old(port.asked)|), store.streams, r)
          else
            r == Ok(p) && store.streams == old(store.streams) && port.asked == old(port.asked)
    {
      hide Reaches, Replay, T.Load, T.Append, NextAction, AdviceIn, TimeoutDue, QueryIsDue, AfterQuery;
      ghost var t, start := store.View(), At(store.View(), ReconcileCheck(key, date, now));
      ReachesNext(cfg, start, Quiet);
      var loaded := store.Load(key);
      if loaded.None? {
        return Err(UnknownPayment(key));
      }
      LoadedHistory(t, key);
      ActionByHistory(t.streams[key], now, cfg.timeoutSecs, cfg.backoffSecs);
      match NextAction(loaded.value, now, cfg.timeoutSecs, cfg.backoffSecs)
      case Rest => return Ok(loaded.value);
      case DeclareTimeout =>
        var outcome := store.Append(key, TimeoutDeclared(now));
        AppendsApplied(t, key, TimeoutDeclared(now));
        ReachesNext(cfg, At(t, Declaring(key, TimeoutDeclared(now))), Quiet);
        ReachesFurther(cfg, start, At(t, Declaring(key, TimeoutDeclared(now))), At(store.View(), Done));
        r := Ok(outcome.value);
      case SendQuery =>
        r := QueryThenAdvise(key, loaded.value, date, now);
        ReachesFurther(cfg, start, At(t, Querying(key, date, QuerySent(now))), At(store.View(), Done));
    }

    /** Queries are idempotent: any failure just means asking again after the backoff. */
    method QueryThenAdvise(key: Key, p: Payment, date: string, now: int) returns (r: Answer)
      requires T.Load(store.View(), key) == Some(p) && p.state.TimeoutUnresolved?
      modifies store`streams, port`asked
      ensures Reaches(cfg, At(old(store.View()), Querying(key, date, QuerySent(now))), At(store.View(), Done))
      ensures |port.asked| == |old(port.asked)| + 1 && old(port.asked) <= port.asked
      ensures AfterQuery(cfg.sender, date, now, old(store.streams), key, p, port.asked[|old(port.asked)|],
                         port.queryAnswers(|old(port.asked)|), store.streams, r)
    {
      hide Reaches, Replay, T.Load, T.Append, Applied, AdviceIn, AfterQuery, RequestFor;
      ghost var t := store.View();
      QueryApplies(t, key, p, now);
      var outcome := store.Append(key, QuerySent(now));
      var queried := outcome.value;
      var answer := port.Query(RequestFor(cfg.sender, date, queried));
      QueryEnds(cfg, t, key, p, date, now, answer, queried);
      var advice := AdviceIn(answer, now);
      if advice.None? {
        return Ok(queried);
      }
      outcome := store.Append(key, advice.value);
      r := Ok(outcome.value);
    }

    // ------------------------------------------------------------- advices

    /** The payment with this message id, found by looking at one key after the other. */
    method FindByMessageId(report: Report, now: int) returns (p: Option<Payment>)
      requires report.originalId.Some?
      ensures p.Some? ==>
        exists key :: key in store.streams && Matches(store.View(), key, report.originalId.value)
                      && T.Load(store.View(), key) == p
      ensures p.None? ==> forall key | key in store.streams :: !Matches(store.View(), key, report.originalId.value)
      ensures Reaches(cfg, At(store.View(), Listing(report, now)), At(store.View(), Found(report, p, now)))
    {
      hide Run, Reaches, T.Load, AdviceOf;
      ghost var t, start := store.View(), At(store.View(), Listing(report, now));
      var keys := store.Keys();
      SearchEnds(cfg, t, report, now);
      while keys != {}
        invariant keys <= t.streams.Keys
        invariant forall key | key in t.streams.Keys - keys :: !Matches(t, key, report.originalId.value)
        invariant Reaches(cfg, start, At(t, Searching(report, keys, now)))
        decreases |keys|
      {
        var key :| key in keys;
        ghost var before := At(t, Searching(report, keys, now));
        SearchOne(cfg, t, report, keys, key, now);
        p := store.Load(key);
        if p.Some? && p.value.messageId == report.originalId.value {
          ReachesFurther(cfg, start, before, At(t, Found(report, p, now)));
          return;
        }
        keys := keys - {key};
        ReachesFurther(cfg, start, before, At(t, Searching(report, keys, now)));
      }
      ReachesFurther(cfg, start, At(t, Searching(report, {}, now)), At(t, Polling(now)));
      p := None;
    }

    /**
     * Correlate one received status report by its original message id and advance that payment, as the report's
     * code says. An envelope that cannot be parsed is an error, one that concerns no payment here is not.
     */
    method ApplyAdviceEnvelope(body: Body, now: int)
      returns (r: Result<Option<Payment>, ServiceError>, ghost heard: Option<(Key, Event)>)
      modifies store`streams
      ensures Reaches(cfg, At(old(store.View()), Received(body, now)), At(store.View(), Polling(now)))
      ensures Hears(old(store.View()), body, now, heard)
      ensures heard.None? ==> store.streams == old(store.streams) && r == if body.Unreadable? then Err(Build) else Ok(None)
      ensures heard.Some? ==> AfterAdvice(old(store.View()), heard.value.0, heard.value.1, body.report, now, store.View(), r)
      ensures heard.Some? ==>
        var reply := T.Append(old(store.View()), heard.value.0, heard.value.1);
        store.View() == reply.tables && r.Ok? == reply.outcome.Ok? && (r.Ok? ==> r.value.Some?)
    {
      hide Run, Reaches, T.Load, T.Append, AdviceOf, Usable, AfterAdvice, IsAdvice;
      heard := None;
      ghost var t := store.View();
      ReachesItself(cfg, At(t, Polling(now)));
      if body.Unreadable? {
        return Err(Build), None;
      }
      if !body.Status? || body.report.originalId.None? {
        return Ok(None), None;
      }
      var p := FindByMessageId(body.report, now);
      AdviceIsRecorded(body.report, now);
      var advice := AdviceOf(body.report, now);
      if p.None? || advice.None? {
        return Ok(None), None;
      }
      var outcome := store.Append(p.value.key, advice.value);
      heard := Some((p.value.key, advice.value));
      AdviceApplied(cfg, t, p.value.key, advice.value, now);
      ReachesFurther(cfg, At(t, Received(body, now)), At(t, Correlated(p.value.key, advice.value, now)),
                     At(store.View(), Polling(now)));
      r := match outcome case Ok(updated) => Ok(Some(updated)) case Err(e) => Err(Transition(e));
      AppendsAdvice(t, p.value.key, body.report, now);
    }

    /**
     * Drain the received advices and apply each to its payment, until a poll finds nothing. What cannot be
     * used is skipped and does not stop what is behind it.
     */
    method PumpAdvices(now: int) returns (applied: nat, ghost heard: seq<Option<(Key, Event)>>)
      modifies store`streams, port`inbox
      ensures Reaches(cfg, At(old(store.View()), Polling(now)), At(store.View(), Done))
      ensures HeardInTurn(old(store.View()), old(port.inbox), now, heard)
      ensures |heard| == |old(port.inbox)| || old(port.inbox)[|heard|].None?
      ensures port.inbox == if |heard| == |old(port.inbox)| then [] else old(port.inbox)[|heard| + 1..]
      ensures store.View() == AfterAll(old(store.View()), heard)
      ensures applied == AcceptedOf(old(store.View()), heard)
    {
      hide Run, Reaches, HeardInTurn, Hears, Concerns, T.Append, T.Load, AdviceOf, Received;
      ghost var t, inbox := store.View(), port.inbox;
      applied, heard := 0, [];
      ReachesItself(cfg, At(t, Polling(now)));
      NothingHeard(t, inbox, now);
      var body := port.PollAdvice();
      while body.Some?
        invariant Reaches(cfg, At(t, Polling(now)), At(store.View(), Polling(now)))
        invariant HeardInTurn(t, inbox, now, heard) && store.View() == AfterAll(t, heard)
        invariant applied == AcceptedOf(t, heard)
        invariant |heard| <= |inbox| && port.inbox == (if |heard| == |inbox| then [] else inbox[|heard| + 1..])
        invariant if |heard| == |inbox| then body.None? else body == inbox[|heard|]
        decreases |port.inbox|, body.Some?
      {
        ghost var before := store.View();
        PollReaches(cfg, before, body, now);
        ReachesFurther(cfg, At(t, Polling(now)), At(before, Polling(now)), At(before, Received(body.value, now)));
        var r, one := ApplyAdviceEnvelope(body.value, now);
        ReachesFurther(cfg, At(t, Polling(now)), At(before, Received(body.value, now)), At(store.View(), Polling(now)));
        OneMoreHeard(t, inbox, now, heard, one);
        applied := applied + if r.Ok? && r.value.Some? then 1 else 0;
        heard := heard + [one];
        body := port.PollAdvice();
      }
      PollReaches(cfg, store.View(), None, now);
      ReachesFurther(cfg, At(t, Polling(now)), At(store.View(), Polling(now)), At(store.View(), Done));
    }

    // ------------------------------------------------------------- summary

    /** What an operator needs at a glance. */
    method Summary(now: int) returns (summary: OpsSummary)
      ensures summary.total == |set key | key in store.streams && T.Load(store.View(), key).Some?|
      ensures forall state :: state in summary.byState <==> KeysIn(store.View(), store.streams.Keys, state) != {}
      ensures forall state | state in summary.byState ::
        summary.byState[state] == |set key | key in store.streams && T.Load(store.View(), key).Some?
                                             && T.Load(store.View(), key).value.state == state|
      ensures OldestIs(store.View(), now, summary.oldestUnresolvedAge)
      ensures summary.outboxPending == |Pending(store.outbox)|
    {
      hide T.Load, Sums, UnresolvedAge, OldestIs;
      var keys, total, oldest := store.streams.Keys, 0, None;
      var byState: map<PaymentState, nat> := map[];
      ghost var t := store.View();
      NothingSummed(t, now);
      while keys != {}
        invariant keys <= t.streams.Keys
        invariant Sums(t, t.streams.Keys - keys, now, total, byState, oldest)
        decreases |keys|
      {
        var key :| key in keys;
        SumsOneMore(t, t.streams.Keys - keys, key, now, total, byState, oldest);
        assert t.streams.Keys - (keys - {key}) == t.streams.Keys - keys + {key};
        var loaded := store.Load(key);
        if loaded.Some? {
          total := total + 1;
          byState := Bumped(byState, loaded.value.state);
        }
        oldest := Oldest(oldest, UnresolvedAge(store.View(), key, now));
        keys := keys - {key};
      }
      assert t.streams.Keys - {} == t.streams.Keys;
      SumsSay(t, now, total, byState, oldest);
      var pending := store.UnpublishedCount();
      PendingCounted(store.outbox);
      summary := OpsSummary(total, byState, pending, oldest);
    }

    static lemma NothingSummed(t: T.Tables, now: int)
      ensures Sums(t, t.streams.Keys - t.streams.Keys, now, 0, map[], None)
    {
      assert t.streams.Keys - t.streams.Keys == {};
      assert KeysLoaded(t, {}) == {};
      assert forall s: PaymentState :: KeysIn(t, {}, s) == {};
    }
  }
}
