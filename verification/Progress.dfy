/** What can always still happen: due work gets done, and every decision of the far side can arrive. */
module Progress {
  import opened Wrappers
  import opened Payments
  import opened Histories
  import opened Pacs008
  import opened Requests
  import opened Reconciliation
  import opened Protocol
  import opened Advices
  import opened StoreInvariant
  import opened Interleaving
  import opened Reachability
  import opened Guarantees
  import opened Handoffs
  import opened Witnesses
  import opened Simulators
  import opened Composition
  import opened Journeys
  import opened LateRejections
  import Sequential
  import T = Tables

  // ------------------------------------------------------ due work gets done

  lemma LoadedFolds(t: T.Tables, key: Key)
    requires T.Load(t, key).Some?
    ensures key in t.streams && Replay(t.streams[key]) == Ok(T.Load(t, key).value)
    ensures T.Load(t, key).value.queriesSent == Count(t.streams[key], IsQuery)
  {
    ReplayFolds(t.streams[key]);
  }

  /** A reconcile call, three steps long. */
  function Call(id: nat, key: Key, date: string, now: int): seq<Label> {
    [Start(id, ReconcileCheck(key, date, now)), Step(id, Quiet), Step(id, Quiet)]
  }

  lemma CallRuns(cfg: Config, labels: seq<Label>, id: nat, key: Key, date: string, now: int)
    ensures var call := Call(id, key, date, now);
      Execute(cfg, labels + call) == Next(cfg, Next(cfg, Next(cfg, Execute(cfg, labels), call[0]), call[1]), call[2])
  {
    hide Next, Execute;
    var call := Call(id, key, date, now);
    Sequential.ExecuteExtends(cfg, labels, call[0]);
    Sequential.ExecuteExtends(cfg, labels + [call[0]], call[1]);
    Sequential.ExecuteExtends(cfg, labels + [call[0]] + [call[1]], call[2]);
    assert labels + call == labels + [call[0]] + [call[1]] + [call[2]];
  }

  /** The three steps, from any world in which the call may start. */
  lemma CallActs(cfg: Config, w: World, id: nat, key: Key, p: Payment, date: string, now: int)
    requires CanStart(cfg, w, id, ReconcileCheck(key, date, now)) && T.Load(w.db, key) == Some(p)
    ensures var call := Call(id, key, date, now);
      var w' := Next(cfg, Next(cfg, Next(cfg, w, call[0]), call[1]), call[2]);
      match NextAction(p, now, cfg.timeoutSecs, cfg.backoffSecs)
      case Rest => w'.db == w.db && w'.trace == w.trace
      case DeclareTimeout => w'.db == T.Append(w.db, key, TimeoutDeclared(now)).tables && w'.trace == w.trace
      case SendQuery =>
        var reply := T.Append(w.db, key, QuerySent(now));
        reply.outcome.Ok? ==>
          w'.db == reply.tables && w'.trace == w.trace + [Queried(key, reply.outcome.value.queriesSent, date)]
  {
    hide T.Load, T.Append, NextAction, CanStart, SubmitStep, DrainStep, PumpStep, HoldStep;
    var call := Call(id, key, date, now);
    var w1 := Next(cfg, w, call[0]);
    assert w1 == w.(tasks := w.tasks[id := ReconcileCheck(key, date, now)]);
    var w2 := Next(cfg, w1, call[1]);
    assert w2.db == w.db && w2.trace == w.trace + [] == w.trace;
  }

  /** Whenever a query is due and a reconcile call may start, the call records and sends it, as the next in number. */
  lemma DueQueryIsSent(cfg: Config, labels: seq<Label>, id: nat, key: Key, date: string, now: int)
    requires CanStart(cfg, Execute(cfg, labels), id, ReconcileCheck(key, date, now))
    requires Reachable(cfg, labels, key) && Stands(Execute(cfg, labels).db, key, PaymentState.TimeoutUnresolved)
    requires QueryIsDue(Execute(cfg, labels).db.streams[key], now, cfg.backoffSecs)
    ensures var w, w' := Execute(cfg, labels), Execute(cfg, labels + Call(id, key, date, now));
      && w'.db == w.db.(streams := w.db.streams[key := w.db.streams[key] + [QuerySent(now)]])
      && w'.trace == w.trace + [Queried(key, Count(w.db.streams[key], IsQuery) + 1, date)]
  {
    hide Execute, T.Load, T.Append, NextAction, CanStart, Next, QueryIsDue, TimeoutDue, Replay;
    var w := Execute(cfg, labels);
    var p := T.Load(w.db, key).value;
    LoadedFolds(w.db, key);
    ActionByHistory(w.db.streams[key], now, cfg.timeoutSecs, cfg.backoffSecs);
    CallRuns(cfg, labels, id, key, date, now);
    CallActs(cfg, w, id, key, p, date, now);
    AppendMoves(w.db, key, p, QuerySent(now));
  }

  /** Whenever a timeout is due and a reconcile call may start, the call declares it. */
  lemma DueTimeoutIsDeclared(cfg: Config, labels: seq<Label>, id: nat, key: Key, date: string, now: int)
    requires CanStart(cfg, Execute(cfg, labels), id, ReconcileCheck(key, date, now))
    requires Reachable(cfg, labels, key) && Stands(Execute(cfg, labels).db, key, PaymentState.AckPending)
    requires TimeoutDue(Execute(cfg, labels).db.streams[key], now, cfg.timeoutSecs)
    ensures var w, w' := Execute(cfg, labels), Execute(cfg, labels + Call(id, key, date, now));
      && w'.db == w.db.(streams := w.db.streams[key := w.db.streams[key] + [TimeoutDeclared(now)]])
      && Stands(w'.db, key, PaymentState.TimeoutUnresolved)
  {
    hide Execute, T.Load, T.Append, NextAction, CanStart, Next, QueryIsDue, TimeoutDue, Replay;
    var w := Execute(cfg, labels);
    var p := T.Load(w.db, key).value;
    LoadedFolds(w.db, key);
    ActionByHistory(w.db.streams[key], now, cfg.timeoutSecs, cfg.backoffSecs);
    CallRuns(cfg, labels, id, key, date, now);
    CallActs(cfg, w, id, key, p, date, now);
    AppendMoves(w.db, key, p, TimeoutDeclared(now));
  }

  // --------------------------------------------- every decision can arrive

  /** The payment ended as decided: with the first status the far side gives, and its reason when that is a rejection. */
  ghost predicate EndsAsDecided(q: Payment, verdict: Scenario) {
    match verdict
    case Settle | Timeout | Delay(_) => q.state.Settled? && q.lastAdvice == Some(Acsc)
    case AcceptWithoutPosting | AcwpThen(_) => q.state.Settled? && q.lastAdvice == Some(Acwp)
    case Reject(code) => q.state.Rejected? && q.lastAdvice == Some(Rjct) && q.rejectionReason == Some(code)
    case RejectService(code) => q.state.Rejected? && q.lastAdvice == Some(Rjct) && q.rejectionReason == Some(code)
  }

  /** Whoever hears the far side's first advice while waiting ends as decided. */
  lemma FirstAdviceDecides(p: Payment, verdict: Scenario, id: string, now: int, q: Payment)
    requires Waiting(p.state)
    ensures Usable(FirstAdvice(verdict, id)) && FirstAdvice(verdict, id).originalId == Some(id)
    ensures Takes(p, FirstAdvice(verdict, id), now, q) ==> EndsAsDecided(q, verdict)
  {
  }

  /** What a first transfer leaves behind: in the reply, in the queue, in the delayed pushes or in the ledger only. */
  lemma FirstTransfer(cfg: Config, far: Far, doc: Document)
    requires doc.transactions != []
    ensures var verdict, id := Verdict(cfg, far, doc), doc.header.messageId;
      var first := FirstAdvice(verdict, id);
      var (n, answer) := Transferred(cfg, far, Initially(far).node, doc);
      && n.scenarios == far.scenarios
      && (answer == if far.http && !verdict.Timeout? then Advice(Status(first)) else Accepted)
      && (verdict.Timeout? ==> LatestIs(n, id, first) && QueueOf(n, far.participant) == [])
      && (!far.http && verdict.Delay? ==> QueueOf(n, far.participant) == [] && n.delayed == [Push(far.participant, first)])
      && (!far.http && !verdict.Timeout? && !verdict.Delay? ==> QueueOf(n, far.participant) == [first])
  {
  }

  /** The advice that came with the confirmation is applied. */
  lemma TakesReply(cfg: Config, far: Far, s: System, key: Key, p: Payment, now: int, report: Report)
    returns (s': System, q: Payment)
    requires CanGetTo(cfg, far, [], s) && s.w.tasks.Keys == {0} && AdviceOf(report, now).Some?
    requires s.w.tasks[0] == Advising(key, AdviceOf(report, now).value, now, Some(key))
    requires T.Load(s.w.db, key) == Some(p) && Waiting(p.state) && Usable(report)
    ensures CanGetTo(cfg, far, [], s') && s'.w.requests == s.w.requests
    ensures T.Load(s'.w.db, key) == Some(q) && Takes(p, report, now, q)
  {
    hide T.Load, T.Append, CanGetTo, Next, Applied, AdviceOf, Usable, Takes;
    var e := AdviceOf(report, now).value;
    AdviceMoves(p, report, now);
    AppendMoves(s.w.db, key, p, e);
    s' := Hopped(cfg, far, s, Own(Step(0, Quiet)));
    Further(cfg, far, [], s, Own(Step(0, Quiet)));
    AdviceRecorded(cfg, s.w, 0, s.w.tasks[0], key, e);
    q := Applied(p, e).value;
  }

  /** Silence is broken by a query: at once over HTTP, by the next poll over the queue pair. */
  lemma IsQueried(cfg: Config, far: Far, s: System, key: Key, p: Payment, now: int, report: Report)
    returns (s': System, q: Payment, unresolved: Payment)
    requires CanGetTo(cfg, far, [], s) && s.w.tasks.Keys == {0} && !Holds(s.w.tasks[0]) && Reconciling(s.w.tasks[0]).None?
    requires T.Load(s.w.db, key) == Some(p) && p.state.AckPending? && p.key == key && p.lastQueryAt.None?
    requires p.publishedAt.Some? && now - p.publishedAt.value >= cfg.timeoutSecs
    requires LatestIs(s.node, p.messageId, report) && (!far.http ==> QueueOf(s.node, far.participant) == [])
    requires Usable(report) && report.originalId == Some(p.messageId)
    ensures CanGetTo(cfg, far, [], s') && s'.w.requests == s.w.requests
    ensures T.Load(s'.w.db, key) == Some(q) && Waiting(unresolved.state) && Takes(unresolved, report, now, q)
  {
    hide T.Load, CanGetTo, Leads, Next, Usable, Takes, MqReceive, LatestIs;
    var w1, overdue := Declares(cfg, s.w, 1, key, p, "", now);
    Onward(cfg, far, [], s, w1);
    var w2, queried := Queries(cfg, w1, 2, key, overdue, "", now);
    Onward(cfg, far, [], s.(w := w1), w2);
    var s2 := s.(w := w2);
    unresolved := queried;
    if far.http {
      s', q := HearsLatest(cfg, far, [], s2, 2, key, queried, now, report);
    } else {
      var s3 := Hopped(cfg, far, s2, QueryArrives(key, true));
      Further(cfg, far, [], s2, QueryArrives(key, true));
      LatestIsQueued(s2.node, far.participant, queried.messageId, report);
      assert s3.w == s2.w;
      s', q := IsPumped(cfg, far, s3, 3, key, queried, now, report);
    }
  }

  lemma LatestIsQueued(n: Node, participant: string, id: string, report: Report)
    requires LatestIs(n, id, report) && QueueOf(n, participant) == []
    ensures MqReceive(MqQuery(n, participant, true, id).0, participant).1 == Some(report)
  {
  }

  /** A delayed advice arrives once its delay is over. */
  lemma IsPushed(cfg: Config, far: Far, s: System, key: Key, p: Payment, now: int, report: Report)
    returns (s': System, q: Payment)
    requires !far.http && CanGetTo(cfg, far, [], s) && s.w.tasks.Keys == {0} && !Holds(s.w.tasks[0])
    requires T.Load(s.w.db, key) == Some(p) && Waiting(p.state) && p.key == key
    requires QueueOf(s.node, far.participant) == [] && s.node.delayed == [Push(far.participant, report)]
    requires Usable(report) && report.originalId == Some(p.messageId)
    ensures CanGetTo(cfg, far, [], s') && s'.w.requests == s.w.requests
    ensures T.Load(s'.w.db, key) == Some(q) && Takes(p, report, now, q)
  {
    hide T.Load, CanGetTo, Next, Usable, Takes;
    var s1 := Hopped(cfg, far, s, Pushes(0));
    Further(cfg, far, [], s, Pushes(0));
    s', q := IsPumped(cfg, far, s1, 1, key, p, now, report);
  }

  /** Every clean request can be published, with the far side's reply at hand. */
  lemma IsPublished(cfg: Config, far: Far, req: SubmitRequest, isDateTime: string -> bool)
    returns (s: System, p: Payment)
    requires BuildsPacs008(cfg, isDateTime) && cfg.clean(cfg.build(req))
    ensures cfg.build(req).transactions != []
    ensures var (n, answer) := Transferred(cfg, far, Initially(far).node, cfg.build(req));
      && CanGetTo(cfg, far, [], s) && s.w.requests == map[req.key := req] && s.node == n
      && s.w.tasks.Keys == {0} && !Holds(s.w.tasks[0]) && Reconciling(s.w.tasks[0]).None?
      && (AdviceIn(answer, 0).Some? ==> s.w.tasks[0] == Advising(req.key, AdviceIn(answer, 0).value, 0, Some(req.key)))
    ensures T.Load(s.w.db, req.key) == Some(p) && p.state.AckPending? && p.publishedAt == Some(0)
    ensures p.messageId == cfg.build(req).header.messageId && p.lastQueryAt.None? && p.key == req.key
  {
    hide T.Load, CanGetTo, Unfold, Verdict, BuildsPacs008, Hopped, Leads, Reached, Transferred, AdviceIn;
    var entry := QueuedFor(cfg, req);
    BuiltMessage(cfg, isDateTime, req);
    var answer := Transferred(cfg, far, Initially(far).node, entry.message).1;
    assert answer.Advice? || answer.Accepted? by { FirstTransfer(cfg, far, cfg.build(req)); }
    var w, submitted := Sends(cfg, req, 0);
    Here(cfg, far, []);
    UnfoldsToStart(cfg, far);
    Onward(cfg, far, [], Initially(far), w);
    s := IsProcessed(cfg, far, Initially(far).(w := w), entry, 0, Some(req.key));
    LoadReadsStreams(s.w.db, w.db, req.key);
    var w', published := Waits(cfg, s.w, entry, answer, 0, submitted);
    Onward(cfg, far, [], s, w');
    s, p := s.(w := w'), published;
  }

  /**
   * Over HTTP or the queue pair, gated or not: for every clean request some run ends it as the far side
   * decides, whether the advice comes with the reply, by a poll, after a delay, or only when asked for.
   */
  lemma EveryDecisionIsReached(cfg: Config, far: Far, req: SubmitRequest, isDateTime: string -> bool)
    returns (s: System, q: Payment)
    requires BuildsPacs008(cfg, isDateTime) && cfg.clean(cfg.build(req))
    ensures cfg.build(req).transactions != []
    ensures CanGetTo(cfg, far, [], s) && s.w.requests == map[req.key := req]
    ensures T.Load(s.w.db, req.key) == Some(q) && EndsAsDecided(q, Verdict(cfg, far, cfg.build(req)))
  {
    hide T.Load, CanGetTo, Verdict, BuildsPacs008, Transferred, Takes, Usable, EndsAsDecided, FirstAdvice, LatestIs, QueueOf,
         AdviceOf;
    var later := if cfg.timeoutSecs > 0 then cfg.timeoutSecs else 0;
    var published, p := IsPublished(cfg, far, req, isDateTime);
    var doc := cfg.build(req);
    var verdict, id := Verdict(cfg, far, doc), doc.header.messageId;
    var first := FirstAdvice(verdict, id);
    FirstTransfer(cfg, far, doc);
    FirstAdviceDecides(p, verdict, id, 0, p);
    AdviceIsRecorded(first, 0);
    if verdict.Timeout? {
      var end, ended, unresolved := IsQueried(cfg, far, published, req.key, p, later, first);
      FirstAdviceDecides(unresolved, verdict, id, later, ended);
      s, q := end, ended;
    } else if far.http {
      var end, ended := TakesReply(cfg, far, published, req.key, p, 0, first);
      FirstAdviceDecides(p, verdict, id, 0, ended);
      s, q := end, ended;
    } else if verdict.Delay? {
      var end, ended := IsPushed(cfg, far, published, req.key, p, 0, first);
      FirstAdviceDecides(p, verdict, id, 0, ended);
      s, q := end, ended;
    } else {
      OldestIsReceived(published.node, far.participant, first);
      var end, ended := IsPumped(cfg, far, published, 1, req.key, p, 0, first);
      FirstAdviceDecides(p, verdict, id, 0, ended);
      s, q := end, ended;
    }
  }

  lemma OldestIsReceived(n: Node, participant: string, report: Report)
    requires QueueOf(n, participant) == [report]
    ensures MqReceive(n, participant).1 == Some(report)
  {
  }

  // ------------------------------------------------------------- exactly

  /** Some run with distinct message ids leaves the request in this state. */
  ghost predicate CanEnd(cfg: Config, far: Far, req: SubmitRequest, state: PaymentState) {
    exists hops :: EndsIn(cfg, far, Unfold(cfg, far, hops).w, req, state)
  }

  ghost predicate EndsIn(cfg: Config, far: Far, w: World, req: SubmitRequest, state: PaymentState) {
    && req.key in w.requests && w.requests[req.key] == req && DistinctIds(cfg, w.requests)
    && Stands(w.db, req.key, state)
  }

  /** A request that ended settled or rejected was clean, and decided so. */
  lemma OnlyAsDecided(cfg: Config, far: Far, isDateTime: string -> bool, hops: seq<Hop>, req: SubmitRequest,
          state: PaymentState)
    requires BuildsPacs008(cfg, isDateTime) && EndsIn(cfg, far, Unfold(cfg, far, hops).w, req, state)
    requires state.Settled? || state.Rejected?
    ensures cfg.clean(cfg.build(req)) && cfg.build(req).transactions != []
    ensures var verdict := Verdict(cfg, far, cfg.build(req));
      if state.Settled? then Settles(verdict) else Rejects(verdict) || verdict == AcwpThen("RJCT")
  {
    hide Unfold, TablesOk, TraceOk, NoRepeats, TasksOk, Replay, StreamOk, Verdict, DistinctIds, BuildsPacs008, T.Load;
    var w := Unfold(cfg, far, hops).w;
    EveryUnfolding(cfg, far, isDateTime, hops);
    SameKeys(cfg, w.db, w.requests);
    FarSideAgrees(cfg, far, isDateTime, hops, req.key);
    KnownStream(cfg, w.db, w.requests, req.key);
    WireHistory(cfg, req, w.db.streams[req.key]);
  }

  lemma EndsOnlyAsDecided(cfg: Config, far: Far, isDateTime: string -> bool, req: SubmitRequest, state: PaymentState)
    requires BuildsPacs008(cfg, isDateTime) && CanEnd(cfg, far, req, state) && (state.Settled? || state.Rejected?)
    ensures cfg.clean(cfg.build(req)) && cfg.build(req).transactions != []
    ensures var verdict := Verdict(cfg, far, cfg.build(req));
      if state.Settled? then Settles(verdict) else Rejects(verdict) || verdict == AcwpThen("RJCT")
  {
    hide Unfold, EndsIn, Verdict, BuildsPacs008;
    var hops :| EndsIn(cfg, far, Unfold(cfg, far, hops).w, req, state);
    OnlyAsDecided(cfg, far, isDateTime, hops, req, state);
  }

  lemma ReachedEnd(cfg: Config, far: Far, s: System, req: SubmitRequest, state: PaymentState)
    requires CanGetTo(cfg, far, [], s) && s.w.requests == map[req.key := req] && Stands(s.w.db, req.key, state)
    ensures CanEnd(cfg, far, req, state)
  {
    hide Unfold, CanGetTo, Stands;
    var hops := GetsThere(cfg, far, s);
    assert EndsIn(cfg, far, Unfold(cfg, far, hops).w, req, state);
  }

  /**
   * A request can end settled exactly when it is clean and the far side settles it, and rejected exactly when
   * it is clean and the far side rejects it, at once or later.
   */
  lemma EndsExactly(cfg: Config, far: Far, isDateTime: string -> bool, req: SubmitRequest)
    requires BuildsPacs008(cfg, isDateTime)
    ensures cfg.build(req).transactions != []
    ensures var verdict, clean := Verdict(cfg, far, cfg.build(req)), cfg.clean(cfg.build(req));
      && (CanEnd(cfg, far, req, PaymentState.Settled) <==> clean && Settles(verdict))
      && (CanEnd(cfg, far, req, PaymentState.Rejected) <==> clean && (Rejects(verdict) || verdict == AcwpThen("RJCT")))
  {
    hide CanEnd, Verdict, CanGetTo, BuildsPacs008, T.Load;
    BuiltMessage(cfg, isDateTime, req);
    if CanEnd(cfg, far, req, PaymentState.Settled) {
      EndsOnlyAsDecided(cfg, far, isDateTime, req, PaymentState.Settled);
    }
    if CanEnd(cfg, far, req, PaymentState.Rejected) {
      EndsOnlyAsDecided(cfg, far, isDateTime, req, PaymentState.Rejected);
    }
    if cfg.clean(cfg.build(req)) {
      var s, q := EveryDecisionIsReached(cfg, far, req, isDateTime);
      ReachedEnd(cfg, far, s, req, q.state);
      if Verdict(cfg, far, cfg.build(req)) == AcwpThen("RJCT") {
        var late := LateRejectionHappens(cfg, far, req, isDateTime);
        ReachedEnd(cfg, far, late, req, PaymentState.Rejected);
      }
    }
  }
}
