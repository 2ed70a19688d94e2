/** Runs from the empty store, for every clean request: the worlds that the limits and late rejections start from. */
module Witnesses {
  import opened Wrappers
  import opened Payments
  import opened Requests
  import opened Reconciliation
  import opened RiskGates
  import opened Protocol
  import opened StoreInvariant
  import opened Interleaving
  import opened Reachability
  import opened Handoffs
  import opened Limits
  import opened Losses
  import Sequential
  import T = Tables

  // ------------------------------------------------------------ going on

  function Led(cfg: Config, w: World, labels: seq<Label>): World
    decreases |labels|
  {
    if labels == [] then w else Next(cfg, Led(cfg, w, labels[..|labels| - 1]), labels[|labels| - 1])
  }

  /** Told nothing by the port, without a crash, one drain at a time. */
  ghost predicate Calm(cfg: Config, w: World, labels: seq<Label>) {
    && (forall n | 0 <= n <= |labels| :: OneHolder(Led(cfg, w, labels[..n]).tasks))
    && (forall action | action in labels :: Silent(action) && !action.Crash?)
  }

  /** Calm steps lead from one world to the other. */
  ghost predicate Leads(cfg: Config, w: World, w': World) {
    exists labels :: Calm(cfg, w, labels) && Led(cfg, w, labels) == w'
  }

  lemma LeadsHere(cfg: Config, w: World)
    requires OneHolder(w.tasks)
    ensures Leads(cfg, w, w)
  {
    assert Calm(cfg, w, []) && Led(cfg, w, []) == w;
  }

  lemma LeadsNext(cfg: Config, w: World, w': World, action: Label)
    requires Leads(cfg, w, w') && Silent(action) && !action.Crash?
    requires OneHolder(Next(cfg, w', action).tasks)
    ensures Leads(cfg, w, Next(cfg, w', action))
  {
    hide Next, OneHolder;
    var labels :| Calm(cfg, w, labels) && Led(cfg, w, labels) == w';
    var more := labels + [action];
    assert more[..|labels|] == labels;
    forall n | 0 <= n <= |more|
      ensures OneHolder(Led(cfg, w, more[..n]).tasks)
    {
      if n <= |labels| {
        assert more[..n] == labels[..n];
      } else {
        assert more[..n] == more;
      }
    }
    assert Calm(cfg, w, more) && Led(cfg, w, more) == Next(cfg, w', action);
  }

  lemma CalmFront(cfg: Config, w: World, labels: seq<Label>)
    requires Calm(cfg, w, labels) && labels != []
    ensures Calm(cfg, w, labels[..|labels| - 1])
    ensures OneHolder(Led(cfg, w, labels).tasks)
  {
    hide OneHolder;
    var front := labels[..|labels| - 1];
    assert labels[..|labels|] == labels;
    forall n | 0 <= n <= |front|
      ensures OneHolder(Led(cfg, w, front[..n]).tasks)
    {
      assert front[..n] == labels[..n];
    }
  }

  /** Some run from the empty store ends here: with drains one at a time, or without a crash, or both. */
  ghost predicate Reached(cfg: Config, w: World, exclusive: bool, crashless: bool) {
    exists labels :: ReachedBy(cfg, labels, w, exclusive, crashless)
  }

  ghost predicate ReachedBy(cfg: Config, labels: seq<Label>, w: World, exclusive: bool, crashless: bool) {
    && Execute(cfg, labels) == w
    && (exclusive ==> Exclusive(cfg, labels))
    && (crashless ==> forall action | action in labels :: !action.Crash?)
  }

  lemma ReachedStart(cfg: Config)
    ensures Reached(cfg, START, true, true)
  {
    assert ReachedBy(cfg, [], START, true, true);
  }

  lemma ReachedNext(cfg: Config, w: World, exclusive: bool, crashless: bool, action: Label)
    requires Reached(cfg, w, exclusive, crashless)
    requires exclusive ==> OneHolder(Next(cfg, w, action).tasks)
    requires crashless ==> !action.Crash?
    ensures Reached(cfg, Next(cfg, w, action), exclusive, crashless)
  {
    hide Execute, Next, Exclusive, OneHolder;
    var labels :| ReachedBy(cfg, labels, w, exclusive, crashless);
    Sequential.ExecuteExtends(cfg, labels, action);
    if exclusive {
      ExclusiveExtends(cfg, labels, action);
    }
    assert ReachedBy(cfg, labels + [action], Next(cfg, w, action), exclusive, crashless);
  }

  lemma ReachedWeaker(cfg: Config, w: World, exclusive: bool, crashless: bool)
    requires Reached(cfg, w, true, true)
    ensures Reached(cfg, w, exclusive, crashless)
  {
    hide Execute, Exclusive;
    var labels :| ReachedBy(cfg, labels, w, true, true);
    assert ReachedBy(cfg, labels, w, exclusive, crashless);
  }

  lemma ReachedOnward(cfg: Config, w: World, w': World, exclusive: bool, crashless: bool)
    requires Reached(cfg, w, exclusive, crashless) && Leads(cfg, w, w')
    ensures Reached(cfg, w', exclusive, crashless)
  {
    hide Reached, Led, Calm;
    var labels :| Calm(cfg, w, labels) && Led(cfg, w, labels) == w';
    ReachedAlong(cfg, w, labels, exclusive, crashless);
  }

  lemma {:induction false} ReachedAlong(cfg: Config, w: World, labels: seq<Label>, exclusive: bool, crashless: bool)
    requires Reached(cfg, w, exclusive, crashless) && Calm(cfg, w, labels)
    ensures Reached(cfg, Led(cfg, w, labels), exclusive, crashless)
    decreases |labels|
  {
    hide Reached, Next, OneHolder;
    if labels != [] {
      CalmFront(cfg, w, labels);
      ReachedAlong(cfg, w, labels[..|labels| - 1], exclusive, crashless);
      ReachedNext(cfg, Led(cfg, w, labels[..|labels| - 1]), exclusive, crashless, labels[|labels| - 1]);
    }
  }

  // ------------------------------------------------- the store, read back

  /** Appending to a payment on record applies the event to it. */
  lemma AppendMoves(t: T.Tables, key: Key, p: Payment, e: Event)
    requires T.Load(t, key) == Some(p) && Applied(p, e).Ok?
    ensures T.Append(t, key, e).outcome == Applied(p, e)
    ensures T.Load(T.Append(t, key, e).tables, key) == Some(Applied(p, e).value)
    ensures key in t.streams
    ensures T.Append(t, key, e).tables == t.(streams := t.streams[key := t.streams[key] + [e]])
  {
    hide Applied;
    ReplayExtends(t.streams[key], e);
  }

  lemma LoadsCreation(t: T.Tables, key: Key, created: Event)
    requires key in t.streams && t.streams[key] == [created] && created.Created?
    ensures T.Load(t, key) == Some(New(created).value)
  {
  }

  lemma LoadReadsStreams(t: T.Tables, t': T.Tables, key: Key)
    requires t.streams == t'.streams
    ensures T.Load(t, key) == T.Load(t', key)
  {
  }

  // ----------------------------------------------------- from the empty store

  /** A first submission is created and validated. */
  lemma Validates(cfg: Config, req: SubmitRequest, now: int) returns (w: World, p: Payment)
    requires cfg.clean(cfg.build(req))
    ensures Leads(cfg, START, w)
    ensures w.tasks == map[0 := if cfg.gated then Checking(req, now) else Submitting(req, now)]
    ensures w.requests == map[req.key := req] && w.db.outbox == [] && w.db.nextId == 0
    ensures T.Load(w.db, req.key) == Some(p) && p.state.Validated? && p.riskOutcome.None?
    ensures p.messageId == MessageIdOf(cfg.sender, req) && p.lastQueryAt.None? && p.key == req.key
  {
    hide T.Load, T.Append, Leads, InDrain, InPump, InHold, InReconcile;
    var created, validated := CreationOf(cfg, req, now), Event.Validated(now);
    LeadsHere(cfg, START);
    var w1 := Next(cfg, START, Start(0, Creating(req, now)));
    LeadsNext(cfg, START, START, Start(0, Creating(req, now)));
    var w2 := Next(cfg, w1, Step(0, Quiet));
    assert w2.db == T.EMPTY.(streams := map[req.key := [created]]);
    assert w2.tasks == map[0 := Validating(req, now)];
    LeadsNext(cfg, START, w1, Step(0, Quiet));
    LoadsCreation(w2.db, req.key, created);
    AppendMoves(w2.db, req.key, New(created).value, validated);
    w := Next(cfg, w2, Step(0, Quiet));
    assert w.tasks == map[0 := if cfg.gated then Checking(req, now) else Submitting(req, now)];
    LeadsNext(cfg, START, w2, Step(0, Quiet));
    p := Applied(New(created).value, validated).value;
  }

  /** The gate, when there is one, clears it. */
  lemma Clears(cfg: Config, w: World, req: SubmitRequest, now: int, p: Payment) returns (w': World, q: Payment)
    requires w.tasks == map[0 := Checking(req, now)] && T.Load(w.db, req.key) == Some(p)
    requires p.state.Validated? && p.riskOutcome.None?
    ensures Leads(cfg, w, w') && w'.tasks == map[0 := Submitting(req, now)] && w'.requests == w.requests
    ensures w'.db.outbox == w.db.outbox && w'.db.nextId == w.db.nextId
    ensures T.Load(w'.db, req.key) == Some(q) && q.state.Validated?
    ensures q.messageId == p.messageId && q.lastQueryAt == p.lastQueryAt && q.key == p.key
  {
    hide T.Load, T.Append, Leads;
    var oracle, verdict := Oracle.Gate(Decided(Clear), 0), VerdictOf(cfg.policy, Decided(Clear), 0);
    LeadsHere(cfg, w);
    var w1 := Next(cfg, w, Step(0, oracle));
    assert w1.tasks == map[0 := Recording(req, now, verdict)] && w1.db == w.db;
    LeadsNext(cfg, w, w, Step(0, oracle));
    AppendMoves(w1.db, req.key, p, CheckEvent(verdict, now));
    w' := Next(cfg, w1, Step(0, Quiet));
    assert w'.tasks == map[0 := Submitting(req, now)];
    LeadsNext(cfg, w, w1, Step(0, Quiet));
    q := Applied(p, CheckEvent(verdict, now)).value;
  }

  /** Its message is queued and picked up. */
  lemma PicksUp(cfg: Config, w: World, req: SubmitRequest, now: int, p: Payment) returns (w': World, q: Payment)
    requires w.tasks == map[0 := Submitting(req, now)] && w.db.outbox == [] && w.db.nextId == 0
    requires T.Load(w.db, req.key) == Some(p) && p.state.Validated?
    ensures Leads(cfg, w, w') && w'.requests == w.requests && w'.db.outbox == [QueuedFor(cfg, req)]
    ensures w'.tasks == map[0 := Sending(QueuedFor(cfg, req), now, Some(req.key))]
    ensures T.Load(w'.db, req.key) == Some(q) && q.state.Submitted?
    ensures q.messageId == p.messageId && q.lastQueryAt == p.lastQueryAt && q.key == p.key
  {
    hide T.Load, T.Append, Leads, PumpStep, HoldStep, ReconcileStep;
    var e, entry := Event.Submitted(now), QueuedFor(cfg, req);
    LeadsHere(cfg, w);
    AppendMoves(w.db, req.key, p, e);
    var w1 := Next(cfg, w, Step(0, Quiet));
    var appended := T.Append(w.db, req.key, e).tables;
    assert w1.db == T.Enqueued(appended, req.key, cfg.build(req));
    assert w1.tasks == map[0 := Draining(now, Some(req.key))];
    LeadsNext(cfg, w, w, Step(0, Quiet));
    LoadReadsStreams(w1.db, appended, req.key);
    w' := Next(cfg, w1, Step(0, Quiet));
    assert T.NextUnpublished(w1.db) == Some(entry);
    assert w'.tasks == map[0 := Sending(entry, now, Some(req.key))];
    LeadsNext(cfg, w, w1, Step(0, Quiet));
    q := Applied(p, e).value;
  }

  /** The first entry ever queued. */
  function QueuedFor(cfg: Config, req: SubmitRequest): T.Entry { T.Entry(0, req.key, cfg.build(req), false) }

  /** Every clean request can be on its way to the port, alone. */
  lemma Sends(cfg: Config, req: SubmitRequest, now: int) returns (w: World, p: Payment)
    requires cfg.clean(cfg.build(req))
    ensures Reached(cfg, w, true, true) && Leads(cfg, START, w)
    ensures w.requests == map[req.key := req] && w.db.outbox == [QueuedFor(cfg, req)]
    ensures w.tasks == map[0 := Sending(QueuedFor(cfg, req), now, Some(req.key))]
    ensures T.Load(w.db, req.key) == Some(p) && p.state.Submitted?
    ensures p.messageId == MessageIdOf(cfg.sender, req) && p.lastQueryAt.None? && p.key == req.key
  {
    hide T.Load, Leads, Reached;
    var w1, p1 := Validates(cfg, req, now);
    if cfg.gated {
      var w2, p2 := Clears(cfg, w1, req, now, p1);
      LeadsFurther(cfg, START, w1, w2);
      w, p := PicksUp(cfg, w2, req, now, p2);
      LeadsFurther(cfg, START, w2, w);
    } else {
      w, p := PicksUp(cfg, w1, req, now, p1);
      LeadsFurther(cfg, START, w1, w);
    }
    ReachedStart(cfg);
    ReachedOnward(cfg, START, w, true, true);
  }

  lemma LeadsFurther(cfg: Config, a: World, b: World, c: World)
    requires Leads(cfg, a, b) && Leads(cfg, b, c)
    ensures Leads(cfg, a, c)
  {
    hide Led, Calm, Leads;
    var labels :| Calm(cfg, b, labels) && Led(cfg, b, labels) == c by { LeadsBy(cfg, b, c); }
    LeadsAlong(cfg, a, b, labels);
  }

  lemma LeadsBy(cfg: Config, w: World, w': World)
    requires Leads(cfg, w, w')
    ensures exists labels :: Calm(cfg, w, labels) && Led(cfg, w, labels) == w'
  {
    hide Led, Calm;
  }

  lemma {:induction false} LeadsAlong(cfg: Config, a: World, b: World, labels: seq<Label>)
    requires Leads(cfg, a, b) && Calm(cfg, b, labels)
    ensures Leads(cfg, a, Led(cfg, b, labels))
    decreases |labels|
  {
    hide Leads, Next, OneHolder;
    if labels != [] {
      CalmFront(cfg, b, labels);
      LeadsAlong(cfg, a, b, labels[..|labels| - 1]);
      LeadsNext(cfg, a, Led(cfg, b, labels[..|labels| - 1]), labels[|labels| - 1]);
    }
  }

  /** After a confirmation the entry is marked. */
  lemma Marks(cfg: Config, w: World, entry: T.Entry, answer: PortAnswer, now: int) returns (w': World)
    requires w.db.outbox == [entry] && entry.id == 0
    requires w.tasks == map[0 := Acknowledging(entry, answer, now, Some(entry.key))]
    ensures Leads(cfg, w, w') && w'.requests == w.requests && w'.db.streams == w.db.streams
    ensures w'.tasks == map[0 := Publishing(entry, answer, now, Some(entry.key))]
  {
    hide Leads, AdviceIn, SubmitStep, PumpStep, HoldStep, ReconcileStep;
    LeadsHere(cfg, w);
    w' := Next(cfg, w, Step(0, Quiet));
    assert w'.tasks == map[0 := Publishing(entry, answer, now, Some(entry.key))];
    LeadsNext(cfg, w, w, Step(0, Quiet));
  }

  /** And the publication is recorded. The advice, if one came, is not yet. */
  lemma Publishes(cfg: Config, w: World, entry: T.Entry, answer: PortAnswer, now: int, p: Payment)
    returns (w': World, q: Payment)
    requires w.tasks == map[0 := Publishing(entry, answer, now, Some(entry.key))]
    requires T.Load(w.db, entry.key) == Some(p) && p.state.Submitted?
    ensures Leads(cfg, w, w') && w'.requests == w.requests
    ensures w'.tasks.Keys == {0} && !Holds(w'.tasks[0]) && Reconciling(w'.tasks[0]).None?
    ensures var advice := AdviceIn(answer, now);
      w'.tasks[0] == if advice.Some? then Advising(entry.key, advice.value, now, Some(entry.key)) else Draining(now, Some(entry.key))
    ensures T.Load(w'.db, entry.key) == Some(q) && q.state.AckPending? && q.publishedAt == Some(now)
    ensures q.messageId == p.messageId && q.lastQueryAt == p.lastQueryAt && q.key == p.key
  {
    hide T.Load, T.Append, Leads, AdviceIn, SubmitStep, PumpStep, HoldStep, ReconcileStep;
    LeadsHere(cfg, w);
    AppendMoves(w.db, entry.key, p, Published(now));
    w' := Next(cfg, w, Step(0, Quiet));
    assert w'.tasks.Keys == {0};
    LeadsNext(cfg, w, w, Step(0, Quiet));
    q := Applied(p, Published(now)).value;
  }

  /** Every clean request can be published and then hear nothing. */
  lemma Waits(cfg: Config, w: World, entry: T.Entry, answer: PortAnswer, now: int, p: Payment)
    returns (w': World, q: Payment)
    requires w.db.outbox == [entry] && entry.id == 0
    requires w.tasks == map[0 := Acknowledging(entry, answer, now, Some(entry.key))]
    requires T.Load(w.db, entry.key) == Some(p) && p.state.Submitted?
    ensures Leads(cfg, w, w') && w'.requests == w.requests
    ensures w'.tasks.Keys == {0} && !Holds(w'.tasks[0]) && Reconciling(w'.tasks[0]).None?
    ensures var advice := AdviceIn(answer, now);
      w'.tasks[0] == if advice.Some? then Advising(entry.key, advice.value, now, Some(entry.key)) else Draining(now, Some(entry.key))
    ensures T.Load(w'.db, entry.key) == Some(q) && q.state.AckPending? && q.publishedAt == Some(now)
    ensures q.messageId == p.messageId && q.lastQueryAt == p.lastQueryAt && q.key == p.key
  {
    hide T.Load, Leads;
    var marked := Marks(cfg, w, entry, answer, now);
    LoadReadsStreams(marked.db, w.db, entry.key);
    w', q := Publishes(cfg, marked, entry, answer, now, p);
    LeadsFurther(cfg, w, marked, w');
  }

  // ------------------------------------------------------- reconciling

  /** A reconcile call may start when no other works on the payment. */
  ghost predicate FreeFor(w: World, id: nat, key: Key) {
    && id !in w.tasks && OneHolder(w.tasks)
    && forall other | other in w.tasks :: Reconciling(w.tasks[other]) != Some(key)
  }

  /** A reconcile call that has looked at the payment and decided. */
  lemma Decides(cfg: Config, w: World, id: nat, key: Key, p: Payment, date: string, now: int, decided: Task)
    requires FreeFor(w, id, key) && T.Load(w.db, key) == Some(p)
    requires decided == match NextAction(p, now, cfg.timeoutSecs, cfg.backoffSecs)
                        case Rest => Done
                        case DeclareTimeout => Declaring(key, TimeoutDeclared(now))
                        case SendQuery => Querying(key, date, QuerySent(now))
    ensures Leads(cfg, w, w.(tasks := w.tasks[id := decided]))
  {
    hide T.Load, Leads, NextAction;
    var call := ReconcileCheck(key, date, now);
    var w1, w2 := w.(tasks := w.tasks[id := call]), w.(tasks := w.tasks[id := decided]);
    LeadsHere(cfg, w);
    assert Next(cfg, w, Start(id, call)) == w1;
    LeadsNext(cfg, w, w, Start(id, call));
    assert w1.tasks[id := decided] == w.tasks[id := decided] && w.trace + [] == w.trace;
    assert Next(cfg, w1, Step(id, Quiet)) == w2;
    LeadsNext(cfg, w, w1, Step(id, Quiet));
  }

  /** A reconcile call declares the timeout of a payment that heard nothing. */
  lemma Declares(cfg: Config, w: World, id: nat, key: Key, p: Payment, date: string, now: int)
    returns (w': World, q: Payment)
    requires FreeFor(w, id, key) && T.Load(w.db, key) == Some(p) && p.state.AckPending?
    requires p.publishedAt.Some? && now - p.publishedAt.value >= cfg.timeoutSecs
    ensures Leads(cfg, w, w') && w'.requests == w.requests && w'.tasks == w.tasks[id := Done]
    ensures T.Load(w'.db, key) == Some(q) && q == p.(state := PaymentState.TimeoutUnresolved,
                                                     events := p.events + [TimeoutDeclared(now)])
  {
    hide T.Load, T.Append, Leads, SubmitStep, DrainStep, PumpStep, HoldStep;
    var e := TimeoutDeclared(now);
    AppendMoves(w.db, key, p, e);
    Decides(cfg, w, id, key, p, date, now, Declaring(key, e));
    var w2 := w.(tasks := w.tasks[id := Declaring(key, e)]);
    w' := Next(cfg, w2, Step(id, Quiet));
    assert w'.tasks == w.tasks[id := Done];
    LeadsNext(cfg, w, w2, Step(id, Quiet));
    q := Applied(p, e).value;
  }

  /** A reconcile call queries a payment whenever a query is due. */
  lemma Queries(cfg: Config, w: World, id: nat, key: Key, p: Payment, date: string, now: int)
    returns (w': World, q: Payment)
    requires FreeFor(w, id, key) && T.Load(w.db, key) == Some(p)
    requires p.state.TimeoutUnresolved? && (p.lastQueryAt.Some? ==> now - p.lastQueryAt.value >= cfg.backoffSecs)
    ensures Leads(cfg, w, w') && w'.requests == w.requests && w'.tasks == w.tasks[id := AwaitingQuery(key, now)]
    ensures T.Load(w'.db, key) == Some(q) && q.state.TimeoutUnresolved? && q.queriesSent > 0
    ensures q.messageId == p.messageId && q.key == p.key
  {
    hide T.Load, T.Append, Leads, SubmitStep, DrainStep, PumpStep, HoldStep;
    var e := QuerySent(now);
    AppendMoves(w.db, key, p, e);
    Decides(cfg, w, id, key, p, date, now, Querying(key, date, e));
    var w2 := w.(tasks := w.tasks[id := Querying(key, date, e)]);
    w' := Next(cfg, w2, Step(id, Quiet));
    assert w'.tasks == w.tasks[id := AwaitingQuery(key, now)];
    LeadsNext(cfg, w, w2, Step(id, Quiet));
    q := Applied(p, e).value;
  }

  // ------------------------------------------------- the limits are real

  /** The port's confirmation, and what the drain does next. */
  lemma Confirmed(cfg: Config, w: World, id: nat, entry: T.Entry, now: int, caller: Option<Key>)
    requires id in w.tasks && w.tasks[id] == Sending(entry, now, caller)
    ensures Next(cfg, w, Step(id, Oracle.Port(Accepted)))
         == w.(tasks := w.tasks[id := Acknowledging(entry, Accepted, now, caller)],
               trace := w.trace + [HandedOff(entry, Accepted)])
  {
  }

  lemma TwoAcceptances(trace: seq<Mark>, entry: T.Entry)
    ensures !AcceptedInOrder(trace + [HandedOff(entry, Accepted)] + [HandedOff(entry, Accepted)])
  {
    var more := trace + [HandedOff(entry, Accepted)] + [HandedOff(entry, Accepted)];
    assert Accepts(more[|trace|]) && Accepts(more[|trace| + 1]);
  }

  /** A fresh drain reads the oldest pending entry. */
  lemma Reads(cfg: Config, w: World, id: nat, now: int)
    requires id !in w.tasks && T.NextUnpublished(w.db).Some?
    ensures var w1 := Next(cfg, w, Start(id, Draining(now, None)));
      && w1 == w.(tasks := w.tasks[id := Draining(now, None)])
      && Next(cfg, w1, Step(id, Quiet)) == w.(tasks := w.tasks[id := Sending(T.NextUnpublished(w.db).value, now, None)])
  {
    hide T.NextUnpublished;
    assert w.trace + [] == w.trace;
    assert w.tasks[id := Draining(now, None)][id := Sending(T.NextUnpublished(w.db).value, now, None)]
        == w.tasks[id := Sending(T.NextUnpublished(w.db).value, now, None)];
  }

  /**
   * For every clean request some run, with drains one at a time, has its message accepted twice: a crash
   * comes between the acceptance and the mark.
   */
  lemma CrashAcceptsTwice(cfg: Config, req: SubmitRequest) returns (labels: seq<Label>)
    requires cfg.clean(cfg.build(req))
    ensures Exclusive(cfg, labels) && req.key in Execute(cfg, labels).requests
    ensures !AcceptedInOrder(Execute(cfg, labels).trace) && AcceptedAgainAfterCrash(cfg, labels)
  {
    hide T.Load, Leads, Reached, Next, Execute, Exclusive, AcceptedInOrder, AcceptedAgainAfterCrash;
    var entry := QueuedFor(cfg, req);
    var w, p := Sends(cfg, req, 0);
    var w1 := Next(cfg, w, Step(0, Oracle.Port(Accepted)));
    Confirmed(cfg, w, 0, entry, 0, Some(req.key));
    ReachedNext(cfg, w, true, false, Step(0, Oracle.Port(Accepted))) by { ReachedWeaker(cfg, w, true, false); }
    var w2 := Next(cfg, w1, Crash);
    CrashForgets(cfg, w1);
    ReachedNext(cfg, w1, true, false, Crash);
    assert T.NextUnpublished(w2.db) == Some(entry);
    Reads(cfg, w2, 1, 0);
    var w3 := Next(cfg, w2, Start(1, Draining(0, None)));
    ReachedNext(cfg, w2, true, false, Start(1, Draining(0, None)));
    var w4 := Next(cfg, w3, Step(1, Quiet));
    ReachedNext(cfg, w3, true, false, Step(1, Quiet));
    Confirmed(cfg, w4, 1, entry, 0, None);
    ReachedNext(cfg, w4, true, false, Step(1, Oracle.Port(Accepted)));
    var w5 := Next(cfg, w4, Step(1, Oracle.Port(Accepted)));
    TwoAcceptances(w.trace, entry);
    labels := RunTo(cfg, w5, true, false);
    AcceptedOnceExactly(cfg, labels);
  }

  lemma CrashForgets(cfg: Config, w: World)
    ensures Next(cfg, w, Crash) == w.(tasks := map[])
  {
  }

  lemma RunTo(cfg: Config, w: World, exclusive: bool, crashless: bool) returns (labels: seq<Label>)
    requires Reached(cfg, w, exclusive, crashless)
    ensures ReachedBy(cfg, labels, w, exclusive, crashless)
  {
    labels :| ReachedBy(cfg, labels, w, exclusive, crashless);
  }

  /** For every clean request some run without a crash has its message accepted twice: two drains read it. */
  lemma RacingDrainsAcceptTwice(cfg: Config, req: SubmitRequest) returns (labels: seq<Label>)
    requires cfg.clean(cfg.build(req))
    ensures (forall action | action in labels :: !action.Crash?) && req.key in Execute(cfg, labels).requests
    ensures !AcceptedInOrder(Execute(cfg, labels).trace)
  {
    hide T.Load, Leads, Reached, Next, Execute, Exclusive, AcceptedInOrder;
    var entry := QueuedFor(cfg, req);
    var w, p := Sends(cfg, req, 0);
    ReachedWeaker(cfg, w, false, true);
    assert T.NextUnpublished(w.db) == Some(entry);
    Reads(cfg, w, 1, 0);
    var w1 := Next(cfg, w, Start(1, Draining(0, None)));
    ReachedNext(cfg, w, false, true, Start(1, Draining(0, None)));
    var w2 := Next(cfg, w1, Step(1, Quiet));
    ReachedNext(cfg, w1, false, true, Step(1, Quiet));
    Confirmed(cfg, w2, 0, entry, 0, Some(req.key));
    var w3 := Next(cfg, w2, Step(0, Oracle.Port(Accepted)));
    ReachedNext(cfg, w2, false, true, Step(0, Oracle.Port(Accepted)));
    Confirmed(cfg, w3, 1, entry, 0, None);
    var w4 := Next(cfg, w3, Step(1, Oracle.Port(Accepted)));
    ReachedNext(cfg, w3, false, true, Step(1, Oracle.Port(Accepted)));
    TwoAcceptances(w.trace, entry);
    labels := RunTo(cfg, w4, false, true);
  }

  /** For every clean request some run, with drains one at a time, strands it: a crash before `Published`. */
  lemma CrashStrandsSome(cfg: Config, req: SubmitRequest) returns (labels: seq<Label>)
    requires cfg.clean(cfg.build(req))
    ensures Exclusive(cfg, labels) && req.key in Execute(cfg, labels).requests
    ensures Stranded(Execute(cfg, labels), req.key) && EverCrashedUnrecorded(cfg, labels, req.key)
    ensures !WasDropped(Execute(cfg, labels).trace, req.key)
  {
    hide T.Load, Leads, Reached, Next, Execute, Exclusive, Stranded, WorldOk, AcceptedInOrder;
    var entry := QueuedFor(cfg, req);
    var w, p := Sends(cfg, req, 0);
    Confirmed(cfg, w, 0, entry, 0, Some(req.key));
    ReachedNext(cfg, w, true, true, Step(0, Oracle.Port(Accepted)));
    var w1 := Next(cfg, w, Step(0, Oracle.Port(Accepted)));
    var w2 := Marks(cfg, w1, entry, Accepted, 0);
    ReachedOnward(cfg, w1, w2, true, true);
    LoadReadsStreams(w2.db, w.db, req.key);
    ReachedWeaker(cfg, w2, true, false);
    var before := RunTo(cfg, w2, true, false);
    EveryRun(cfg, before);
    CrashStrands(cfg, w2, 0);
    CrashForgets(cfg, w2);
    labels := before + [Crash];
    Sequential.ExecuteExtends(cfg, before, Crash);
    ExclusiveExtends(cfg, before, Crash);
    LossRemembered(cfg, before, Crash, req.key);
    assert InHand(w2.tasks[0]) == Some(req.key) && !Stranded(w2, req.key) by { InHandIsNotStranded(w2, 0); }
    if WasDropped(w2.trace, req.key) {
      DroppedIsStranded(cfg, before, req.key);
    }
  }

  lemma InHandIsNotStranded(w: World, id: nat)
    requires id in w.tasks && InHand(w.tasks[id]).Some?
    ensures !Stranded(w, InHand(w.tasks[id]).value)
  {
  }

  /** For every clean request some run without a crash, with drains one at a time, strands it: the port rejects it. */
  lemma RejectionStrandsSome(cfg: Config, req: SubmitRequest) returns (labels: seq<Label>)
    requires cfg.clean(cfg.build(req))
    ensures Exclusive(cfg, labels) && req.key in Execute(cfg, labels).requests
    ensures (forall action | action in labels :: !action.Crash?) && WasDropped(Execute(cfg, labels).trace, req.key)
    ensures Stranded(Execute(cfg, labels), req.key)
  {
    hide T.Load, Leads, Reached, Next, Execute, Exclusive, Stranded, T.MarkPublished;
    var entry := QueuedFor(cfg, req);
    var w, p := Sends(cfg, req, 0);
    IsRejected(cfg, w, entry, 0, Some(req.key));
    ReachedNext(cfg, w, true, true, Step(0, Oracle.Port(PortAnswer.Rejected)));
    var w1 := Next(cfg, w, Step(0, Oracle.Port(PortAnswer.Rejected)));
    Drops(cfg, w1, entry, 0, Some(req.key));
    ReachedNext(cfg, w1, true, true, Step(0, Quiet));
    var w2 := Next(cfg, w1, Step(0, Quiet));
    assert w2.trace[|w1.trace|] == Dropped(entry);
    labels := RunTo(cfg, w2, true, true);
    DroppedIsStranded(cfg, labels, req.key);
  }

  lemma IsRejected(cfg: Config, w: World, entry: T.Entry, now: int, caller: Option<Key>)
    requires w.tasks == map[0 := Sending(entry, now, caller)]
    ensures var w' := Next(cfg, w, Step(0, Oracle.Port(PortAnswer.Rejected)));
      w'.tasks == map[0 := Dropping(entry, now, caller)] && w'.requests == w.requests && w'.db == w.db
  {
  }

  lemma Drops(cfg: Config, w: World, entry: T.Entry, now: int, caller: Option<Key>)
    requires w.tasks == map[0 := Dropping(entry, now, caller)]
    ensures var w' := Next(cfg, w, Step(0, Quiet));
      && w'.tasks == map[0 := Draining(now, caller)] && w'.requests == w.requests
      && w'.trace == w.trace + [Dropped(entry)]
  {
    hide T.MarkPublished;
  }

  /**
   * For every clean request and every backoff, some run without the one-at-a-time discipline records two
   * queries of its payment at the same time.
   */
  lemma RacingReconcilersHappen(cfg: Config, req: SubmitRequest, date: string) returns (labels: seq<Label>, now: int)
    requires cfg.clean(cfg.build(req)) && !cfg.serial
    ensures req.key in Execute(cfg, labels).db.streams
    ensures var h := Execute(cfg, labels).db.streams[req.key];
      |h| >= 2 && h[|h| - 2] == h[|h| - 1] == QuerySent(now)
  {
    hide T.Load, Leads, Reached, Next, Execute, Exclusive;
    var entry := QueuedFor(cfg, req);
    now := if cfg.timeoutSecs > 0 then cfg.timeoutSecs else 0;
    var w, p := Sends(cfg, req, 0);
    Confirmed(cfg, w, 0, entry, 0, Some(req.key));
    ReachedNext(cfg, w, true, true, Step(0, Oracle.Port(Accepted)));
    var w1 := Next(cfg, w, Step(0, Oracle.Port(Accepted)));
    var w2, q := Waits(cfg, w1, entry, Accepted, 0, p);
    ReachedOnward(cfg, w1, w2, true, true);
    var w3, overdue := Declares(cfg, w2, 1, req.key, q, date, now);
    ReachedOnward(cfg, w2, w3, true, true);
    var before := RunTo(cfg, w3, true, true);
    assert Stands(w3.db, req.key, PaymentState.TimeoutUnresolved);
    RacingReconcilersBothQuery(cfg, before, 2, 3, req.key, date, now);
    labels := before + RacingCalls(2, 3, req.key, date, now);
    var h := w3.db.streams[req.key];
    assert (h + [QuerySent(now), QuerySent(now)])[|h|] == QuerySent(now);
  }
}
