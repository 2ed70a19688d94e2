/** Runs of the two sides together: what gets through, gets through. */
module Journeys {
  import opened Wrappers
  import opened Payments
  import opened Pacs008
  import opened Requests
  import opened Protocol
  import opened Advices
  import opened Handoffs
  import opened Witnesses
  import opened Simulators
  import opened Composition
  import T = Tables

  // ------------------------------------------------------------ going on

  /** A run can go on from `hops` to this system. */
  ghost predicate CanGetTo(cfg: Config, far: Far, hops: seq<Hop>, s: System) {
    exists more :: Unfold(cfg, far, hops + more) == s
  }

  lemma Here(cfg: Config, far: Far, hops: seq<Hop>)
    ensures CanGetTo(cfg, far, hops, Unfold(cfg, far, hops))
  {
    assert hops + [] == hops;
  }

  lemma UnfoldExtends(cfg: Config, far: Far, hops: seq<Hop>, hop: Hop)
    ensures Unfold(cfg, far, hops + [hop]) == Hopped(cfg, far, Unfold(cfg, far, hops), hop)
  {
    hide Hopped;
    assert (hops + [hop])[..|hops|] == hops;
  }

  lemma Further(cfg: Config, far: Far, hops: seq<Hop>, s: System, hop: Hop)
    requires CanGetTo(cfg, far, hops, s)
    ensures CanGetTo(cfg, far, hops, Hopped(cfg, far, s, hop))
  {
    hide Hopped, Unfold;
    var more :| Unfold(cfg, far, hops + more) == s;
    UnfoldExtends(cfg, far, hops + more, hop);
    assert hops + (more + [hop]) == (hops + more) + [hop];
  }

  /** Calm steps of the gateway are steps of the two sides together. */
  lemma Onward(cfg: Config, far: Far, hops: seq<Hop>, s: System, w': World)
    requires CanGetTo(cfg, far, hops, s) && Leads(cfg, s.w, w')
    ensures CanGetTo(cfg, far, hops, s.(w := w'))
  {
    hide CanGetTo, Led, Calm;
    var labels :| Calm(cfg, s.w, labels) && Led(cfg, s.w, labels) == w';
    OnwardAlong(cfg, far, hops, s, labels);
  }

  lemma {:induction false} OnwardAlong(cfg: Config, far: Far, hops: seq<Hop>, s: System, labels: seq<Label>)
    requires CanGetTo(cfg, far, hops, s) && Calm(cfg, s.w, labels)
    ensures CanGetTo(cfg, far, hops, s.(w := Led(cfg, s.w, labels)))
    decreases |labels|
  {
    hide CanGetTo, Next, OneHolder;
    if labels != [] {
      var front := labels[..|labels| - 1];
      CalmFront(cfg, s.w, labels);
      OnwardAlong(cfg, far, hops, s, front);
      Further(cfg, far, hops, s.(w := Led(cfg, s.w, front)), Own(labels[|labels| - 1]));
    }
  }

  lemma ThenFurther(cfg: Config, far: Far, hops: seq<Hop>, s: System)
    requires CanGetTo(cfg, far, hops, s)
    ensures CanGetTo(cfg, far, [], s)
  {
    var more :| Unfold(cfg, far, hops + more) == s;
    assert [] + (hops + more) == hops + more;
  }

  lemma GetsThere(cfg: Config, far: Far, s: System) returns (hops: seq<Hop>)
    requires CanGetTo(cfg, far, [], s)
    ensures Unfold(cfg, far, hops) == s
  {
    hide Unfold;
    var more :| Unfold(cfg, far, [] + more) == s;
    assert [] + more == more;
    hops := more;
  }

  lemma UnfoldsToStart(cfg: Config, far: Far)
    ensures Unfold(cfg, far, []) == Initially(far)
  {
  }

  // ------------------------------------------------------- the far side's turn

  /** The message arrives, is processed, and the reply gets back. */
  lemma IsProcessed(cfg: Config, far: Far, s: System, entry: T.Entry, now: int, caller: Option<Key>) returns (s': System)
    requires CanGetTo(cfg, far, [], s) && s.w.tasks == map[0 := Sending(entry, now, caller)]
    requires Transferred(cfg, far, s.node, entry.message).1.Advice? || Transferred(cfg, far, s.node, entry.message).1.Accepted?
    ensures CanGetTo(cfg, far, [], s') && s'.w.db == s.w.db && s'.w.requests == s.w.requests
    ensures s'.node == Transferred(cfg, far, s.node, entry.message).0
    ensures s'.w.tasks == map[0 := Acknowledging(entry, Transferred(cfg, far, s.node, entry.message).1, now, caller)]
  {
    hide CanGetTo, Transferred;
    var answer := Transferred(cfg, far, s.node, entry.message).1;
    assert s.w.tasks[0].Sending? && s.w.tasks[0].entry == entry;
    var s1 := Hopped(cfg, far, s, Arrives(entry));
    Further(cfg, far, [], s, Arrives(entry));
    assert s1.w == s.w && (entry.message, answer) in s1.replies;
    s' := Hopped(cfg, far, s1, Answers(0, answer));
    Further(cfg, far, [], s1, Answers(0, answer));
  }

  /** The latest advice on a message. */
  predicate LatestIs(n: Node, id: string, report: Report) {
    id in n.ledger && n.ledger[id] != [] && n.ledger[id][|n.ledger[id]| - 1] == report
  }

  // --------------------------------------------------------- heard by a query

  /** Over HTTP a status request hears the latest advice. */
  lemma HearsLatest(cfg: Config, far: Far, hops: seq<Hop>, s: System, id: nat, key: Key, p: Payment, now: int,
          report: Report) returns (s': System, q: Payment)
    requires far.http && CanGetTo(cfg, far, hops, s)
    requires id in s.w.tasks && s.w.tasks[id] == AwaitingQuery(key, now)
    requires T.Load(s.w.db, key) == Some(p) && p.state.TimeoutUnresolved? && p.queriesSent > 0
    requires LatestIs(s.node, p.messageId, report) && Usable(report)
    ensures CanGetTo(cfg, far, hops, s') && s'.w.requests == s.w.requests
    ensures T.Load(s'.w.db, key) == Some(q) && Takes(p, report, now, q)
  {
    hide T.Load, T.Append, Applied, CanGetTo, Transferred, MqReceive, Delivered, Next, Usable, Takes;
    var answer := Advice(Status(report));
    assert HttpQuery(s.node, true, p.messageId) == answer;
    var s1 := Hopped(cfg, far, s, QueryArrives(key, true));
    Further(cfg, far, hops, s, QueryArrives(key, true));
    assert s1.w == s.w && (p.messageId, answer) in s1.queryReplies;
    s', q := IsTold(cfg, far, hops, s1, id, key, p, now, report);
  }

  lemma IsTold(cfg: Config, far: Far, hops: seq<Hop>, s: System, id: nat, key: Key, p: Payment, now: int, report: Report)
    returns (s': System, q: Payment)
    requires CanGetTo(cfg, far, hops, s)
    requires id in s.w.tasks && s.w.tasks[id] == AwaitingQuery(key, now)
    requires T.Load(s.w.db, key) == Some(p) && p.state.TimeoutUnresolved?
    requires (p.messageId, Advice(Status(report))) in s.queryReplies && Usable(report)
    ensures CanGetTo(cfg, far, hops, s') && s'.w.requests == s.w.requests
    ensures T.Load(s'.w.db, key) == Some(q) && Takes(p, report, now, q)
  {
    hide T.Load, T.Append, Applied, CanGetTo, Transferred, Asked028, MqReceive, Delivered, Next, AdviceOf, Usable, Takes;
    var answer := Advice(Status(report));
    AdviceMoves(p, report, now);
    var e := AdviceOf(report, now).value;
    var s1 := Hopped(cfg, far, s, QueryAnswers(id, answer));
    Further(cfg, far, hops, s, QueryAnswers(id, answer));
    assert AdviceIn(answer, now) == Some(e);
    QueryAnswered(cfg, s.w, id, key, now, answer, e);
    AppendMoves(s.w.db, key, p, e);
    s' := Hopped(cfg, far, s1, Own(Step(id, Quiet)));
    Further(cfg, far, hops, s1, Own(Step(id, Quiet)));
    AdviceRecorded(cfg, s1.w, id, QueryAdvising(key, e), key, e);
    q := Applied(p, e).value;
  }

  lemma QueryAnswered(cfg: Config, w: World, id: nat, key: Key, now: int, answer: PortAnswer, e: Event)
    requires id in w.tasks && w.tasks[id] == AwaitingQuery(key, now) && AdviceIn(answer, now) == Some(e)
    ensures var w' := Next(cfg, w, Step(id, Oracle.Port(answer)));
      w'.db == w.db && w'.requests == w.requests && id in w'.tasks && w'.tasks[id] == QueryAdvising(key, e)
  {
  }

  /** A task about to record an advice. */
  predicate Advises(task: Task, key: Key, e: Event) {
    (task.Advising? || task.QueryAdvising? || task.Correlated?) && task.key == key && task.event == e
  }

  lemma AdviceRecorded(cfg: Config, w: World, id: nat, task: Task, key: Key, e: Event)
    requires id in w.tasks && w.tasks[id] == task && Advises(task, key, e)
    ensures var w' := Next(cfg, w, Step(id, Quiet));
      w'.db == T.Append(w.db, key, e).tables && w'.requests == w.requests
  {
    hide T.Append;
  }

  // ----------------------------------------------------------- heard by a pump

  /** A pump that received a report finds the payment it names. */
  lemma Correlates(cfg: Config, w: World, id: nat, key: Key, p: Payment, now: int, report: Report)
    requires OneHolder(w.tasks) && id in w.tasks && w.tasks[id] == Listing(report, now)
    requires AdviceOf(report, now).Some? && report.originalId == Some(p.messageId)
    requires T.Load(w.db, key) == Some(p) && p.key == key
    ensures Leads(cfg, w, w.(tasks := w.tasks[id := Correlated(key, AdviceOf(report, now).value, now)]))
  {
    hide T.Load, T.Append, Applied, Leads, AdviceOf, SubmitStep, DrainStep, HoldStep, ReconcileStep;
    var e := AdviceOf(report, now).value;
    LoadedIsKnown(w.db, key);
    LeadsHere(cfg, w);
    var w1 := Next(cfg, w, Step(id, Quiet));
    assert w1.tasks == w.tasks[id := Searching(report, w.db.streams.Keys, now)];
    LeadsNext(cfg, w, w, Step(id, Quiet));
    var w2 := Next(cfg, w1, Step(id, Pick(key)));
    assert w2.tasks == w.tasks[id := Correlated(key, e, now)] && w.trace + [] == w.trace;
    LeadsNext(cfg, w, w1, Step(id, Pick(key)));
  }

  /** And applies the advice. */
  lemma HearsReport(cfg: Config, w: World, id: nat, key: Key, p: Payment, now: int, report: Report)
    returns (w': World, q: Payment)
    requires OneHolder(w.tasks) && id in w.tasks && w.tasks[id] == Listing(report, now)
    requires Usable(report) && report.originalId == Some(p.messageId)
    requires T.Load(w.db, key) == Some(p) && Waiting(p.state) && p.key == key
    ensures Leads(cfg, w, w') && w'.requests == w.requests
    ensures T.Load(w'.db, key) == Some(q) && Takes(p, report, now, q)
  {
    hide T.Load, T.Append, Applied, Leads, AdviceOf, Usable, Takes, SubmitStep, DrainStep, HoldStep, ReconcileStep;
    AdviceMoves(p, report, now);
    var e := AdviceOf(report, now).value;
    Correlates(cfg, w, id, key, p, now, report);
    var w2 := w.(tasks := w.tasks[id := Correlated(key, e, now)]);
    AppendMoves(w.db, key, p, e);
    AdviceRecorded(cfg, w2, id, Correlated(key, e, now), key, e);
    w' := Next(cfg, w2, Step(id, Quiet));
    assert w'.tasks == w.tasks[id := Polling(now)];
    LeadsNext(cfg, w, w2, Step(id, Quiet));
    q := Applied(p, e).value;
  }

  lemma LoadedIsKnown(t: T.Tables, key: Key)
    requires T.Load(t, key).Some?
    ensures key in t.streams
  {
  }

  /** A poll whose reply is lost takes the oldest advice with it. */
  lemma LosesAdvice(cfg: Config, far: Far, s: System, id: nat, now: int) returns (s2: System)
    requires !far.http && id !in s.w.tasks && CanGetTo(cfg, far, [], s) && QueueOf(s.node, far.participant) != []
    ensures CanGetTo(cfg, far, [], s2) && s2.w == s.w.(tasks := s.w.tasks[id := Done])
    ensures s2.node == MqReceive(s.node, far.participant).0
  {
    hide CanGetTo, MqReceive;
    var s1 := Hopped(cfg, far, s, Own(Start(id, Polling(now))));
    Further(cfg, far, [], s, Own(Start(id, Polling(now))));
    assert s1 == s.(w := s.w.(tasks := s.w.tasks[id := Polling(now)]));
    PollEnds(cfg, s1.w, id, now);
    s2 := Hopped(cfg, far, s1, Polls(id, true));
    Further(cfg, far, [], s1, Polls(id, true));
    assert s.w.tasks[id := Polling(now)][id := Done] == s.w.tasks[id := Done];
  }

  lemma PollEnds(cfg: Config, w: World, id: nat, now: int)
    requires id in w.tasks && w.tasks[id] == Polling(now)
    ensures Next(cfg, w, Step(id, Oracle.Polled(None))) == w.(tasks := w.tasks[id := Done])
  {
    assert w.trace + [] == w.trace;
  }

  lemma PollHears(cfg: Config, w: World, id: nat, now: int, report: Report)
    requires id in w.tasks && w.tasks[id] == Polling(now) && report.originalId.Some?
    ensures Next(cfg, w, Step(id, Oracle.Polled(Some(Status(report))))) == w.(tasks := w.tasks[id := Listing(report, now)])
  {
    assert w.trace + [] == w.trace;
  }

  /** A poll that gets through hands the pump the oldest advice. */
  lemma ReceivesAdvice(cfg: Config, far: Far, s: System, id: nat, now: int, report: Report) returns (s2: System)
    requires !far.http && id !in s.w.tasks && CanGetTo(cfg, far, [], s) && report.originalId.Some?
    requires MqReceive(s.node, far.participant).1 == Some(report)
    ensures CanGetTo(cfg, far, [], s2) && s2.w == s.w.(tasks := s.w.tasks[id := Listing(report, now)])
  {
    hide CanGetTo, MqReceive;
    var s1 := Hopped(cfg, far, s, Own(Start(id, Polling(now))));
    Further(cfg, far, [], s, Own(Start(id, Polling(now))));
    assert s1 == s.(w := s.w.(tasks := s.w.tasks[id := Polling(now)]));
    PollHears(cfg, s1.w, id, now, report);
    s2 := Hopped(cfg, far, s1, Polls(id, false));
    Further(cfg, far, [], s1, Polls(id, false));
    assert s.w.tasks[id := Polling(now)][id := Listing(report, now)] == s.w.tasks[id := Listing(report, now)];
  }

  /** The oldest queued advice is received and applied. */
  lemma IsPumped(cfg: Config, far: Far, s: System, id: nat, key: Key, p: Payment, now: int, report: Report)
    returns (s': System, q: Payment)
    requires !far.http && CanGetTo(cfg, far, [], s) && id !in s.w.tasks && OneHolder(s.w.tasks)
    requires T.Load(s.w.db, key) == Some(p) && Waiting(p.state) && p.key == key
    requires MqReceive(s.node, far.participant).1 == Some(report)
    requires Usable(report) && report.originalId == Some(p.messageId)
    ensures CanGetTo(cfg, far, [], s') && s'.w.requests == s.w.requests
    ensures T.Load(s'.w.db, key) == Some(q) && Takes(p, report, now, q)
  {
    hide T.Load, CanGetTo, Leads, Next, MqReceive, Usable, Takes, Waiting;
    var s1 := ReceivesAdvice(cfg, far, s, id, now, report);
    var w', advised := HearsReport(cfg, s1.w, id, key, p, now, report);
    Onward(cfg, far, [], s1, w');
    s', q := s1.(w := w'), advised;
  }
}
