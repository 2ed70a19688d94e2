/** The one case in which the two sides can disagree: an accepted payment whose receiver rejects it later. */
module LateRejections {
  import opened Wrappers
  import opened Payments
  import opened Histories
  import opened Pacs008
  import opened Requests
  import opened Protocol
  import opened Advices
  import opened StoreInvariant
  import opened Interleaving
  import opened Reachability
  import opened Guarantees
  import opened Handoffs
  import opened Witnesses
  import opened Simulators
  import opened Composition
  import opened Journeys
  import T = Tables

  /** Rejected for the reason the receiving participant gives later. */
  ghost predicate LateRejected(p: Payment) { p.state.Rejected? && p.rejectionReason == Some("AC04") }

  // --------------------------------------------------- over HTTP, by a query

  /**
   * A crash after `Published` and before the advice was recorded loses the `ACWP`; if the follow-up is a
   * `RJCT`, the restarted gateway ends `REJECTED` although the far side's decision settled the payment.
   */
  lemma LateRejectionOverturns(cfg: Config, far: Far, hops: seq<Hop>, key: Key, date: string, now: int)
    returns (s': System)
    requires far.http
    requires var s := Unfold(cfg, far, hops);
      && T.Load(s.w.db, key).Some?
      && var p := T.Load(s.w.db, key).value;
      && p.state.AckPending? && p.lastQueryAt.None?
      && p.publishedAt.Some? && now - p.publishedAt.value >= cfg.timeoutSecs
      && LatestIs(s.node, p.messageId, FollowUp("RJCT", p.messageId))
    ensures CanGetTo(cfg, far, hops, s') && s'.w.requests == Unfold(cfg, far, hops).w.requests
    ensures T.Load(s'.w.db, key).Some? && LateRejected(T.Load(s'.w.db, key).value)
    ensures Settles(AcwpThen("RJCT"))
  {
    hide T.Load, CanGetTo, Unfold, Leads;
    var s := Unfold(cfg, far, hops);
    var p := T.Load(s.w.db, key).value;
    Here(cfg, far, hops);
    Further(cfg, far, hops, s, Own(Crash));
    s' := Hopped(cfg, far, s, Own(Crash));
    var w1, overdue := Declares(cfg, s'.w, 0, key, p, date, now);
    Onward(cfg, far, hops, s', w1);
    var w2, queried := Queries(cfg, w1, 1, key, overdue, date, now);
    Onward(cfg, far, hops, s'.(w := w1), w2);
    var end, q := HearsLatest(cfg, far, hops, s'.(w := w2), 1, key, queried, now, FollowUp("RJCT", p.messageId));
    s' := end;
  }

  // ------------------------------------------------ over the queue pair, by a push

  /** The `ACWP` is lost on its way, the delayed `RJCT` gets through. */
  lemma OnlyTheRejectionArrives(cfg: Config, far: Far, s: System, key: Key, p: Payment, now: int) returns (s': System)
    requires !far.http && CanGetTo(cfg, far, [], s) && 1 !in s.w.tasks && 2 !in s.w.tasks && OneHolder(s.w.tasks)
    requires T.Load(s.w.db, key) == Some(p) && p.state.AckPending? && p.key == key
    requires QueueOf(s.node, far.participant) == [FirstAdvice(AcwpThen("RJCT"), p.messageId)]
    requires s.node.delayed == [Push(far.participant, FollowUp("RJCT", p.messageId))]
    ensures CanGetTo(cfg, far, [], s') && s'.w.requests == s.w.requests
    ensures T.Load(s'.w.db, key).Some? && LateRejected(T.Load(s'.w.db, key).value)
  {
    hide T.Load, CanGetTo, Leads, Next;
    var report := FollowUp("RJCT", p.messageId);
    var s1 := LosesAdvice(cfg, far, s, 1, now);
    var s2 := Hopped(cfg, far, s1, Pushes(0));
    Further(cfg, far, [], s1, Pushes(0));
    assert MqReceive(s2.node, far.participant).1 == Some(report);
    var end, q := IsPumped(cfg, far, s2, 2, key, p, now, report);
    s' := end;
  }

  // ---------------------------------------------- and such runs exist

  /** The far side accepts it without posting, and says so or queues it. */
  lemma IsAccepted(cfg: Config, far: Far, n: Node, doc: Document)
    requires n == Initially(far).node
    requires doc.transactions != [] && Verdict(cfg, far, doc) == AcwpThen("RJCT")
    ensures var (n', answer) := Transferred(cfg, far, n, doc);
      var id := doc.header.messageId;
      && LatestIs(n', id, FollowUp("RJCT", id))
      && (far.http ==> answer == Advice(Status(FirstAdvice(AcwpThen("RJCT"), id))))
      && (!far.http ==>
            && answer.Accepted?
            && QueueOf(n', far.participant) == [FirstAdvice(AcwpThen("RJCT"), id)]
            && n'.delayed == [Push(far.participant, FollowUp("RJCT", id))])
  {
  }

  /**
   * The exception is real in every configuration: for every clean request whose scenario is an `ACWP`
   * followed by a `RJCT`, some run from the empty store ends it `REJECTED`, although the far side's decision
   * settled it.
   */
  lemma LateRejectionHappens(cfg: Config, far: Far, req: SubmitRequest, isDateTime: string -> bool) returns (s: System)
    requires BuildsPacs008(cfg, isDateTime) && cfg.clean(cfg.build(req))
    requires cfg.build(req).transactions != [] && Verdict(cfg, far, cfg.build(req)) == AcwpThen("RJCT")
    ensures CanGetTo(cfg, far, [], s) && s.w.requests == map[req.key := req]
    ensures T.Load(s.w.db, req.key).Some? && LateRejected(T.Load(s.w.db, req.key).value)
    ensures Settles(Verdict(cfg, far, cfg.build(req)))
  {
    hide T.Load, CanGetTo, Unfold, Verdict, BuildsPacs008, Hopped, Leads, Reached, MqReceive, Transferred,
         LatestIs;
    var now, later := 0, if cfg.timeoutSecs > 0 then cfg.timeoutSecs else 0;
    var entry := QueuedFor(cfg, req);
    BuiltMessage(cfg, isDateTime, req);
    var w, p := Sends(cfg, req, now);
    Here(cfg, far, []);
    UnfoldsToStart(cfg, far);
    Onward(cfg, far, [], Initially(far), w);
    IsAccepted(cfg, far, Initially(far).node, entry.message);
    s := IsProcessed(cfg, far, Initially(far).(w := w), entry, now, Some(req.key));
    LoadReadsStreams(s.w.db, w.db, req.key);
    var w', q := Waits(cfg, s.w, entry, Transferred(cfg, far, Initially(far).node, entry.message).1, now, p);
    Onward(cfg, far, [], s, w');
    s := s.(w := w');
    if far.http {
      var hops := GetsThere(cfg, far, s);
      var end := LateRejectionOverturns(cfg, far, hops, req.key, "", later);
      ThenFurther(cfg, far, hops, end);
      s := end;
    } else {
      s := OnlyTheRejectionArrives(cfg, far, s, req.key, q, now);
    }
  }

  // ------------------------------------------------------------- exactly

  /** The payment ended as the far side decided, with its reason. */
  ghost predicate Follows(p: Payment, verdict: Scenario) {
    && (p.state.Settled? ==> Settles(verdict))
    && (p.state.Rejected? ==> Rejects(verdict) && p.rejectionReason == Some(verdict.code))
  }

  ghost predicate FollowsIn(cfg: Config, far: Far, w: World, req: SubmitRequest)
    requires cfg.build(req).transactions != []
  {
    req.key in w.requests && w.requests[req.key] == req && DistinctIds(cfg, w.requests) ==>
      T.Load(w.db, req.key).Some? && Follows(T.Load(w.db, req.key).value, Verdict(cfg, far, cfg.build(req)))
  }

  /** In one run: only a clean request can end otherwise, and only by a late rejection. */
  lemma FollowsUnlessLate(cfg: Config, far: Far, isDateTime: string -> bool, hops: seq<Hop>, req: SubmitRequest)
    requires BuildsPacs008(cfg, isDateTime) && cfg.build(req).transactions != []
    requires cfg.clean(cfg.build(req)) ==> Verdict(cfg, far, cfg.build(req)) != AcwpThen("RJCT")
    ensures FollowsIn(cfg, far, Unfold(cfg, far, hops).w, req)
  {
    hide Unfold, TablesOk, TraceOk, NoRepeats, TasksOk, Replay, StreamOk, Verdict, DistinctIds, BuildsPacs008, T.Load;
    var w := Unfold(cfg, far, hops).w;
    if req.key in w.requests && w.requests[req.key] == req && DistinctIds(cfg, w.requests) {
      EveryUnfolding(cfg, far, isDateTime, hops);
      SameKeys(cfg, w.db, w.requests);
      FarSideAgrees(cfg, far, isDateTime, hops, req.key);
      KnownStream(cfg, w.db, w.requests, req.key);
      if OnWire(At(w.db, req.key).state) {
        WireHistory(cfg, req, w.db.streams[req.key]);
      }
    }
  }

  /**
   * In every configuration, gated or not, over HTTP or the queue pair: every run ends the request as the far
   * side decided exactly when it is not a clean one whose `ACWP` is later turned into a `RJCT`.
   */
  lemma VerdictFollowsExactly(cfg: Config, far: Far, isDateTime: string -> bool, req: SubmitRequest)
    requires BuildsPacs008(cfg, isDateTime)
    ensures cfg.build(req).transactions != []
    ensures (forall hops :: FollowsIn(cfg, far, Unfold(cfg, far, hops).w, req))
       <==> (cfg.clean(cfg.build(req)) ==> Verdict(cfg, far, cfg.build(req)) != AcwpThen("RJCT"))
  {
    hide Unfold, FollowsIn, Verdict, CanGetTo, BuildsPacs008, T.Load;
    BuiltMessage(cfg, isDateTime, req);
    if cfg.clean(cfg.build(req)) && Verdict(cfg, far, cfg.build(req)) == AcwpThen("RJCT") {
      var s := LateRejectionHappens(cfg, far, req, isDateTime);
      var hops := GetsThere(cfg, far, s);
      DoesNotFollow(cfg, far, s.w, req);
      assert !FollowsIn(cfg, far, Unfold(cfg, far, hops).w, req);
    } else {
      forall hops
        ensures FollowsIn(cfg, far, Unfold(cfg, far, hops).w, req)
      {
        FollowsUnlessLate(cfg, far, isDateTime, hops, req);
      }
    }
  }

  lemma DoesNotFollow(cfg: Config, far: Far, w: World, req: SubmitRequest)
    requires w.requests == map[req.key := req] && cfg.build(req).transactions != []
    requires Verdict(cfg, far, cfg.build(req)) == AcwpThen("RJCT")
    requires T.Load(w.db, req.key).Some? && T.Load(w.db, req.key).value.state.Rejected?
    ensures !FollowsIn(cfg, far, w, req)
  {
    hide T.Load, Verdict;
  }
}
