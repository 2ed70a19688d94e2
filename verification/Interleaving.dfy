/** One step of one task: what it keeps, what it cannot touch, and what may be relied on next. */
module Interleaving {
  import opened Wrappers
  import opened Payments
  import opened Histories
  import opened Requests
  import opened Reconciliation
  import opened Reasons
  import opened HoldPolicies
  import opened RiskGates
  import opened Protocol
  import opened Places
  import opened StoreInvariant
  import T = Tables

  type Ledger = map<Key, SubmitRequest>

  // -------------------------------------------------- what tasks rely on

  ghost predicate Stands(t: T.Tables, key: Key, state: PaymentState) {
    T.Load(t, key).Some? && T.Load(t, key).value.state == state
  }

  /** The submission that created this payment, on which nobody has asked the gate yet. */
  ghost predicate Owns(t: T.Tables, requests: Ledger, req: SubmitRequest) {
    req.key in t.streams && req.key in requests && requests[req.key] == req
  }

  /** Validated, and not checked yet. */
  ghost predicate Unchecked(t: T.Tables, key: Key) {
    Stands(t, key, PaymentState.Validated) && T.Load(t, key).value.riskOutcome.None?
  }

  ghost predicate ReadyToSubmit(cfg: Config, t: T.Tables, key: Key) {
    && Stands(t, key, PaymentState.Validated)
    && (cfg.gated ==> T.Load(t, key).value.riskOutcome == Some(RiskOutcome.Allow))
  }

  /** The entry is in its place in the outbox, and everything before it has been handed off. */
  ghost predicate EntryHere(outbox: seq<T.Entry>, entry: T.Entry) {
    && 0 <= entry.id < |outbox|
    && outbox[entry.id].key == entry.key && outbox[entry.id].message == entry.message
    && forall j | 0 <= j < entry.id :: outbox[j].published
  }

  ghost predicate KnownCaller(t: T.Tables, caller: Option<Key>) {
    caller.Some? ==> caller.value in t.streams
  }

  /** A hold on record that is still releasable at `now`. */
  ghost predicate Releasable(cfg: Config, t: T.Tables, key: Key, now: int) {
    key in t.streams && exists e :: e in t.streams[key] && HoldTime(e).Some? && !IsExpired(cfg.maxAge, e.at, now)
  }

  /** A publication on record that is overdue at `now`. */
  ghost predicate Overdue(cfg: Config, t: T.Tables, key: Key, now: int) {
    key in t.streams && exists e :: e in t.streams[key] && e.Published? && now - e.at >= cfg.timeoutSecs
  }

  ghost predicate QueryDue(cfg: Config, t: T.Tables, key: Key, now: int) {
    cfg.serial && key in t.streams && LastOf(t.streams[key], QueryTime).Some? ==>
      now - LastOf(t.streams[key], QueryTime).value >= cfg.backoffSecs
  }

  /** What a task knows between its steps, whatever the others do meanwhile. */
  ghost predicate TaskOk(cfg: Config, t: T.Tables, requests: Ledger, trace: seq<Mark>, task: Task) {
    match task
    case Validating(req, _) =>
      Owns(t, requests, req) && cfg.clean(cfg.build(req)) && Stands(t, req.key, PaymentState.Created)
      && Asked(req.key) !in trace
    case Checking(req, _) =>
      Owns(t, requests, req) && cfg.gated && Unchecked(t, req.key) && Asked(req.key) !in trace
    case Recording(req, _, verdict) =>
      Owns(t, requests, req) && cfg.gated && Unchecked(t, req.key) && Sound(cfg.policy, verdict)
    case Submitting(req, _) => Owns(t, requests, req) && ReadyToSubmit(cfg, t, req.key)
    case Draining(_, caller) => KnownCaller(t, caller)
    case Sending(entry, _, caller) => EntryHere(t.outbox, entry) && KnownCaller(t, caller)
    case Acknowledging(entry, _, _, caller) => EntryHere(t.outbox, entry) && KnownCaller(t, caller)
    case Publishing(entry, _, _, caller) =>
      EntryHere(t.outbox, entry) && t.outbox[entry.id].published && KnownCaller(t, caller)
    case Advising(_, event, _, caller) => event.AdviceReceived? && KnownCaller(t, caller)
    case Dropping(entry, _, caller) => EntryHere(t.outbox, entry) && KnownCaller(t, caller)
    case Returning(key) => key in t.streams
    case Correlated(_, event, _) => event.AdviceReceived?
    case Releasing(key, event, _) =>
      event.HoldReleased? && Acceptable(event.reason) && Releasable(cfg, t, key, event.at)
    case Discarding(_, event) => event.HoldCancelled? && Acceptable(event.reason)
    case SweepDiscard(_, event, _, _) => event.HoldCancelled? && Acceptable(event.reason)
    case Declaring(key, event) => event.TimeoutDeclared? && Overdue(cfg, t, key, event.at)
    case Querying(key, _, event) => event.QuerySent? && QueryDue(cfg, t, key, event.at)
    case QueryAdvising(_, event) => event.AdviceReceived?
    case Aborted => false
    case _ => true
  }

  /** The payment whose early life only this task may advance. */
  function OwnerOf(task: Task): Option<Key> {
    match task
    case Validating(req, _) => Some(req.key)
    case Checking(req, _) => Some(req.key)
    case Recording(req, _, _) => Some(req.key)
    case Submitting(req, _) => Some(req.key)
    case _ => None
  }

  // ------------------------------------------------------- how tables grow

  /** Streams grow at the end; entries stay where they are and are only ever marked. */
  ghost predicate Grows(t: T.Tables, t': T.Tables) {
    && (forall k | k in t.streams :: k in t'.streams && t.streams[k] <= t'.streams[k])
    && |t.outbox| <= |t'.outbox|
    && forall i | 0 <= i < |t.outbox| ::
         && t'.outbox[i].id == t.outbox[i].id && t'.outbox[i].key == t.outbox[i].key
         && t'.outbox[i].message == t.outbox[i].message
         && (t.outbox[i].published ==> t'.outbox[i].published)
  }

  lemma AppendGrows(t: T.Tables, key: Key, e: Event)
    ensures Grows(t, T.Append(t, key, e).tables)
  {
    hide Replay;
  }

  lemma SubmitMoveGrows(cfg: Config, t: T.Tables, task: Task, oracle: Oracle)
    requires InSubmit(task)
    ensures Grows(t, SubmitStep(cfg, t, task, oracle).db)
  {
    hide Replay, VerdictOf, CreationOf;
  }

  lemma DrainMoveGrows(t: T.Tables, task: Task, oracle: Oracle)
    requires InDrain(task)
    ensures Grows(t, DrainStep(t, task, oracle).db)
  {
    hide Replay, AdviceIn, T.FirstUnpublished;
  }

  lemma HoldMoveGrows(cfg: Config, t: T.Tables, task: Task, oracle: Oracle)
    requires InHold(task)
    ensures Grows(t, HoldStep(cfg, t, task, oracle).db)
  {
    hide Replay, T.Load, HeldPayment, Expired;
  }

  lemma PumpMoveGrows(t: T.Tables, task: Task, oracle: Oracle)
    requires InPump(task)
    ensures Grows(t, PumpStep(t, task, oracle).db)
  {
    hide Replay, AdviceOf, T.Load;
  }

  lemma ReconcileMoveGrows(cfg: Config, t: T.Tables, task: Task, oracle: Oracle)
    requires InReconcile(task)
    ensures Grows(t, ReconcileStep(cfg, t, task, oracle).db)
  {
    hide Replay, AdviceIn, T.Load, NextAction;
  }

  lemma StayGrows(t: T.Tables)
    ensures Grows(t, t)
  {
  }

  lemma MoveGrows(cfg: Config, t: T.Tables, task: Task, oracle: Oracle)
    ensures Grows(t, Run(cfg, t, task, oracle).db)
  {
    hide Replay, SubmitStep, DrainStep, PumpStep, HoldStep, ReconcileStep, Grows;
    if InSubmit(task) {
      SubmitMoveGrows(cfg, t, task, oracle);
    } else if InDrain(task) {
      DrainMoveGrows(t, task, oracle);
    } else if InHold(task) {
      HoldMoveGrows(cfg, t, task, oracle);
    } else if InPump(task) {
      PumpMoveGrows(t, task, oracle);
    } else if InReconcile(task) {
      ReconcileMoveGrows(cfg, t, task, oracle);
    } else {
      StayGrows(t);
    }
  }

  // ------------------------------------- what a step keeps, and hands on

  /** Appending to a known stream is applying to the aggregate on record. */
  lemma AppendApplies(cfg: Config, t: T.Tables, requests: Ledger, key: Key, e: Event)
    requires TablesOk(cfg, t, requests) && key in t.streams
    ensures T.Load(t, key).Some?
    ensures var reply := T.Append(t, key, e);
      && reply.outcome == Applied(T.Load(t, key).value, e)
      && reply.tables == (if reply.outcome.Ok? then t.(streams := t.streams[key := t.streams[key] + [e]]) else t)
      && (reply.outcome.Ok? ==> T.Load(reply.tables, key) == Some(reply.outcome.value))
  {
    hide TablesOk, Disciplined, ParkedAsBuilt, Replay, Applied;
    KnownStream(cfg, t, requests, key);
    ReplayExtends(t.streams[key], e);
  }

  lemma LoadIsAt(cfg: Config, t: T.Tables, requests: Ledger, key: Key)
    requires TablesOk(cfg, t, requests) && T.Load(t, key).Some?
    ensures key in t.streams && key in requests && t.streams[key] != [] && Replay(t.streams[key]).Ok?
    ensures At(t, key) == T.Load(t, key).value
    ensures Coherent(At(t, key)) && Folds(At(t, key), t.streams[key])
  {
    KnownStream(cfg, t, requests, key);
    ReplayIsCoherent(t.streams[key]);
    ReplayFolds(t.streams[key]);
  }

  ghost predicate MoveOk(cfg: Config, requests: Ledger, trace: seq<Mark>, task: Task, move: Move) {
    && TablesOk(cfg, move.db, requests)
    && TaskOk(cfg, move.db, requests, trace + move.marks, move.next)
  }

  lemma CreatingMove(cfg: Config, t: T.Tables, requests: Ledger, trace: seq<Mark>, task: Task, oracle: Oracle)
    requires task.Creating? && TablesOk(cfg, t, requests)
    requires Asked(task.req.key) in trace ==> task.req.key in t.streams
    ensures var move := SubmitStep(cfg, t, task, oracle);
      && (move.marks == (if task.req.key in t.streams then [] else [Passed(task.req.key)]))
      && MoveOk(cfg, if move.marks != [] then requests[task.req.key := task.req] else requests, trace, task, move)
  {
    hide TablesOk;
    CreateKeepsTables(cfg, t, requests, task.req, task.now);
  }

  lemma ValidatingMove(cfg: Config, t: T.Tables, requests: Ledger, trace: seq<Mark>, task: Task, oracle: Oracle)
    requires task.Validating? && TablesOk(cfg, t, requests) && TaskOk(cfg, t, requests, trace, task)
    ensures MoveOk(cfg, requests, trace, task, SubmitStep(cfg, t, task, oracle))
  {
    hide TablesOk, Replay;
    var e := Event.Validated(task.now);
    AppendKeepsTables(cfg, t, requests, task.req.key, e);
    AppendApplies(cfg, t, requests, task.req.key, e);
    LoadIsAt(cfg, t, requests, task.req.key);
  }

  lemma RecordingMove(cfg: Config, t: T.Tables, requests: Ledger, trace: seq<Mark>, task: Task, oracle: Oracle)
    requires task.Recording? && TablesOk(cfg, t, requests) && TaskOk(cfg, t, requests, trace, task)
    ensures MoveOk(cfg, requests, trace, task, SubmitStep(cfg, t, task, oracle))
  {
    hide TablesOk, Replay, Sound, CreationOf;
    assert VerdictIn(CheckEvent(task.verdict, task.now)) == task.verdict;
    var key, checked := task.req.key, CheckEvent(task.verdict, task.now);
    LoadIsAt(cfg, t, requests, key);
    if checked.outcome.Hold? {
      ParkKeepsTables(cfg, t, requests, key, checked, task.now);
    } else {
      AppendKeepsTables(cfg, t, requests, key, checked);
      AppendApplies(cfg, t, requests, key, checked);
    }
  }

  lemma SubmittingMove(cfg: Config, t: T.Tables, requests: Ledger, trace: seq<Mark>, task: Task, oracle: Oracle)
    requires task.Submitting? && TablesOk(cfg, t, requests) && TaskOk(cfg, t, requests, trace, task)
    ensures MoveOk(cfg, requests, trace, task, SubmitStep(cfg, t, task, oracle))
  {
    hide TablesOk, Replay;
    LoadIsAt(cfg, t, requests, task.req.key);
    SubmitKeepsTables(cfg, t, requests, task.req.key, task.now);
  }

  lemma CheckingMove(cfg: Config, t: T.Tables, requests: Ledger, trace: seq<Mark>, task: Task, oracle: Oracle)
    requires task.Checking? && TablesOk(cfg, t, requests) && TaskOk(cfg, t, requests, trace, task)
    ensures MoveOk(cfg, requests, trace, task, SubmitStep(cfg, t, task, oracle))
  {
    hide TablesOk, Replay, VerdictOf;
    if oracle.Gate? {
      VerdictIsCalledFor(cfg.policy, oracle.answer, oracle.elapsedMs);
    } else {
      assert trace + [] == trace;
    }
  }

  // the drain

  lemma DrainingMove(cfg: Config, t: T.Tables, requests: Ledger, trace: seq<Mark>, task: Task, oracle: Oracle)
    requires task.Draining? || task.Sending? || task.Returning?
    requires TablesOk(cfg, t, requests) && TaskOk(cfg, t, requests, trace, task)
    ensures MoveOk(cfg, requests, trace, task, DrainStep(t, task, oracle))
  {
    hide Replay, StreamsOk, PlacesOk, PendingOk, MessagesOk;
  }

  lemma MarkingMove(cfg: Config, t: T.Tables, requests: Ledger, trace: seq<Mark>, task: Task, oracle: Oracle)
    requires task.Acknowledging? || task.Dropping?
    requires TablesOk(cfg, t, requests) && TaskOk(cfg, t, requests, trace, task)
    ensures MoveOk(cfg, requests, trace, task, DrainStep(t, task, oracle))
  {
    hide TablesOk, Replay, T.MarkPublished;
    MarkKeepsTables(cfg, t, requests, task.entry.id);
  }

  /** One entry per key: once this one is marked, the key is handed over. */
  lemma EntryIsTheOnlyOne(keys: set<Key>, outbox: seq<T.Entry>, nextId: int, entry: T.Entry)
    requires OutboxOk(keys, outbox, nextId) && EntryHere(outbox, entry) && outbox[entry.id].published
    ensures HandedOver(outbox, entry.key)
  {
  }

  lemma PublishingMove(cfg: Config, t: T.Tables, requests: Ledger, trace: seq<Mark>, task: Task, oracle: Oracle)
    requires task.Publishing? && TablesOk(cfg, t, requests) && TaskOk(cfg, t, requests, trace, task)
    ensures MoveOk(cfg, requests, trace, task, DrainStep(t, task, oracle))
  {
    hide Replay, StreamsOk, PlacesOk, PendingOk, MessagesOk, OutboxOk, HandedOver;
    EntryIsTheOnlyOne(t.streams.Keys, t.outbox, t.nextId, task.entry);
    AppendKeepsTables(cfg, t, requests, task.entry.key, Published(task.now));
    AppendGrows(t, task.entry.key, Published(task.now));
  }

  function AfterAdvice(task: Task): Task
    requires task.Advising? || task.Correlated? || task.QueryAdvising?
  {
    if task.Advising? then Draining(task.now, task.caller) else if task.Correlated? then Polling(task.now) else Done
  }

  lemma AdvisingSteps(cfg: Config, t: T.Tables, task: Task, oracle: Oracle)
    requires task.Advising? || task.Correlated? || task.QueryAdvising?
    ensures var move := Stay(T.Append(t, task.key, task.event).tables, AfterAdvice(task));
      && (task.Advising? ==> DrainStep(t, task, oracle) == move)
      && (task.Correlated? ==> PumpStep(t, task, oracle) == move)
      && (task.QueryAdvising? ==> ReconcileStep(cfg, t, task, oracle) == move)
  {
    hide T.Append;
  }

  /** Whoever applies an advice appends it, and goes on to something that relies on nothing new. */
  lemma AdvisingMove(cfg: Config, t: T.Tables, requests: Ledger, trace: seq<Mark>, task: Task, move: Move)
    requires task.Advising? || task.Correlated? || task.QueryAdvising?
    requires TablesOk(cfg, t, requests) && TaskOk(cfg, t, requests, trace, task)
    requires move == Stay(T.Append(t, task.key, task.event).tables, AfterAdvice(task))
    ensures MoveOk(cfg, requests, trace, task, move)
  {
    hide TablesOk, Replay, T.Append;
    AppendKeepsTables(cfg, t, requests, task.key, task.event);
    AppendGrows(t, task.key, task.event);
  }

  // the pump

  lemma PumpMove(cfg: Config, t: T.Tables, requests: Ledger, trace: seq<Mark>, task: Task, oracle: Oracle)
    requires task.Polling? || task.Listing? || task.Searching?
    requires TablesOk(cfg, t, requests) && TaskOk(cfg, t, requests, trace, task)
    ensures MoveOk(cfg, requests, trace, task, PumpStep(t, task, oracle))
  {
    hide TablesOk, Replay, T.Load;
  }

  // holds

  lemma FixedPointsAreAcceptable(reason: string)
    requires Sanitize(reason) == reason
    ensures Acceptable(reason)
  {
    UnspecifiedIsAcceptable();
  }

  lemma ExpiryReasonAcceptable()
    ensures Acceptable(EXPIRED_REASON)
  {
    var s := EXPIRED_REASON;
    assert forall j | 0 <= j < |s| :: IsLowerOrUnderscore(s[j]);
    assert forall i :: DigitsAt(s, i) ==> IsLowerOrUnderscore(s[i]);
    LongRunIsFiveDigits(s, |s|);
  }

  predicate IsLowerOrUnderscore(c: char) { 'a' <= c <= 'z' || c == '_' }

  lemma CancelCheckMove(cfg: Config, t: T.Tables, requests: Ledger, trace: seq<Mark>, task: Task, oracle: Oracle)
    requires task.CancelCheck? && TablesOk(cfg, t, requests) && TaskOk(cfg, t, requests, trace, task)
    ensures MoveOk(cfg, requests, trace, task, HoldStep(cfg, t, task, oracle))
  {
    hide TablesOk, Replay, T.Load, Sanitize, Acceptable, Expired;
    if HeldPayment(t, task.key, task.reason).Some? {
      FixedPointsAreAcceptable(task.reason);
    }
  }

  /** The hold time a payment carries was recorded by its hold. */
  lemma HoldOnRecord(cfg: Config, t: T.Tables, requests: Ledger, key: Key, now: int)
    requires TablesOk(cfg, t, requests) && T.Load(t, key).Some? && T.Load(t, key).value.state.Held?
    requires !Expired(cfg, T.Load(t, key).value, now)
    ensures Releasable(cfg, t, key, now)
  {
    hide TablesOk, Replay, T.Load, LastOf, IsExpired;
    LoadIsAt(cfg, t, requests, key);
    var e := HoldIsRecorded(t.streams[key]);
    assert HoldTime(e) == At(t, key).heldAt;
  }

  lemma ReleaseCheckMove(cfg: Config, t: T.Tables, requests: Ledger, trace: seq<Mark>, task: Task, oracle: Oracle)
    requires task.ReleaseCheck? && TablesOk(cfg, t, requests) && TaskOk(cfg, t, requests, trace, task)
    ensures MoveOk(cfg, requests, trace, task, HoldStep(cfg, t, task, oracle))
  {
    hide TablesOk, Replay, T.Load, Sanitize, Acceptable, Expired, Releasable;
    ExpiryReasonAcceptable();
    var p := HeldPayment(t, task.key, task.reason);
    if p.Some? {
      FixedPointsAreAcceptable(task.reason);
      if !Expired(cfg, p.value, task.now) {
        HoldOnRecord(cfg, t, requests, task.key, task.now);
      }
    }
  }

  lemma ReleasingMove(cfg: Config, t: T.Tables, requests: Ledger, trace: seq<Mark>, task: Task, oracle: Oracle)
    requires task.Releasing? && TablesOk(cfg, t, requests) && TaskOk(cfg, t, requests, trace, task)
    ensures MoveOk(cfg, requests, trace, task, HoldStep(cfg, t, task, oracle))
  {
    hide TablesOk, Replay, T.ReleaseParked, Acceptable;
    KnownStream(cfg, t, requests, task.key);
    var e :| e in t.streams[task.key] && HoldTime(e).Some? && !IsExpired(cfg.maxAge, e.at, task.event.at);
    ReleasedOnTime(cfg, requests[task.key], t.streams[task.key], e);
    ReleaseKeepsTables(cfg, t, requests, task.key, task.event);
    ReleaseGrows(cfg, t, task.key, task.event);
  }

  lemma ReleasedOnTime(cfg: Config, req: SubmitRequest, h: seq<Event>, e: Event)
    requires StreamOk(cfg, req, h) && e in h && HoldTime(e).Some?
    ensures Replay(h).Ok? && Replay(h).value.heldAt == Some(e.at)
  {
    HoldIsFinal(h, e);
  }

  lemma ReleaseGrows(cfg: Config, t: T.Tables, key: Key, e: Event)
    ensures Grows(t, T.ReleaseParked(cfg.hash, t, key, e).tables)
  {
    hide Replay;
  }

  lemma DiscardingMove(cfg: Config, t: T.Tables, requests: Ledger, trace: seq<Mark>, task: Task, oracle: Oracle)
    requires task.Discarding? || task.SweepDiscard?
    requires TablesOk(cfg, t, requests) && TaskOk(cfg, t, requests, trace, task)
    ensures MoveOk(cfg, requests, trace, task, HoldStep(cfg, t, task, oracle))
  {
    hide TablesOk, Replay, T.DiscardParked, Acceptable;
    DiscardKeepsTables(cfg, t, requests, task.key, task.event);
  }

  lemma SweepMove(cfg: Config, t: T.Tables, requests: Ledger, trace: seq<Mark>, task: Task, oracle: Oracle)
    requires task.Sweeping? || task.SweepCheck?
    requires TablesOk(cfg, t, requests) && TaskOk(cfg, t, requests, trace, task)
    ensures MoveOk(cfg, requests, trace, task, HoldStep(cfg, t, task, oracle))
  {
    hide TablesOk, Replay, T.Load, Acceptable;
    ExpiryReasonAcceptable();
  }

  // reconciliation

  lemma ReconcileCheckMove(cfg: Config, t: T.Tables, requests: Ledger, trace: seq<Mark>, task: Task, oracle: Oracle)
    requires task.ReconcileCheck? || task.AwaitingQuery?
    requires TablesOk(cfg, t, requests) && TaskOk(cfg, t, requests, trace, task)
    ensures MoveOk(cfg, requests, trace, task, ReconcileStep(cfg, t, task, oracle))
  {
    hide TablesOk, Replay, T.Load, LastOf;
    if task.ReconcileCheck? && T.Load(t, task.key).Some? {
      LoadIsAt(cfg, t, requests, task.key);
      if At(t, task.key).publishedAt.Some? {
        var e := PublicationIsRecorded(t.streams[task.key]);
      }
    }
  }

  lemma DeclaringMove(cfg: Config, t: T.Tables, requests: Ledger, trace: seq<Mark>, task: Task, oracle: Oracle)
    requires task.Declaring? && TablesOk(cfg, t, requests) && TaskOk(cfg, t, requests, trace, task)
    ensures MoveOk(cfg, requests, trace, task, ReconcileStep(cfg, t, task, oracle))
  {
    hide TablesOk, Replay;
    KnownStream(cfg, t, requests, task.key);
    var e :| e in t.streams[task.key] && e.Published? && task.event.at - e.at >= cfg.timeoutSecs;
    DeclaredOnTime(cfg, requests[task.key], t.streams[task.key], e);
    AppendKeepsTables(cfg, t, requests, task.key, task.event);
  }

  lemma DeclaredOnTime(cfg: Config, req: SubmitRequest, h: seq<Event>, e: Event)
    requires StreamOk(cfg, req, h) && e in h && e.Published?
    ensures Replay(h).Ok? && Replay(h).value.publishedAt == Some(e.at)
  {
    PublicationIsFinal(h, e);
  }

  lemma QueryingMove(cfg: Config, t: T.Tables, requests: Ledger, trace: seq<Mark>, task: Task, oracle: Oracle)
    requires task.Querying? && TablesOk(cfg, t, requests) && TaskOk(cfg, t, requests, trace, task)
    ensures MoveOk(cfg, requests, trace, task, ReconcileStep(cfg, t, task, oracle))
  {
    hide TablesOk, Replay, LastOf;
    if task.key in t.streams {
      KnownStream(cfg, t, requests, task.key);
      LoadIsAt(cfg, t, requests, task.key);
    }
    AppendKeepsTables(cfg, t, requests, task.key, task.event);
  }

  ghost predicate StepOk(cfg: Config, t: T.Tables, requests: Ledger, trace: seq<Mark>, task: Task, move: Move) {
    && (task.Creating? ==> move.marks == (if task.req.key in t.streams then [] else [Passed(task.req.key)]))
    && MoveOk(cfg, if task.Creating? && move.marks != [] then requests[task.req.key := task.req] else requests,
              trace, task, move)
  }

  lemma SubmitKeeps(cfg: Config, t: T.Tables, requests: Ledger, trace: seq<Mark>, task: Task, oracle: Oracle)
    requires InSubmit(task) && TablesOk(cfg, t, requests) && TaskOk(cfg, t, requests, trace, task)
    requires task.Creating? && Asked(task.req.key) in trace ==> task.req.key in t.streams
    ensures StepOk(cfg, t, requests, trace, task, SubmitStep(cfg, t, task, oracle))
  {
    hide TablesOk, MoveOk, TaskOk, SubmitStep;
    match task
    case Creating(_, _) => CreatingMove(cfg, t, requests, trace, task, oracle);
    case Validating(_, _) => ValidatingMove(cfg, t, requests, trace, task, oracle);
    case Checking(_, _) => CheckingMove(cfg, t, requests, trace, task, oracle);
    case Recording(_, _, _) => RecordingMove(cfg, t, requests, trace, task, oracle);
    case Submitting(_, _) => SubmittingMove(cfg, t, requests, trace, task, oracle);
  }

  lemma DrainKeeps(cfg: Config, t: T.Tables, requests: Ledger, trace: seq<Mark>, task: Task, oracle: Oracle)
    requires InDrain(task) && TablesOk(cfg, t, requests) && TaskOk(cfg, t, requests, trace, task)
    ensures StepOk(cfg, t, requests, trace, task, DrainStep(t, task, oracle))
  {
    hide TablesOk, MoveOk, TaskOk, DrainStep;
    match task
    case Draining(_, _) | Sending(_, _, _) | Returning(_) => DrainingMove(cfg, t, requests, trace, task, oracle);
    case Acknowledging(_, _, _, _) | Dropping(_, _, _) => MarkingMove(cfg, t, requests, trace, task, oracle);
    case Publishing(_, _, _, _) => PublishingMove(cfg, t, requests, trace, task, oracle);
    case Advising(_, _, _, _) =>
      AdvisingSteps(cfg, t, task, oracle);
      AdvisingMove(cfg, t, requests, trace, task, DrainStep(t, task, oracle));
  }

  lemma PumpKeeps(cfg: Config, t: T.Tables, requests: Ledger, trace: seq<Mark>, task: Task, oracle: Oracle)
    requires InPump(task) && TablesOk(cfg, t, requests) && TaskOk(cfg, t, requests, trace, task)
    ensures StepOk(cfg, t, requests, trace, task, PumpStep(t, task, oracle))
  {
    hide TablesOk, MoveOk, TaskOk, PumpStep;
    if task.Correlated? {
      AdvisingSteps(cfg, t, task, oracle);
      AdvisingMove(cfg, t, requests, trace, task, PumpStep(t, task, oracle));
    } else {
      PumpMove(cfg, t, requests, trace, task, oracle);
    }
  }

  lemma HoldKeeps(cfg: Config, t: T.Tables, requests: Ledger, trace: seq<Mark>, task: Task, oracle: Oracle)
    requires InHold(task) && TablesOk(cfg, t, requests) && TaskOk(cfg, t, requests, trace, task)
    ensures StepOk(cfg, t, requests, trace, task, HoldStep(cfg, t, task, oracle))
  {
    hide TablesOk, MoveOk, TaskOk, HoldStep;
    match task
    case ReleaseCheck(_, _, _, _) => ReleaseCheckMove(cfg, t, requests, trace, task, oracle);
    case CancelCheck(_, _, _, _) => CancelCheckMove(cfg, t, requests, trace, task, oracle);
    case Releasing(_, _, _) => ReleasingMove(cfg, t, requests, trace, task, oracle);
    case Discarding(_, _) | SweepDiscard(_, _, _, _) => DiscardingMove(cfg, t, requests, trace, task, oracle);
    case Sweeping(_) | SweepCheck(_, _) => SweepMove(cfg, t, requests, trace, task, oracle);
  }

  lemma ReconcileKeeps(cfg: Config, t: T.Tables, requests: Ledger, trace: seq<Mark>, task: Task, oracle: Oracle)
    requires InReconcile(task) && TablesOk(cfg, t, requests) && TaskOk(cfg, t, requests, trace, task)
    ensures StepOk(cfg, t, requests, trace, task, ReconcileStep(cfg, t, task, oracle))
  {
    hide TablesOk, MoveOk, TaskOk, ReconcileStep;
    match task
    case ReconcileCheck(_, _, _) | AwaitingQuery(_, _) => ReconcileCheckMove(cfg, t, requests, trace, task, oracle);
    case Declaring(_, _) => DeclaringMove(cfg, t, requests, trace, task, oracle);
    case Querying(_, _, _) => QueryingMove(cfg, t, requests, trace, task, oracle);
    case QueryAdvising(_, _) =>
      AdvisingSteps(cfg, t, task, oracle);
      AdvisingMove(cfg, t, requests, trace, task, ReconcileStep(cfg, t, task, oracle));
  }

  /** Every step keeps the tables, and leaves its task knowing what its next step needs. */
  lemma MoveKeeps(cfg: Config, t: T.Tables, requests: Ledger, trace: seq<Mark>, task: Task, oracle: Oracle)
    requires TablesOk(cfg, t, requests) && TaskOk(cfg, t, requests, trace, task)
    requires task.Creating? && Asked(task.req.key) in trace ==> task.req.key in t.streams
    ensures StepOk(cfg, t, requests, trace, task, Run(cfg, t, task, oracle))
  {
    hide TablesOk, MoveOk, TaskOk, StepOk, SubmitStep, DrainStep, PumpStep, HoldStep, ReconcileStep;
    if InSubmit(task) {
      SubmitKeeps(cfg, t, requests, trace, task, oracle);
    } else if InDrain(task) {
      DrainKeeps(cfg, t, requests, trace, task, oracle);
    } else if InPump(task) {
      PumpKeeps(cfg, t, requests, trace, task, oracle);
    } else if InHold(task) {
      HoldKeeps(cfg, t, requests, trace, task, oracle);
    } else if InReconcile(task) {
      ReconcileKeeps(cfg, t, requests, trace, task, oracle);
    } else {
      DoneMove(cfg, t, requests, trace, task);
    }
  }

  lemma DoneMove(cfg: Config, t: T.Tables, requests: Ledger, trace: seq<Mark>, task: Task)
    requires task.Done? || task.Aborted?
    requires TablesOk(cfg, t, requests) && TaskOk(cfg, t, requests, trace, task)
    ensures StepOk(cfg, t, requests, trace, task, Stay(t, task))
  {
    hide TablesOk;
  }
}
