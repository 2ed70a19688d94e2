/** What one step may write and report: at most its own events, at the end of one stream. */
module Footprints {
  import opened Wrappers
  import opened Payments
  import opened Histories
  import opened Requests
  import opened Reconciliation
  import opened RiskGates
  import opened Protocol
  import opened Interleaving
  import T = Tables

  /** The payment whose stream a task's next step may extend. */
  function Target(task: Task): Option<Key> {
    match task
    case Creating(req, _) => Some(req.key)
    case Validating(req, _) => Some(req.key)
    case Recording(req, _, _) => Some(req.key)
    case Submitting(req, _) => Some(req.key)
    case Publishing(entry, _, _, _) => Some(entry.key)
    case Advising(key, _, _, _) => Some(key)
    case Correlated(key, _, _) => Some(key)
    case Releasing(key, _, _) => Some(key)
    case Discarding(key, _) => Some(key)
    case SweepDiscard(key, _, _, _) => Some(key)
    case Declaring(key, _) => Some(key)
    case Querying(key, _, _) => Some(key)
    case QueryAdvising(key, _) => Some(key)
    case _ => None
  }

  /** The events it may extend that stream with. */
  function Written(cfg: Config, task: Task): seq<Event> {
    match task
    case Creating(req, now) => [CreationOf(cfg, req, now)]
    case Validating(_, now) => [Event.Validated(now)]
    case Recording(req, now, verdict) =>
      if verdict.outcome.Hold? then [CheckEvent(verdict, now), HoldParked(cfg.hash(cfg.build(req)), now)]
      else [CheckEvent(verdict, now)]
    case Submitting(_, now) => [Event.Submitted(now)]
    case Publishing(_, _, now, _) => [Published(now)]
    case Advising(_, event, _, _) => [event]
    case Correlated(_, event, _) => [event]
    case Releasing(_, event, _) => [event]
    case Discarding(_, event) => [event]
    case SweepDiscard(_, event, _, _) => [event]
    case Declaring(_, event) => [event]
    case Querying(_, _, event) => [event]
    case QueryAdvising(_, event) => [event]
    case _ => []
  }

  function Recorded(t: T.Tables, key: Key): seq<Event> { if key in t.streams then t.streams[key] else [] }

  ghost predicate Wrote(cfg: Config, t: T.Tables, task: Task, t': T.Tables) {
    && Target(task).Some?
    && (task.Creating? <==> Target(task).value !in t.streams)
    && t'.streams == t.streams[Target(task).value := Recorded(t, Target(task).value) + Written(cfg, task)]
  }

  /** Why a step reports what it reports. */
  ghost predicate MarkOk(cfg: Config, t: T.Tables, task: Task, t': T.Tables, mark: Mark) {
    match mark
    case Passed(key) => task.Creating? && task.req.key == key && Wrote(cfg, t, task, t')
    case Asked(key) => task.Checking? && task.req.key == key
    case HandedOff(entry, _) => task.Sending? && task.entry == entry && t' == t
    case Dropped(entry) => task.Dropping? && task.entry == entry && t' == T.MarkPublished(t, entry.id)
    case Resolved(key) =>
      (task.Releasing? || task.Discarding? || task.SweepDiscard?) && task.key == key && Wrote(cfg, t, task, t')
    case Queried(key, number, date) =>
      && task.Querying? && task.key == key && task.date == date && Wrote(cfg, t, task, t')
      && T.Load(t', key).Some? && T.Load(t', key).value.queriesSent == number
  }

  /** A step writes its own events to its own stream or nothing, and reports at most one thing, truthfully. */
  ghost predicate FootprintOk(cfg: Config, t: T.Tables, task: Task, move: Move) {
    && (move.db.streams == t.streams || Wrote(cfg, t, task, move.db))
    && |move.marks| <= 1
    && (forall mark | mark in move.marks :: MarkOk(cfg, t, task, move.db, mark))
    && (task.Creating? && Wrote(cfg, t, task, move.db) ==> move.marks == [Passed(task.req.key)])
    && ((task.Releasing? || task.Discarding? || task.SweepDiscard?) && move.db.streams != t.streams ==>
          move.marks == [Resolved(task.key)])
  }

  /** Appending one event writes that event or nothing, and the new aggregate is the one on record. */
  lemma AppendFootprint(t: T.Tables, key: Key, e: Event)
    ensures var reply := T.Append(t, key, e);
      && (reply.outcome.Err? ==> reply.tables == t)
      && (reply.outcome.Ok? ==>
            && key in t.streams
            && reply.tables == t.(streams := t.streams[key := t.streams[key] + [e]])
            && T.Load(reply.tables, key) == Some(reply.outcome.value))
  {
    hide Replay;
  }

  lemma SubmitFootprint(cfg: Config, t: T.Tables, task: Task, oracle: Oracle)
    requires InSubmit(task)
    ensures FootprintOk(cfg, t, task, SubmitStep(cfg, t, task, oracle))
  {
    hide Replay, VerdictOf;
    if task.Creating? {
      assert CreationOf(cfg, task.req, task.now).key == task.req.key;
      assert [] + Written(cfg, task) == [CreationOf(cfg, task.req, task.now)];
    }
  }

  lemma DrainFootprint(cfg: Config, t: T.Tables, task: Task, oracle: Oracle)
    requires InDrain(task)
    ensures FootprintOk(cfg, t, task, DrainStep(t, task, oracle))
  {
    hide Replay, AdviceIn, T.FirstUnpublished, T.Append;
    if task.Publishing? {
      AppendFootprint(t, task.entry.key, Published(task.now));
    } else if task.Advising? {
      AppendFootprint(t, task.key, task.event);
    }
  }

  lemma HoldFootprint(cfg: Config, t: T.Tables, task: Task, oracle: Oracle)
    requires InHold(task)
    ensures FootprintOk(cfg, t, task, HoldStep(cfg, t, task, oracle))
  {
    hide Replay, T.Load, HeldPayment, Expired, T.Append;
    if task.Releasing? || task.Discarding? || task.SweepDiscard? {
      AppendFootprint(t, task.key, task.event);
      if task.key in t.streams {
        assert |t.streams[task.key] + [task.event]| > |t.streams[task.key]|;
      }
    }
  }

  lemma PumpFootprint(cfg: Config, t: T.Tables, task: Task, oracle: Oracle)
    requires InPump(task)
    ensures FootprintOk(cfg, t, task, PumpStep(t, task, oracle))
  {
    hide Replay, AdviceOf, T.Load, T.Append;
    if task.Correlated? {
      AppendFootprint(t, task.key, task.event);
    }
  }

  lemma ReconcileFootprint(cfg: Config, t: T.Tables, task: Task, oracle: Oracle)
    requires InReconcile(task)
    ensures FootprintOk(cfg, t, task, ReconcileStep(cfg, t, task, oracle))
    ensures var db := ReconcileStep(cfg, t, task, oracle).db;
      db.outbox == t.outbox && db.nextId == t.nextId && db.parked == t.parked
  {
    hide Replay, AdviceIn, T.Load, T.Append, NextAction;
    if task.Declaring? || task.Querying? || task.QueryAdvising? {
      AppendFootprint(t, task.key, task.event);
    }
  }

  lemma MoveFootprint(cfg: Config, t: T.Tables, task: Task, oracle: Oracle)
    ensures FootprintOk(cfg, t, task, Run(cfg, t, task, oracle))
  {
    hide Replay, SubmitStep, DrainStep, PumpStep, HoldStep, ReconcileStep, FootprintOk;
    if InSubmit(task) {
      SubmitFootprint(cfg, t, task, oracle);
    } else if InDrain(task) {
      DrainFootprint(cfg, t, task, oracle);
    } else if InHold(task) {
      HoldFootprint(cfg, t, task, oracle);
    } else if InPump(task) {
      PumpFootprint(cfg, t, task, oracle);
    } else if InReconcile(task) {
      ReconcileFootprint(cfg, t, task, oracle);
    } else {
      IdleFootprint(cfg, t, task);
    }
  }

  lemma IdleFootprint(cfg: Config, t: T.Tables, task: Task)
    ensures FootprintOk(cfg, t, task, Stay(t, task))
  {
  }

  /** A step hands on its ownership and its reconciliation, and takes nobody else's. */
  lemma MoveSuccession(cfg: Config, t: T.Tables, task: Task, oracle: Oracle)
    ensures var move := Run(cfg, t, task, oracle);
      && (OwnerOf(move.next).Some? ==>
            OwnerOf(move.next) == OwnerOf(task)
            || (task.Creating? && move.marks != [] && OwnerOf(move.next) == Some(task.req.key)))
      && (Reconciling(move.next).Some? ==> Reconciling(move.next) == Reconciling(task))
      && (task.Checking? ==> !move.next.Checking? || move.marks == [])
  {
    hide Replay, T.Create, T.Append, T.Park, T.SubmitToOutbox, T.ReleaseParked, T.DiscardParked, T.MarkPublished,
         T.NextUnpublished, T.Load, VerdictOf, CreationOf, AdviceIn, AdviceOf, NextAction, HeldPayment, Expired;
  }
}
