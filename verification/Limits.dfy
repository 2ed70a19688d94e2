/** What the send path does not promise: where a crash or a race leaves a payment short. */
module Limits {
  import opened Wrappers
  import opened Payments
  import opened Histories
  import opened Requests
  import opened Reconciliation
  import opened RiskGates
  import opened Protocol
  import opened Places
  import opened StoreInvariant
  import opened Interleaving
  import opened Footprints
  import opened Reachability
  import opened Sequential
  import T = Tables

  // --------------------------------------------- consumed but not published

  /** The payment a drain holds an entry of, between reading the entry and recording the publication. */
  function InHand(task: Task): Option<Key> {
    match task
    case Sending(entry, _, _) => Some(entry.key)
    case Acknowledging(entry, _, _, _) => Some(entry.key)
    case Publishing(entry, _, _, _) => Some(entry.key)
    case _ => None
  }

  /** `SUBMITTED`, its entry consumed, and no drain left to record the publication. */
  ghost predicate Stranded(w: World, key: Key) {
    && Stands(w.db, key, PaymentState.Submitted)
    && HandedOver(w.db.outbox, key)
    && forall id | id in w.tasks :: InHand(w.tasks[id]) != Some(key)
  }

  /** A crash after `mark_published` and before `Published` strands the payment. */
  lemma CrashStrands(cfg: Config, w: World, id: nat)
    requires WorldOk(cfg, w) && id in w.tasks
    requires var task := w.tasks[id]; task.Publishing? && Stands(w.db, task.entry.key, PaymentState.Submitted)
    ensures Stranded(Next(cfg, w, Crash), w.tasks[id].entry.key)
  {
    hide Replay, StreamsOk, PlacesOk, PendingOk, MessagesOk, TraceOk, NoRepeats, T.Load;
    assert TaskOk(cfg, w.db, w.requests, w.trace, w.tasks[id]);
    EntryIsTheOnlyOne(w.db.streams.Keys, w.db.outbox, w.db.nextId, w.tasks[id].entry);
  }

  /** A drain takes in hand only unpublished entries. */
  lemma HandsTakeUnpublished(cfg: Config, t: T.Tables, task: Task, oracle: Oracle, key: Key)
    requires HandedOver(t.outbox, key)
    requires InHand(task) != Some(key)
    ensures InHand(Run(cfg, t, task, oracle).next) != Some(key)
  {
    hide SubmitStep, PumpStep, HoldStep, ReconcileStep, Replay, T.Append, T.MarkPublished, AdviceIn;
    if InSubmit(task) {
      SubmitHoldsNothing(cfg, t, task, oracle);
    } else if InPump(task) || InHold(task) || InReconcile(task) {
      OthersHoldNothing(cfg, t, task, oracle);
    }
  }

  lemma SubmitHoldsNothing(cfg: Config, t: T.Tables, task: Task, oracle: Oracle)
    requires InSubmit(task)
    ensures InHand(SubmitStep(cfg, t, task, oracle).next).None?
  {
    hide Replay, T.Create, T.Append, T.Park, T.SubmitToOutbox, VerdictOf, CreationOf;
  }

  lemma OthersHoldNothing(cfg: Config, t: T.Tables, task: Task, oracle: Oracle)
    requires InPump(task) || InHold(task) || InReconcile(task)
    ensures InHand(Run(cfg, t, task, oracle).next).None?
  {
    hide SubmitStep, DrainStep, Replay, T.Append, T.ReleaseParked, T.DiscardParked, T.Load, AdviceIn, AdviceOf, NextAction,
         HeldPayment, Expired;
  }

  /** Entries handed over stay handed over, unless the payment is enqueued again. */
  lemma HandedOverStays(t: T.Tables, t': T.Tables, key: Key)
    requires Grows(t, t') && HandedOver(t.outbox, key) && T.InOutbox(t.outbox, key)
    requires forall i, j | 0 <= i < j < |t'.outbox| :: t'.outbox[i].key != t'.outbox[j].key
    ensures HandedOver(t'.outbox, key)
  {
    var i :| 0 <= i < |t.outbox| && t.outbox[i].key == key;
    assert t'.outbox[i].key == key && t'.outbox[i].published;
  }

  /** A submitted payment moves only when its publication is recorded. */
  lemma OnlyPublicationMoves(cfg: Config, w: World, id: nat, oracle: Oracle, key: Key)
    requires WorldOk(cfg, w) && id in w.tasks
    requires Stands(w.db, key, PaymentState.Submitted) && InHand(w.tasks[id]) != Some(key)
    ensures Stands(Next(cfg, w, Step(id, oracle)).db, key, PaymentState.Submitted)
  {
    hide TablesOk, TraceOk, NoRepeats, TaskOk, Run, Written, Replay, SoleOwners, SoleReconcilers, Grows;
    var task := w.tasks[id];
    var move := Run(cfg, w.db, task, oracle);
    StepKeepsTables(cfg, w, id, oracle);
    MoveFootprint(cfg, w.db, task, oracle);
    FootprintIsWrite(cfg, w.db, task, move);
    if move.db.streams != w.db.streams && Target(task) == Some(key) {
      assert TaskOk(cfg, w.db, w.requests, w.trace, task);
      SubmittedAcceptsNothingElse(cfg, w.db, w.requests, w.trace, task, move.db, Admitted(w, task, move.marks));
    }
  }

  lemma SubmittedAcceptsNothingElse(cfg: Config, t: T.Tables, requests: Ledger, trace: seq<Mark>, task: Task,
          t': T.Tables, requests': Ledger)
    requires TablesOk(cfg, t, requests) && TablesOk(cfg, t', requests') && TaskOk(cfg, t, requests, trace, task)
    requires Wrote(cfg, t, task, t') && Stands(t, Target(task).value, PaymentState.Submitted)
    ensures task.Publishing?
  {
    hide TablesOk, Replay, TaskOk;
    var key := Target(task).value;
    if OwnerOf(task).Some? {
      OwnedIsKnown(cfg, t, requests, trace, task);
    } else {
      LateWriters(cfg, t, requests, trace, task);
      var e := Written(cfg, task)[0];
      LoadIsAt(cfg, t, requests, key);
      KnownStream(cfg, t', requests', key);
      assert Written(cfg, task) == [e];
      ReplayExtends(t.streams[key], e);
      assert e.Published?;
      OnlyPublishersPublish(cfg, t, requests, trace, task);
    }
  }

  lemma OnlyPublishersPublish(cfg: Config, t: T.Tables, requests: Ledger, trace: seq<Mark>, task: Task)
    requires TaskOk(cfg, t, requests, trace, task) && !task.Creating? && OwnerOf(task).None? && Target(task).Some?
    requires |Written(cfg, task)| == 1 && Written(cfg, task)[0].Published?
    ensures task.Publishing?
  {
  }

  lemma StrandedStays(cfg: Config, w: World, action: Label, key: Key)
    requires WorldOk(cfg, w) && Stranded(w, key)
    ensures Stranded(Next(cfg, w, action), key)
  {
    hide TablesOk, TraceOk, NoRepeats, TasksOk, Replay, Run, T.Load, HandedOver, Grows;
    if action.Step? && action.id in w.tasks {
      var move := Run(cfg, w.db, w.tasks[action.id], action.oracle);
      OnlyPublicationMoves(cfg, w, action.id, action.oracle, key);
      HandsTakeUnpublished(cfg, w.db, w.tasks[action.id], action.oracle, key);
      MoveGrows(cfg, w.db, w.tasks[action.id], action.oracle);
      StepKeepsTables(cfg, w, action.id, action.oracle);
      SubmittedIsQueued(cfg, w.db, w.requests, key);
      OneEntryPerKey(cfg, move.db, Admitted(w, w.tasks[action.id], move.marks));
      HandedOverStays(w.db, move.db, key);
    }
  }

  lemma OneEntryPerKey(cfg: Config, t: T.Tables, requests: Ledger)
    requires TablesOk(cfg, t, requests)
    ensures forall i, j | 0 <= i < j < |t.outbox| :: t.outbox[i].key != t.outbox[j].key
  {
    hide StreamsOk, PlacesOk, PendingOk, MessagesOk;
  }

  lemma SubmittedIsQueued(cfg: Config, t: T.Tables, requests: Ledger, key: Key)
    requires TablesOk(cfg, t, requests) && Stands(t, key, PaymentState.Submitted)
    ensures T.InOutbox(t.outbox, key)
  {
    hide TablesOk, Replay;
    LoadIsAt(cfg, t, requests, key);
    KnownStream(cfg, t, requests, key);
  }

  /** A stranded payment stays `SUBMITTED` for good: no later run publishes, queries or settles it. */
  lemma {:induction false} StrandedForGood(cfg: Config, labels: seq<Label>, later: seq<Label>, key: Key)
    requires Stranded(Execute(cfg, labels), key)
    ensures Stranded(Execute(cfg, labels + later), key)
    ensures Stands(Execute(cfg, labels + later).db, key, PaymentState.Submitted)
    decreases |later|
  {
    hide Stranded, WorldOk, Next;
    if later == [] {
      assert labels + later == labels;
      StrandedStands(Execute(cfg, labels), key);
    } else {
      var front, last := later[..|later| - 1], later[|later| - 1];
      StrandedForGood(cfg, labels, front, key);
      EveryRun(cfg, labels + front);
      StrandedStays(cfg, Execute(cfg, labels + front), last, key);
      assert (labels + later)[..|labels + later| - 1] == labels + front;
      assert (labels + later)[|labels + later| - 1] == last;
      StrandedStands(Execute(cfg, labels + later), key);
    }
  }

  lemma StrandedStands(w: World, key: Key)
    requires Stranded(w, key)
    ensures Stands(w.db, key, PaymentState.Submitted)
  {
  }

  // --------------------------------------------------- racing reconcilers

  /** Two reconcile calls for `key`, both past their decision before either records its query. */
  function RacingCalls(a: nat, b: nat, key: Key, date: string, now: int): seq<Label> {
    var call := ReconcileCheck(key, date, now);
    [Start(a, call), Start(b, call), Step(a, Quiet), Step(b, Quiet), Step(a, Quiet), Step(b, Quiet)]
  }

  lemma AppendToStanding(t: T.Tables, key: Key, now: int)
    requires Stands(t, key, PaymentState.TimeoutUnresolved)
    ensures key in t.streams
    ensures var reply := T.Append(t, key, QuerySent(now));
      && reply.outcome.Ok?
      && reply.tables == t.(streams := t.streams[key := t.streams[key] + [QuerySent(now)]])
      && Stands(reply.tables, key, PaymentState.TimeoutUnresolved)
  {
    ReplayExtends(t.streams[key], QuerySent(now));
  }

  /** Both calls have decided to query, and neither has recorded it. */
  lemma BothDecide(cfg: Config, w: World, a: nat, b: nat, key: Key, date: string, now: int)
    requires !cfg.serial && a != b && a !in w.tasks && b !in w.tasks
    requires Stands(w.db, key, PaymentState.TimeoutUnresolved)
    requires NextAction(T.Load(w.db, key).value, now, cfg.timeoutSecs, cfg.backoffSecs).SendQuery?
    ensures var labels := RacingCalls(a, b, key, date, now);
      var w4 := Next(cfg, Next(cfg, Next(cfg, Next(cfg, w, labels[0]), labels[1]), labels[2]), labels[3]);
      w4.db == w.db && a in w4.tasks && b in w4.tasks && w4.tasks[a] == w4.tasks[b] == Querying(key, date, QuerySent(now))
  {
    hide Replay, T.Append, T.Load, NextAction;
  }

  lemma BothRecord(cfg: Config, w: World, a: nat, b: nat, key: Key, date: string, now: int)
    requires a != b && a in w.tasks && b in w.tasks
    requires w.tasks[a] == w.tasks[b] == Querying(key, date, QuerySent(now))
    requires Stands(w.db, key, PaymentState.TimeoutUnresolved)
    ensures key in w.db.streams
    ensures var w' := Next(cfg, Next(cfg, w, Step(a, Quiet)), Step(b, Quiet));
      w'.db.streams == w.db.streams[key := w.db.streams[key] + [QuerySent(now), QuerySent(now)]]
  {
    hide Replay, T.Append, T.Load, NextAction;
    AppendToStanding(w.db, key, now);
    AppendToStanding(Next(cfg, w, Step(a, Quiet)).db, key, now);
    assert w.db.streams[key] + [QuerySent(now)] + [QuerySent(now)] == w.db.streams[key] + [QuerySent(now), QuerySent(now)];
  }

  /** Without the one-at-a-time discipline the backoff fails, whatever its length: two queries go out at the same time. */
  lemma RacingReconcilersBothQuery(cfg: Config, labels: seq<Label>, a: nat, b: nat, key: Key, date: string, now: int)
    requires var w := Execute(cfg, labels);
      && !cfg.serial && a != b && a !in w.tasks && b !in w.tasks
      && Stands(w.db, key, PaymentState.TimeoutUnresolved)
      && NextAction(T.Load(w.db, key).value, now, cfg.timeoutSecs, cfg.backoffSecs).SendQuery?
    ensures var before := Execute(cfg, labels).db.streams;
      var after := Execute(cfg, labels + RacingCalls(a, b, key, date, now)).db.streams;
      key in before && after == before[key := before[key] + [QuerySent(now), QuerySent(now)]]
  {
    hide Replay, T.Append, T.Load, NextAction, Execute, Next;
    var racing := RacingCalls(a, b, key, date, now);
    BothDecide(cfg, Execute(cfg, labels), a, b, key, date, now);
    SixMore(cfg, labels, racing);
    var w := Execute(cfg, labels);
    var w4 := Next(cfg, Next(cfg, Next(cfg, Next(cfg, w, racing[0]), racing[1]), racing[2]), racing[3]);
    BothRecord(cfg, w4, a, b, key, date, now);
  }

  // ------------------------------------------------------- racing drains

  /** Two drains, both past reading the next entry before either sends it. */
  function RacingDrains(a: nat, b: nat, now: int): seq<Label> {
    var call := Draining(now, None);
    [Start(a, call), Start(b, call), Step(a, Quiet), Step(b, Quiet), Step(a, Port(Accepted)), Step(b, Port(Accepted))]
  }

  lemma BothSend(cfg: Config, w: World, a: nat, b: nat, now: int)
    requires a != b && a !in w.tasks && b !in w.tasks && T.NextUnpublished(w.db).Some?
    ensures var entry, labels := T.NextUnpublished(w.db).value, RacingDrains(a, b, now);
      var w4 := Next(cfg, Next(cfg, Next(cfg, Next(cfg, w, labels[0]), labels[1]), labels[2]), labels[3]);
      Next(cfg, Next(cfg, w4, labels[4]), labels[5]).trace == w.trace + [HandedOff(entry, Accepted), HandedOff(entry, Accepted)]
  {
    hide Replay, T.NextUnpublished;
    var entry, labels := T.NextUnpublished(w.db).value, RacingDrains(a, b, now);
    var w2 := Next(cfg, Next(cfg, w, labels[0]), labels[1]);
    assert w2.db == w.db && w2.tasks == w.tasks[a := Draining(now, None)][b := Draining(now, None)] && w2.trace == w.trace;
    var w4 := Next(cfg, Next(cfg, w2, labels[2]), labels[3]);
    assert w4.db == w.db && w4.tasks[a] == w4.tasks[b] == Sending(entry, now, None) && w4.trace == w.trace + [] + [];
    var w6 := Next(cfg, Next(cfg, w4, labels[4]), labels[5]);
    assert w6.trace == w.trace + [HandedOff(entry, Accepted)] + [HandedOff(entry, Accepted)];
  }

  /** Reading, sending and marking are three steps: two drains at once can both hand the same entry off, accepted twice. */
  lemma RacingDrainsBothSend(cfg: Config, labels: seq<Label>, a: nat, b: nat, now: int)
    requires var w := Execute(cfg, labels);
      a != b && a !in w.tasks && b !in w.tasks && T.NextUnpublished(w.db).Some?
    ensures var w := Execute(cfg, labels);
      var entry := T.NextUnpublished(w.db).value;
      Execute(cfg, labels + RacingDrains(a, b, now)).trace == w.trace + [HandedOff(entry, Accepted), HandedOff(entry, Accepted)]
  {
    hide T.NextUnpublished, Execute, Next;
    var racing := RacingDrains(a, b, now);
    BothSend(cfg, Execute(cfg, labels), a, b, now);
    SixMore(cfg, labels, racing);
  }

  lemma SixMore(cfg: Config, labels: seq<Label>, more: seq<Label>)
    requires |more| == 6
    ensures var w4 := Next(cfg, Next(cfg, Next(cfg, Next(cfg, Execute(cfg, labels), more[0]), more[1]), more[2]), more[3]);
      Execute(cfg, labels + more) == Next(cfg, Next(cfg, w4, more[4]), more[5])
  {
    hide Execute, Next;
    ExecuteExtends(cfg, labels, more[0]);
    ExecuteExtends(cfg, labels + more[..1], more[1]);
    ExecuteExtends(cfg, labels + more[..2], more[2]);
    ExecuteExtends(cfg, labels + more[..3], more[3]);
    ExecuteExtends(cfg, labels + more[..4], more[4]);
    ExecuteExtends(cfg, labels + more[..5], more[5]);
    assert labels + more[..1] == labels + [more[0]];
    assert labels + more[..2] == labels + more[..1] + [more[1]];
    assert labels + more[..3] == labels + more[..2] + [more[2]];
    assert labels + more[..4] == labels + more[..3] + [more[3]];
    assert labels + more[..5] == labels + more[..4] + [more[4]];
    assert labels + more == labels + more[..5] + [more[5]];
  }
}
