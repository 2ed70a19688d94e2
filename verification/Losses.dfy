/** What becomes of every consumed entry, over whole runs, and exactly which payments are left stranded. */
module Losses {
  import opened Wrappers
  import opened Payments
  import opened Histories
  import opened Requests
  import opened Reconciliation
  import opened RiskGates
  import opened Protocol
  import opened Places
  import opened StoreInvariant
  import opened Interleaving
  import opened Footprints
  import opened Reachability
  import opened Guarantees
  import opened Limits
  import opened Handoffs
  import Sequential
  import T = Tables

  // --------------------------------------------- consumed, then recorded or not

  ghost predicate PublicationOnRecord(t: T.Tables, key: Key) {
    key in t.streams && LastOf(t.streams[key], PublishTime).Some?
  }

  /** Somebody is between the mark of this payment's entry and its `Published`. */
  ghost predicate BeingRecorded(w: World, key: Key) {
    exists id :: id in w.tasks && w.tasks[id].Publishing? && w.tasks[id].entry.key == key
  }

  /** The process crashed there. */
  ghost predicate CrashedUnrecorded(cfg: Config, labels: seq<Label>, n: nat, key: Key) {
    n < |labels| && labels[n].Crash? && BeingRecorded(Execute(cfg, labels[..n]), key)
  }

  ghost predicate EverCrashedUnrecorded(cfg: Config, labels: seq<Label>, key: Key) {
    exists n :: CrashedUnrecorded(cfg, labels, n, key)
  }

  /** The port rejected this payment's message, and its entry was consumed for it. */
  ghost predicate WasDropped(trace: seq<Mark>, key: Key) {
    exists i :: 0 <= i < |trace| && trace[i].Dropped? && trace[i].entry.key == key
  }

  /** What became of a consumed entry. */
  ghost predicate Accounted(cfg: Config, labels: seq<Label>, w: World, key: Key) {
    || PublicationOnRecord(w.db, key)
    || BeingRecorded(w, key)
    || WasDropped(w.trace, key)
    || EverCrashedUnrecorded(cfg, labels, key)
  }

  lemma LossRemembered(cfg: Config, labels: seq<Label>, action: Label, key: Key)
    ensures EverCrashedUnrecorded(cfg, labels, key) ==> EverCrashedUnrecorded(cfg, labels + [action], key)
    ensures action.Crash? && BeingRecorded(Execute(cfg, labels), key) ==>
      EverCrashedUnrecorded(cfg, labels + [action], key)
  {
    hide Execute, BeingRecorded;
    var more := labels + [action];
    assert more[..|labels|] == labels;
    if n: nat :| CrashedUnrecorded(cfg, labels, n, key) {
      assert more[..n] == labels[..n];
      assert CrashedUnrecorded(cfg, more, n, key);
    }
    if action.Crash? && BeingRecorded(Execute(cfg, labels), key) {
      assert CrashedUnrecorded(cfg, more, |labels|, key);
    }
  }

  lemma DropRemembered(trace: seq<Mark>, trace': seq<Mark>, key: Key)
    requires trace <= trace' && WasDropped(trace, key)
    ensures WasDropped(trace', key)
  {
    var i :| 0 <= i < |trace| && trace[i].Dropped? && trace[i].entry.key == key;
    assert trace'[i] == trace[i];
  }

  lemma PublicationKept(t: T.Tables, t': T.Tables, key: Key)
    requires Grows(t, t') && PublicationOnRecord(t, key)
    ensures PublicationOnRecord(t', key)
  {
    hide LastOf;
    LastOfKept(t.streams[key], t'.streams[key], PublishTime);
  }

  /** Recording the publication of a consumed entry leaves it on record, whoever recorded it first. */
  lemma PublishingRecords(cfg: Config, t: T.Tables, requests: Ledger, trace: seq<Mark>, task: Task, oracle: Oracle)
    requires TablesOk(cfg, t, requests) && TaskOk(cfg, t, requests, trace, task) && task.Publishing?
    ensures PublicationOnRecord(Run(cfg, t, task, oracle).db, task.entry.key)
  {
    hide TablesOk, Replay, T.Append, AdviceIn, LastOf;
    var key, e := task.entry.key, Published(task.now);
    assert T.InOutbox(t.outbox, key) by { assert t.outbox[task.entry.id].key == key; }
    QueuedIsKnown(cfg, t, requests, key);
    KnownStream(cfg, t, requests, key);
    LoadIsAt(cfg, t, requests, key);
    AppendApplies(cfg, t, requests, key, e);
    if At(t, key).state.Submitted? {
      LastIsNew(t.streams[key], e);
    }
  }

  lemma LastIsNew(h: seq<Event>, e: Event)
    requires e.Published?
    ensures LastOf(h + [e], PublishTime) == Some(e.at)
  {
    assert (h + [e])[|h|] == e;
  }

  lemma QueuedIsKnown(cfg: Config, t: T.Tables, requests: Ledger, key: Key)
    requires TablesOk(cfg, t, requests) && T.InOutbox(t.outbox, key)
    ensures key in t.streams
  {
    hide StreamsOk, PlacesOk, PendingOk, MessagesOk;
  }

  lemma AccountStep(cfg: Config, labels: seq<Label>, id: nat, oracle: Oracle, key: Key)
    requires WorldOk(cfg, Execute(cfg, labels)) && id in Execute(cfg, labels).tasks
    requires Accounted(cfg, labels, Execute(cfg, labels), key)
    ensures Accounted(cfg, labels + [Step(id, oracle)], Next(cfg, Execute(cfg, labels), Step(id, oracle)), key)
  {
    hide TablesOk, TraceOk, NoRepeats, SoleOwners, SoleReconcilers, Run, Execute, EverCrashedUnrecorded, PublicationOnRecord,
         WasDropped, Grows, TaskOk;
    var w := Execute(cfg, labels);
    var task, w' := w.tasks[id], Next(cfg, w, Step(id, oracle));
    LossRemembered(cfg, labels, Step(id, oracle), key);
    MoveGrows(cfg, w.db, task, oracle);
    if PublicationOnRecord(w.db, key) {
      PublicationKept(w.db, w'.db, key);
    } else if WasDropped(w.trace, key) {
      DropRemembered(w.trace, w'.trace, key);
    } else if BeingRecorded(w, key) {
      var other :| other in w.tasks && w.tasks[other].Publishing? && w.tasks[other].entry.key == key;
      if other == id {
        assert TaskOk(cfg, w.db, w.requests, w.trace, task);
        PublishingRecords(cfg, w.db, w.requests, w.trace, task, oracle);
      } else {
        assert w'.tasks[other] == w.tasks[other];
      }
    }
  }

  /** An entry is consumed by the drain that will record its publication, or drop it. */
  lemma ConsumedNow(cfg: Config, labels: seq<Label>, id: nat, oracle: Oracle, i: nat)
    requires WorldOk(cfg, Execute(cfg, labels)) && id in Execute(cfg, labels).tasks
    requires var w := Execute(cfg, labels); i < |w.db.outbox| && !w.db.outbox[i].published
    requires var w' := Next(cfg, Execute(cfg, labels), Step(id, oracle)); i < |w'.db.outbox| && w'.db.outbox[i].published
    ensures var w' := Next(cfg, Execute(cfg, labels), Step(id, oracle));
      Accounted(cfg, labels + [Step(id, oracle)], w', w'.db.outbox[i].key)
  {
    hide TablesOk, TraceOk, NoRepeats, SoleOwners, SoleReconcilers, Run, Execute, EverCrashedUnrecorded, PublicationOnRecord;
    var w := Execute(cfg, labels);
    var task, w' := w.tasks[id], Next(cfg, w, Step(id, oracle));
    OnlyHoldersMark(cfg, w, id, oracle, i);
    HoldingPassesOn(cfg, w.db, task, oracle);
    assert TaskOk(cfg, w.db, w.requests, w.trace, task);
    if task.Acknowledging? {
      assert w'.tasks[id].Publishing? && w'.tasks[id].entry == task.entry;
    } else {
      assert w'.trace[|w.trace|] == Dropped(task.entry);
    }
  }

  /** New entries are not consumed. */
  lemma NewEntriesUnpublished(cfg: Config, t: T.Tables, task: Task, oracle: Oracle, i: nat)
    requires |t.outbox| <= i < |Run(cfg, t, task, oracle).db.outbox|
    ensures !Run(cfg, t, task, oracle).db.outbox[i].published
  {
    hide SubmitStep, HoldStep, Replay, T.Extended, AdviceIn, AdviceOf, NextAction, T.Load, T.NextUnpublished;
    if InSubmit(task) {
      SubmittedUnpublished(cfg, t, task, oracle, i);
    } else if InHold(task) {
      ReleasedUnpublished(cfg, t, task, oracle, i);
    }
  }

  lemma SubmittedUnpublished(cfg: Config, t: T.Tables, task: Task, oracle: Oracle, i: nat)
    requires InSubmit(task) && |t.outbox| <= i < |SubmitStep(cfg, t, task, oracle).db.outbox|
    ensures !SubmitStep(cfg, t, task, oracle).db.outbox[i].published
  {
    hide Replay, T.Extended, VerdictOf, CreationOf;
  }

  lemma ReleasedUnpublished(cfg: Config, t: T.Tables, task: Task, oracle: Oracle, i: nat)
    requires InHold(task) && |t.outbox| <= i < |HoldStep(cfg, t, task, oracle).db.outbox|
    ensures !HoldStep(cfg, t, task, oracle).db.outbox[i].published
  {
    hide Replay, T.Extended, HeldPayment, Expired, T.Load;
  }

  /**
   * Over every run, a consumed entry's payment is published, or about to be, or was dropped because the port
   * rejected it, or a crash came between its mark and its `Published`.
   */
  lemma {:induction false} ConsumedIsAccounted(cfg: Config, labels: seq<Label>, i: nat)
    requires i < |Execute(cfg, labels).db.outbox| && Execute(cfg, labels).db.outbox[i].published
    ensures Accounted(cfg, labels, Execute(cfg, labels), Execute(cfg, labels).db.outbox[i].key)
    decreases |labels|
  {
    hide WorldOk, Run, CanStart, Accounted;
    if labels != [] {
      var front, action := labels[..|labels| - 1], labels[|labels| - 1];
      var w, w' := Execute(cfg, front), Execute(cfg, labels);
      EveryRun(cfg, front);
      assert labels == front + [action];
      if !action.Step? || action.id !in w.tasks {
        ConsumedIsAccounted(cfg, front, i);
        AccountIdle(cfg, front, action, w.db.outbox[i].key);
      } else {
        StillQueued(cfg, w, action.id, action.oracle, i);
        if w.db.outbox[i].published {
          ConsumedIsAccounted(cfg, front, i);
          AccountStep(cfg, front, action.id, action.oracle, w.db.outbox[i].key);
        } else {
          ConsumedNow(cfg, front, action.id, action.oracle, i);
        }
      }
    }
  }

  lemma StillQueued(cfg: Config, w: World, id: nat, oracle: Oracle, i: nat)
    requires WorldOk(cfg, w) && id in w.tasks
    requires var db := Run(cfg, w.db, w.tasks[id], oracle).db; i < |db.outbox| && db.outbox[i].published
    ensures i < |w.db.outbox| && w.db.outbox[i].key == Run(cfg, w.db, w.tasks[id], oracle).db.outbox[i].key
  {
    hide WorldOk, Run;
    if i < |w.db.outbox| {
      OnlyHoldersMark(cfg, w, id, oracle, i);
    } else {
      NewEntriesUnpublished(cfg, w.db, w.tasks[id], oracle, i);
    }
  }

  lemma AccountIdle(cfg: Config, labels: seq<Label>, action: Label, key: Key)
    requires !action.Step? || action.id !in Execute(cfg, labels).tasks
    requires Accounted(cfg, labels, Execute(cfg, labels), key)
    ensures Accounted(cfg, labels + [action], Next(cfg, Execute(cfg, labels), action), key)
  {
    hide Execute, EverCrashedUnrecorded, PublicationOnRecord, WasDropped;
    var w := Execute(cfg, labels);
    LossRemembered(cfg, labels, action, key);
    if BeingRecorded(w, key) && action.Start? {
      var other :| other in w.tasks && w.tasks[other].Publishing? && w.tasks[other].entry.key == key;
      assert Next(cfg, w, action).tasks[other] == w.tasks[other];
    }
  }

  // -------------------------------------------------------- stranded exactly

  /** A stranded payment was dropped, or lost in a crash before its publication was recorded. */
  lemma StrandedHow(cfg: Config, labels: seq<Label>, key: Key)
    requires Stranded(Execute(cfg, labels), key)
    ensures WasDropped(Execute(cfg, labels).trace, key) || EverCrashedUnrecorded(cfg, labels, key)
  {
    hide TablesOk, TraceOk, NoRepeats, TasksOk, Execute, EverCrashedUnrecorded, WasDropped, Replay, Stands, LastOf;
    var w := Execute(cfg, labels);
    EveryRun(cfg, labels);
    SubmittedIsQueued(cfg, w.db, w.requests, key);
    var i :| 0 <= i < |w.db.outbox| && w.db.outbox[i].key == key;
    ConsumedIsAccounted(cfg, labels, i);
    SubmittedIsUnpublished(cfg, w.db, w.requests, key);
  }

  lemma SubmittedIsUnpublished(cfg: Config, t: T.Tables, requests: Ledger, key: Key)
    requires TablesOk(cfg, t, requests) && Stands(t, key, PaymentState.Submitted)
    ensures !PublicationOnRecord(t, key)
  {
    hide TablesOk, Replay, LastOf;
    LoadIsAt(cfg, t, requests, key);
  }

  /** A drain that runs alone and drops an entry strands its payment. */
  lemma DropStrands(cfg: Config, w: World, id: nat, oracle: Oracle)
    requires WorldOk(cfg, w) && id in w.tasks && OneHolder(w.tasks) && HoldersOk(w) && w.tasks[id].Dropping?
    ensures Stranded(Next(cfg, w, Step(id, oracle)), w.tasks[id].entry.key)
  {
    hide TablesOk, TraceOk, NoRepeats, Run, SoleOwners, SoleReconcilers, Stands, HandedOver;
    var task, w' := w.tasks[id], Next(cfg, w, Step(id, oracle));
    var key := task.entry.key;
    assert TaskOk(cfg, w.db, w.requests, w.trace, task) && HolderOk(w.db, task);
    UnpublishedStands(cfg, w.db, w.requests, task.entry);
    MarkerMarks(cfg, w.db, w.requests, w.trace, task, oracle);
    SameStanding(w.db, w'.db, key, PaymentState.Submitted);
    OutboxInOrderOk(cfg, w.db, w.requests);
    MarkedIsHandedOver(w.db.streams.Keys, w.db, task.entry);
    HoldingPassesOn(cfg, w.db, task, oracle);
    forall other | other in w'.tasks
      ensures InHand(w'.tasks[other]) != Some(key)
    {
      if other != id {
        assert Holds(task) && !Holds(w.tasks[other]);
      }
    }
  }

  lemma MarkedIsHandedOver(keys: set<Key>, t: T.Tables, entry: T.Entry)
    requires OutboxOk(keys, t.outbox, t.nextId) && EntryHere(t.outbox, entry)
    ensures HandedOver(t.outbox[entry.id := t.outbox[entry.id].(published := true)], entry.key)
  {
  }

  lemma {:induction false} DroppedIsStranded(cfg: Config, labels: seq<Label>, key: Key)
    requires Exclusive(cfg, labels) && WasDropped(Execute(cfg, labels).trace, key)
    ensures Stranded(Execute(cfg, labels), key)
    decreases |labels|
  {
    hide WorldOk, Run, CanStart, Exclusive, Stranded, OneHolder, HoldersOk;
    if labels != [] {
      var front, action := labels[..|labels| - 1], labels[|labels| - 1];
      var w, w' := Execute(cfg, front), Execute(cfg, labels);
      ExclusiveSoFar(cfg, labels);
      EveryRun(cfg, front);
      if WasDropped(w.trace, key) {
        DroppedIsStranded(cfg, front, key);
        StrandedStays(cfg, w, action, key);
      } else {
        ExclusiveHolders(cfg, front);
        DroppedNow(cfg, w, action, key);
        DropStrands(cfg, w, action.id, action.oracle);
      }
    }
  }

  lemma DroppedNow(cfg: Config, w: World, action: Label, key: Key)
    requires !WasDropped(w.trace, key) && WasDropped(Next(cfg, w, action).trace, key)
    ensures action.Step? && action.id in w.tasks
    ensures w.tasks[action.id].Dropping? && w.tasks[action.id].entry.key == key
  {
    hide Run, CanStart;
    var w' := Next(cfg, w, action);
    AtMostOneMore(cfg, w, action);
    assert forall k | 0 <= k < |w.trace| :: w'.trace[k] == w.trace[k];
    var i :| 0 <= i < |w'.trace| && w'.trace[i].Dropped? && w'.trace[i].entry.key == key;
    DropReported(cfg, w.db, w.tasks[action.id], action.oracle, w'.trace[i]);
  }

  lemma DropReported(cfg: Config, t: T.Tables, task: Task, oracle: Oracle, mark: Mark)
    requires mark in Run(cfg, t, task, oracle).marks && mark.Dropped?
    ensures task.Dropping? && task.entry == mark.entry
  {
    hide Run, Written;
    MoveFootprint(cfg, t, task, oracle);
    assert MarkOk(cfg, t, task, Run(cfg, t, task, oracle).db, mark);
  }

  /** A crash between mark and `Published` strands the payment of a drain that ran alone. */
  lemma LostIsStranded(cfg: Config, labels: seq<Label>, n: nat, key: Key)
    requires Exclusive(cfg, labels) && CrashedUnrecorded(cfg, labels, n, key)
    ensures Stranded(Execute(cfg, labels), key)
  {
    hide Execute, WorldOk, Stranded, OneHolder, Stands;
    var before, after := labels[..n], labels[n + 1..];
    var w := Execute(cfg, before);
    var id :| id in w.tasks && w.tasks[id].Publishing? && w.tasks[id].entry.key == key;
    EveryRun(cfg, before);
    ExclusivePrefix(cfg, labels, n);
    ExclusiveHolders(cfg, before);
    assert HolderOk(w.db, w.tasks[id]);
    CrashStrands(cfg, w, id);
    Sequential.ExecuteExtends(cfg, before, Crash);
    StrandedForGood(cfg, before + [Crash], after, key);
    assert before + [Crash] + after == labels;
  }

  lemma ExclusivePrefix(cfg: Config, labels: seq<Label>, n: nat)
    requires Exclusive(cfg, labels) && n <= |labels|
    ensures Exclusive(cfg, labels[..n])
  {
    hide Execute, OneHolder;
    forall m | 0 <= m <= n
      ensures OneHolder(Execute(cfg, labels[..n][..m]).tasks)
    {
      assert labels[..n][..m] == labels[..m];
    }
  }

  /**
   * With drains one at a time, a payment is stranded in `SUBMITTED` exactly when its message was rejected and
   * its entry consumed, or a crash came between the mark of its entry and its `Published`.
   */
  lemma StrandedExactly(cfg: Config, labels: seq<Label>, key: Key)
    requires Exclusive(cfg, labels)
    ensures Stranded(Execute(cfg, labels), key) <==>
      WasDropped(Execute(cfg, labels).trace, key) || EverCrashedUnrecorded(cfg, labels, key)
  {
    hide Execute, Stranded, WasDropped, CrashedUnrecorded;
    if Stranded(Execute(cfg, labels), key) {
      StrandedHow(cfg, labels, key);
    } else if WasDropped(Execute(cfg, labels).trace, key) {
      DroppedIsStranded(cfg, labels, key);
    } else if EverCrashedUnrecorded(cfg, labels, key) {
      var n: nat :| CrashedUnrecorded(cfg, labels, n, key);
      LostIsStranded(cfg, labels, n, key);
    }
  }
}
