/** How often, and in which order, the port accepts what it is given, over whole runs. */
module Handoffs {
  import opened Wrappers
  import opened Payments
  import opened Histories
  import opened Requests
  import opened Reconciliation
  import opened RiskGates
  import opened Protocol
  import opened Places
  import opened StoreInvariant
  import opened Interleaving
  import opened Footprints
  import opened Reachability
  import opened Guarantees
  import opened Limits
  import T = Tables

  // ------------------------------------------------------ runs and prefixes

  /** Between reading an entry and recording what became of it. */
  predicate Holds(task: Task) { task.Sending? || task.Acknowledging? || task.Publishing? || task.Dropping? }

  ghost predicate OneHolder(tasks: map<nat, Task>) {
    forall i, j | i in tasks && j in tasks && i != j :: !(Holds(tasks[i]) && Holds(tasks[j]))
  }

  /** Drains run one at a time: at no moment of the run do two of them hold an entry. */
  ghost predicate Exclusive(cfg: Config, labels: seq<Label>) {
    forall n | 0 <= n <= |labels| :: OneHolder(Execute(cfg, labels[..n]).tasks)
  }

  lemma ExclusiveSoFar(cfg: Config, labels: seq<Label>)
    requires Exclusive(cfg, labels)
    ensures OneHolder(Execute(cfg, labels).tasks)
    ensures labels != [] ==> Exclusive(cfg, labels[..|labels| - 1])
  {
    hide Execute, OneHolder;
    assert labels[..|labels|] == labels;
    if labels != [] {
      var front := labels[..|labels| - 1];
      forall n | 0 <= n <= |front|
        ensures OneHolder(Execute(cfg, front[..n]).tasks)
      {
        assert front[..n] == labels[..n];
      }
    }
  }

  lemma ExclusiveExtends(cfg: Config, labels: seq<Label>, action: Label)
    requires Exclusive(cfg, labels) && OneHolder(Execute(cfg, labels + [action]).tasks)
    ensures Exclusive(cfg, labels + [action])
  {
    hide Execute, OneHolder;
    var more := labels + [action];
    forall n | 0 <= n <= |more|
      ensures OneHolder(Execute(cfg, more[..n]).tasks)
    {
      if n <= |labels| {
        assert more[..n] == labels[..n];
      } else {
        assert more[..n] == more;
      }
    }
  }

  /** What has been reported stays reported. */
  lemma {:induction false} TraceGrows(cfg: Config, labels: seq<Label>, n: nat)
    requires n <= |labels|
    ensures Execute(cfg, labels[..n]).trace <= Execute(cfg, labels).trace
    decreases |labels|
  {
    if n == |labels| {
      assert labels[..n] == labels;
    } else {
      var front := labels[..|labels| - 1];
      assert front[..n] == labels[..n];
      TraceGrows(cfg, front, n);
      NextReports(cfg, Execute(cfg, front), labels[|labels| - 1]);
    }
  }

  lemma NextReports(cfg: Config, w: World, action: Label)
    ensures w.trace <= Next(cfg, w, action).trace
  {
    hide Run, CanStart;
  }

  // --------------------------------------------------------- who marks what

  /** Only a drain that holds an entry changes a mark, and only that entry's. */
  lemma OnlyHoldersMark(cfg: Config, w: World, id: nat, oracle: Oracle, i: nat)
    requires WorldOk(cfg, w) && id in w.tasks && i < |w.db.outbox|
    ensures var db := Run(cfg, w.db, w.tasks[id], oracle).db;
      && i < |db.outbox| && db.outbox[i].key == w.db.outbox[i].key
      && (db.outbox[i].published <==>
            w.db.outbox[i].published
            || ((w.tasks[id].Acknowledging? || w.tasks[id].Dropping?) && w.tasks[id].entry.id == i))
  {
    hide TablesOk, TraceOk, NoRepeats, TaskOk, Run, SoleOwners, SoleReconcilers;
    var task := w.tasks[id];
    assert TaskOk(cfg, w.db, w.requests, w.trace, task);
    MoveGrows(cfg, w.db, task, oracle);
    if task.Acknowledging? || task.Dropping? {
      MarkerMarks(cfg, w.db, w.requests, w.trace, task, oracle);
    } else {
      OthersDoNotMark(cfg, w.db, task, oracle);
    }
  }

  lemma MarkerMarks(cfg: Config, t: T.Tables, requests: Ledger, trace: seq<Mark>, task: Task, oracle: Oracle)
    requires task.Acknowledging? || task.Dropping?
    requires TablesOk(cfg, t, requests) && TaskOk(cfg, t, requests, trace, task)
    ensures 0 <= task.entry.id < |t.outbox|
    ensures Run(cfg, t, task, oracle).db
         == t.(outbox := t.outbox[task.entry.id := t.outbox[task.entry.id].(published := true)])
  {
    hide StreamsOk, PlacesOk, PendingOk, MessagesOk, T.MarkPublished;
    MarksAtPosition(t.streams.Keys, t, task.entry.id);
  }

  lemma OthersDoNotMark(cfg: Config, t: T.Tables, task: Task, oracle: Oracle)
    requires !task.Acknowledging? && !task.Dropping?
    ensures var db := Run(cfg, t, task, oracle).db;
      |t.outbox| <= |db.outbox| && db.outbox[..|t.outbox|] == t.outbox
  {
    hide Replay, T.Create, T.Append, T.Load, T.NextUnpublished, VerdictOf, CreationOf, AdviceIn, AdviceOf, NextAction,
         HeldPayment, Expired, T.Extended, PumpStep, ReconcileStep, SubmitStep, HoldStep;
    if InSubmit(task) {
      SubmitDoesNotMark(cfg, t, task, oracle);
    } else if InDrain(task) {
      if task.Publishing? {
        AppendKeepsOutbox(t, task.entry.key, Published(task.now));
      } else if task.Advising? {
        AppendKeepsOutbox(t, task.key, task.event);
      }
    } else if InPump(task) {
      PumpDoesNotMark(t, task, oracle);
    } else if InHold(task) {
      HoldDoesNotMark(cfg, t, task, oracle);
    } else if InReconcile(task) {
      ReconcileFootprint(cfg, t, task, oracle);
    }
  }

  lemma AppendKeepsOutbox(t: T.Tables, key: Key, e: Event)
    ensures T.Append(t, key, e).tables.outbox == t.outbox
  {
    hide Replay;
  }

  lemma SubmitDoesNotMark(cfg: Config, t: T.Tables, task: Task, oracle: Oracle)
    requires InSubmit(task)
    ensures var db := SubmitStep(cfg, t, task, oracle).db;
      |t.outbox| <= |db.outbox| && db.outbox[..|t.outbox|] == t.outbox
  {
    hide Replay, T.Extended, VerdictOf, CreationOf;
  }

  lemma HoldDoesNotMark(cfg: Config, t: T.Tables, task: Task, oracle: Oracle)
    requires InHold(task)
    ensures var db := HoldStep(cfg, t, task, oracle).db;
      |t.outbox| <= |db.outbox| && db.outbox[..|t.outbox|] == t.outbox
  {
    hide Replay, T.Extended, T.Load, HeldPayment, Expired;
  }

  lemma PumpDoesNotMark(t: T.Tables, task: Task, oracle: Oracle)
    requires InPump(task)
    ensures var db := PumpStep(t, task, oracle).db;
      |t.outbox| <= |db.outbox| && db.outbox[..|t.outbox|] == t.outbox
  {
    hide Replay, T.Append, T.Load, AdviceOf;
    if task.Correlated? {
      AppendKeepsOutbox(t, task.key, task.event);
    }
  }

  /** How a task comes to hold an entry, and passes it on. */
  lemma HoldingPassesOn(cfg: Config, t: T.Tables, task: Task, oracle: Oracle)
    ensures var move := Run(cfg, t, task, oracle);
      && (move.next.Sending? ==>
            (task.Draining? && T.NextUnpublished(t) == Some(move.next.entry) && move.db == t) || move.next == task)
      && (move.next.Acknowledging? ==>
            task.Sending? && task.entry == move.next.entry && move.db == t
            && move.marks == [HandedOff(task.entry, move.next.answer)] && Confirms(move.next.answer))
      && (move.next.Dropping? ==> task.Sending? && task.entry == move.next.entry && move.db == t)
      && (move.next.Publishing? ==> task.Acknowledging? && task.entry == move.next.entry)
      && (task.Acknowledging? ==> move.next.Publishing?)
      && (task.Dropping? ==> move.marks == [Dropped(task.entry)])
      && (forall mark | mark in move.marks && mark.HandedOff? ::
            task.Sending? && task.entry == mark.entry && (Confirms(mark.answer) ==> move.next.Acknowledging?))
  {
    hide Replay, T.Create, T.Append, T.Park, T.SubmitToOutbox, T.ReleaseParked, T.DiscardParked, T.MarkPublished,
         T.NextUnpublished, T.Load, VerdictOf, CreationOf, AdviceIn, AdviceOf, NextAction, HeldPayment, Expired;
  }

  /** The port took the message. */
  predicate Confirms(answer: PortAnswer) { answer.Advice? || answer.Accepted? }

  // ------------------------------------------------------ exclusive drains

  /** What a drain that runs alone can rely on while it holds an entry. */
  ghost predicate HolderOk(t: T.Tables, task: Task) {
    && (task.Sending? || task.Acknowledging? || task.Dropping? ==>
          0 <= task.entry.id < |t.outbox| && !t.outbox[task.entry.id].published)
    && (task.Publishing? ==> Stands(t, task.entry.key, PaymentState.Submitted))
  }

  ghost predicate HoldersOk(w: World) {
    forall id | id in w.tasks :: HolderOk(w.db, w.tasks[id])
  }

  lemma NextIsInPlace(keys: set<Key>, t: T.Tables)
    requires OutboxOk(keys, t.outbox, t.nextId) && T.NextUnpublished(t).Some?
    ensures var entry := T.NextUnpublished(t).value;
      0 <= entry.id < |t.outbox| && t.outbox[entry.id] == entry && !entry.published
  {
  }

  lemma UnpublishedStands(cfg: Config, t: T.Tables, requests: Ledger, entry: T.Entry)
    requires TablesOk(cfg, t, requests) && EntryHere(t.outbox, entry) && !t.outbox[entry.id].published
    ensures Stands(t, entry.key, PaymentState.Submitted)
  {
    hide TablesOk, Stands;
    PendingStands(cfg, t, requests);
  }

  lemma OutboxInOrderOk(cfg: Config, t: T.Tables, requests: Ledger)
    requires TablesOk(cfg, t, requests)
    ensures OutboxOk(t.streams.Keys, t.outbox, t.nextId)
  {
    hide StreamsOk, PlacesOk, PendingOk, MessagesOk, OutboxOk;
  }

  lemma MoverHolds(cfg: Config, w: World, id: nat, oracle: Oracle)
    requires WorldOk(cfg, w) && id in w.tasks && HolderOk(w.db, w.tasks[id])
    ensures HolderOk(Run(cfg, w.db, w.tasks[id], oracle).db, Run(cfg, w.db, w.tasks[id], oracle).next)
  {
    hide TablesOk, TraceOk, NoRepeats, Run, SoleOwners, SoleReconcilers, Stands, T.NextUnpublished, Replay;
    var task, t := w.tasks[id], w.db;
    var move := Run(cfg, t, task, oracle);
    assert TaskOk(cfg, t, w.requests, w.trace, task);
    HoldingPassesOn(cfg, t, task, oracle);
    if move.next.Sending? && move.next != task {
      OutboxInOrderOk(cfg, t, w.requests);
      NextIsInPlace(t.streams.Keys, t);
    } else if move.next.Sending? {
      StillSending(cfg, t, task, oracle);
    } else if move.next.Publishing? {
      UnpublishedStands(cfg, t, w.requests, task.entry);
      MarkerMarks(cfg, t, w.requests, w.trace, task, oracle);
      SameStanding(t, move.db, task.entry.key, PaymentState.Submitted);
    }
  }

  lemma StillSending(cfg: Config, t: T.Tables, task: Task, oracle: Oracle)
    requires task.Sending? && Run(cfg, t, task, oracle).next == task
    ensures Run(cfg, t, task, oracle).db == t
  {
  }

  lemma SameStanding(t: T.Tables, t': T.Tables, key: Key, state: PaymentState)
    requires t.streams == t'.streams && Stands(t, key, state)
    ensures Stands(t', key, state)
  {
  }

  /** While drains run one at a time, an entry in hand is unpublished and its payment submitted. */
  lemma HoldersStep(cfg: Config, w: World, id: nat, oracle: Oracle)
    requires WorldOk(cfg, w) && id in w.tasks && OneHolder(w.tasks) && HoldersOk(w)
    ensures HoldersOk(Next(cfg, w, Step(id, oracle)))
  {
    hide WorldOk, Run, Stands;
    var move := Run(cfg, w.db, w.tasks[id], oracle);
    MoverHolds(cfg, w, id, oracle);
    forall other | other in w.tasks && other != id
      ensures HolderOk(move.db, w.tasks[other])
    {
      if Holds(w.tasks[other]) {
        assert !Holds(w.tasks[id]);
        if w.tasks[other].Publishing? {
          OnlyPublicationMoves(cfg, w, id, oracle, w.tasks[other].entry.key);
        } else {
          OnlyHoldersMark(cfg, w, id, oracle, w.tasks[other].entry.id);
        }
      }
    }
  }

  lemma {:induction false} ExclusiveHolders(cfg: Config, labels: seq<Label>)
    requires Exclusive(cfg, labels)
    ensures HoldersOk(Execute(cfg, labels)) && OneHolder(Execute(cfg, labels).tasks)
    decreases |labels|
  {
    hide WorldOk, OneHolder, Exclusive, Run, CanStart;
    ExclusiveSoFar(cfg, labels);
    if labels != [] {
      var front, action := labels[..|labels| - 1], labels[|labels| - 1];
      ExclusiveHolders(cfg, front);
      EveryRun(cfg, front);
      if !action.Step? {
        StartHoldsNothing(cfg, Execute(cfg, front), action);
      } else if action.id in Execute(cfg, front).tasks {
        HoldersStep(cfg, Execute(cfg, front), action.id, action.oracle);
      }
    }
  }

  lemma StartHoldsNothing(cfg: Config, w: World, action: Label)
    requires HoldersOk(w) && !action.Step?
    ensures HoldersOk(Next(cfg, w, action))
  {
    hide Stands;
  }

  // -------------------------------------------------- accepted once, in order

  predicate Accepts(mark: Mark) { mark.HandedOff? && Confirms(mark.answer) }

  /** Whoever acknowledges an entry was told that it was accepted. */
  ghost predicate AcknowledgersTold(w: World) {
    forall id | id in w.tasks && w.tasks[id].Acknowledging? ::
      exists i :: 0 <= i < |w.trace| && Accepts(w.trace[i]) && w.trace[i].entry == w.tasks[id].entry
  }

  lemma AcknowledgersStep(cfg: Config, w: World, id: nat, oracle: Oracle)
    requires AcknowledgersTold(w) && id in w.tasks
    ensures AcknowledgersTold(Next(cfg, w, Step(id, oracle)))
  {
    hide Run;
    var move, w' := Run(cfg, w.db, w.tasks[id], oracle), Next(cfg, w, Step(id, oracle));
    HoldingPassesOn(cfg, w.db, w.tasks[id], oracle);
    forall other | other in w'.tasks && w'.tasks[other].Acknowledging?
      ensures exists i :: 0 <= i < |w'.trace| && Accepts(w'.trace[i]) && w'.trace[i].entry == w'.tasks[other].entry
    {
      if other == id {
        assert w'.trace[|w.trace|] == move.marks[0];
      } else {
        var i :| 0 <= i < |w.trace| && Accepts(w.trace[i]) && w.trace[i].entry == w.tasks[other].entry;
        assert w'.trace[i] == w.trace[i];
      }
    }
  }

  lemma {:induction false} EveryAcknowledgerTold(cfg: Config, labels: seq<Label>)
    ensures AcknowledgersTold(Execute(cfg, labels))
    decreases |labels|
  {
    hide Run, CanStart, AcknowledgersTold;
    if labels == [] {
      NobodyAcknowledges(cfg, START, Crash);
    } else {
      var front, action := labels[..|labels| - 1], labels[|labels| - 1];
      EveryAcknowledgerTold(cfg, front);
      if !action.Step? {
        NobodyAcknowledges(cfg, Execute(cfg, front), action);
      } else if action.id in Execute(cfg, front).tasks {
        AcknowledgersStep(cfg, Execute(cfg, front), action.id, action.oracle);
      }
    }
  }

  lemma NobodyAcknowledges(cfg: Config, w: World, action: Label)
    requires !action.Step?
    ensures AcknowledgersTold(START)
    ensures AcknowledgersTold(w) ==> AcknowledgersTold(Next(cfg, w, action))
  {
    if AcknowledgersTold(w) {
      assert Next(cfg, w, action).trace == w.trace;
    }
  }

  /** Somebody is between the acceptance of the entry in place `i` and its mark. */
  ghost predicate Acknowledged(w: World, i: int) {
    exists id :: id in w.tasks && w.tasks[id].Acknowledging? && w.tasks[id].entry.id == i
  }

  /** The process crashed there. */
  ghost predicate CrashedUnmarked(cfg: Config, labels: seq<Label>, n: nat, i: int) {
    n < |labels| && labels[n].Crash? && Acknowledged(Execute(cfg, labels[..n]), i)
  }

  ghost predicate EverCrashedUnmarked(cfg: Config, labels: seq<Label>, i: int) {
    exists n :: CrashedUnmarked(cfg, labels, n, i)
  }

  lemma CrashRemembered(cfg: Config, labels: seq<Label>, action: Label, i: int)
    ensures EverCrashedUnmarked(cfg, labels, i) ==> EverCrashedUnmarked(cfg, labels + [action], i)
    ensures action.Crash? && Acknowledged(Execute(cfg, labels), i) ==> EverCrashedUnmarked(cfg, labels + [action], i)
  {
    hide Execute, Acknowledged;
    var more := labels + [action];
    assert more[..|labels|] == labels;
    if n: nat :| CrashedUnmarked(cfg, labels, n, i) {
      assert more[..n] == labels[..n];
      assert CrashedUnmarked(cfg, more, n, i);
    }
    if action.Crash? && Acknowledged(Execute(cfg, labels), i) {
      assert CrashedUnmarked(cfg, more, |labels|, i);
    }
  }

  /** An accepted entry: everything before it is consumed, and it is too, or is about to be, or a crash came first. */
  ghost predicate AcceptanceKept(cfg: Config, labels: seq<Label>, w: World, mark: Mark)
    requires mark.HandedOff?
  {
    var i := mark.entry.id;
    && 0 <= i < |w.db.outbox|
    && (forall j | 0 <= j < i :: w.db.outbox[j].published)
    && (w.db.outbox[i].published || Acknowledged(w, i) || EverCrashedUnmarked(cfg, labels, i))
  }

  ghost predicate AcceptancesKept(cfg: Config, labels: seq<Label>) {
    var w := Execute(cfg, labels);
    forall mark | mark in w.trace && Accepts(mark) :: AcceptanceKept(cfg, labels, w, mark)
  }

  lemma AcceptanceStep(cfg: Config, labels: seq<Label>, id: nat, oracle: Oracle, mark: Mark)
    requires var w := Execute(cfg, labels); WorldOk(cfg, w) && id in w.tasks
    requires Accepts(mark) && AcceptanceKept(cfg, labels, Execute(cfg, labels), mark)
    ensures AcceptanceKept(cfg, labels + [Step(id, oracle)], Next(cfg, Execute(cfg, labels), Step(id, oracle)), mark)
  {
    hide WorldOk, Run, Execute, EverCrashedUnmarked;
    var w, i := Execute(cfg, labels), mark.entry.id;
    var w' := Next(cfg, w, Step(id, oracle));
    CrashRemembered(cfg, labels, Step(id, oracle), i);
    forall j | 0 <= j <= i
      ensures j < |w'.db.outbox| && (w.db.outbox[j].published ==> w'.db.outbox[j].published)
    {
      OnlyHoldersMark(cfg, w, id, oracle, j);
    }
    OnlyHoldersMark(cfg, w, id, oracle, i);
    if Acknowledged(w, i) {
      var other :| other in w.tasks && w.tasks[other].Acknowledging? && w.tasks[other].entry.id == i;
      if other != id {
        assert w'.tasks[other] == w.tasks[other];
      }
    }
  }

  lemma NewAcceptance(cfg: Config, labels: seq<Label>, id: nat, oracle: Oracle, mark: Mark)
    requires var w := Execute(cfg, labels); WorldOk(cfg, w) && id in w.tasks
    requires mark in Run(cfg, Execute(cfg, labels).db, Execute(cfg, labels).tasks[id], oracle).marks && Accepts(mark)
    ensures AcceptanceKept(cfg, labels + [Step(id, oracle)], Next(cfg, Execute(cfg, labels), Step(id, oracle)), mark)
  {
    hide TablesOk, TraceOk, NoRepeats, SoleOwners, SoleReconcilers, Run, Execute, EverCrashedUnmarked;
    var w := Execute(cfg, labels);
    var task := w.tasks[id];
    var move, w' := Run(cfg, w.db, task, oracle), Next(cfg, w, Step(id, oracle));
    assert TaskOk(cfg, w.db, w.requests, w.trace, task);
    HoldingPassesOn(cfg, w.db, task, oracle);
    assert w'.tasks[id].Acknowledging? && w'.tasks[id].entry.id == mark.entry.id;
    assert w'.db == w.db;
  }

  lemma {:induction false} EveryAcceptanceKept(cfg: Config, labels: seq<Label>)
    ensures AcceptancesKept(cfg, labels)
    decreases |labels|
  {
    hide WorldOk, Run, CanStart, AcceptanceKept;
    if labels != [] {
      var front, action := labels[..|labels| - 1], labels[|labels| - 1];
      var w, w' := Execute(cfg, front), Execute(cfg, labels);
      EveryAcceptanceKept(cfg, front);
      EveryRun(cfg, front);
      assert labels == front + [action];
      forall mark | mark in w'.trace && Accepts(mark)
        ensures AcceptanceKept(cfg, labels, w', mark)
      {
        if !action.Step? || action.id !in w.tasks {
          AcceptanceIdle(cfg, front, action, mark);
        } else if mark in w.trace {
          AcceptanceStep(cfg, front, action.id, action.oracle, mark);
        } else {
          NewAcceptance(cfg, front, action.id, action.oracle, mark);
        }
      }
    }
  }

  lemma AcceptanceIdle(cfg: Config, labels: seq<Label>, action: Label, mark: Mark)
    requires !action.Step? || action.id !in Execute(cfg, labels).tasks
    requires mark.HandedOff? && AcceptanceKept(cfg, labels, Execute(cfg, labels), mark)
    ensures AcceptanceKept(cfg, labels + [action], Next(cfg, Execute(cfg, labels), action), mark)
  {
    hide Execute, EverCrashedUnmarked;
    var w, i := Execute(cfg, labels), mark.entry.id;
    CrashRemembered(cfg, labels, action, i);
    if Acknowledged(w, i) && action.Start? {
      var other :| other in w.tasks && w.tasks[other].Acknowledging? && w.tasks[other].entry.id == i;
      assert Next(cfg, w, action).tasks[other] == w.tasks[other];
    }
  }

  /** Every entry is accepted at most once, and in the order the entries were queued. */
  ghost predicate AcceptedInOrder(trace: seq<Mark>) {
    forall i, j | 0 <= i < j < |trace| && Accepts(trace[i]) && Accepts(trace[j]) :: trace[i].entry.id < trace[j].entry.id
  }

  /** An entry was accepted, a crash came before its mark, and a later drain had it accepted again. */
  ghost predicate AcceptedAgainAfterCrash(cfg: Config, labels: seq<Label>) {
    exists n, i, m :: CrashThenAccepted(cfg, labels, n, i, m)
  }

  ghost predicate CrashThenAccepted(cfg: Config, labels: seq<Label>, n: nat, i: int, m: nat) {
    && CrashedUnmarked(cfg, labels, n, i)
    && |Execute(cfg, labels[..n]).trace| <= m < |Execute(cfg, labels).trace|
    && Accepts(Execute(cfg, labels).trace[m]) && Execute(cfg, labels).trace[m].entry.id == i
  }

  lemma AgainStaysAgain(cfg: Config, labels: seq<Label>)
    requires labels != [] && AcceptedAgainAfterCrash(cfg, labels[..|labels| - 1])
    ensures AcceptedAgainAfterCrash(cfg, labels)
  {
    hide Execute, Acknowledged;
    var front := labels[..|labels| - 1];
    var n: nat, i, m: nat :| CrashThenAccepted(cfg, front, n, i, m);
    assert labels[..n] == front[..n];
    TraceGrows(cfg, labels, |front|);
    assert labels[..|front|] == front;
    assert Execute(cfg, labels).trace[m] == Execute(cfg, front).trace[m];
    assert CrashThenAccepted(cfg, labels, n, i, m);
  }

  /** An acceptance by a drain that runs alone comes after all earlier ones, unless it repeats one lost in a crash. */
  lemma AcceptanceIsLater(cfg: Config, labels: seq<Label>, id: nat, oracle: Oracle, k: nat)
    requires Exclusive(cfg, labels) && id in Execute(cfg, labels).tasks
    requires var w := Execute(cfg, labels);
      var w' := Next(cfg, w, Step(id, oracle));
      && k < |w.trace| < |w'.trace| && Accepts(w.trace[k]) && Accepts(w'.trace[|w.trace|])
    ensures var w := Execute(cfg, labels);
      var w' := Next(cfg, w, Step(id, oracle));
      w.trace[k].entry.id < w'.trace[|w.trace|].entry.id
      || (w.trace[k].entry.id == w'.trace[|w.trace|].entry.id && EverCrashedUnmarked(cfg, labels, w.trace[k].entry.id))
  {
    hide TablesOk, TraceOk, NoRepeats, TasksOk, SoleOwners, SoleReconcilers, Run, Execute, EverCrashedUnmarked, Exclusive, Stands,
         OutboxOk;
    var w := Execute(cfg, labels);
    var task, w' := w.tasks[id], Next(cfg, w, Step(id, oracle));
    var move, earlier := Run(cfg, w.db, task, oracle), w.trace[k];
    EveryRun(cfg, labels);
    ExclusiveHolders(cfg, labels);
    EveryAcceptanceKept(cfg, labels);
    HoldingPassesOn(cfg, w.db, task, oracle);
    assert w'.trace[|w.trace|] == move.marks[0] && move.marks[0] in move.marks;
    assert earlier in w.trace && AcceptanceKept(cfg, labels, w, earlier);
    OutboxInOrderOk(cfg, w.db, w.requests);
    UnpublishedComesLater(w.db.streams.Keys, w.db, task.entry.id, earlier.entry.id);
  }

  lemma UnpublishedComesLater(keys: set<Key>, t: T.Tables, i: int, j: int)
    requires OutboxOk(keys, t.outbox, t.nextId)
    requires 0 <= i < |t.outbox| && 0 <= j < |t.outbox| && !t.outbox[i].published
    ensures t.outbox[j].published ==> j < i
    ensures (forall k | 0 <= k < j :: t.outbox[k].published) ==> j <= i
  {
  }

  lemma {:induction false} InOrderUnlessAgain(cfg: Config, labels: seq<Label>)
    requires Exclusive(cfg, labels) && !AcceptedAgainAfterCrash(cfg, labels)
    ensures AcceptedInOrder(Execute(cfg, labels).trace)
    decreases |labels|
  {
    hide WorldOk, Run, CanStart, Exclusive, AcceptedAgainAfterCrash;
    if labels != [] {
      var front, action := labels[..|labels| - 1], labels[|labels| - 1];
      var w, w' := Execute(cfg, front), Execute(cfg, labels);
      ExclusiveSoFar(cfg, labels);
      if AcceptedAgainAfterCrash(cfg, front) {
        AgainStaysAgain(cfg, labels);
      }
      InOrderUnlessAgain(cfg, front);
      AtMostOneMore(cfg, w, action);
      forall i, j | 0 <= i < j < |w'.trace| && Accepts(w'.trace[i]) && Accepts(w'.trace[j])
        ensures w'.trace[i].entry.id < w'.trace[j].entry.id
      {
        if j < |w.trace| {
          assert w'.trace[i] == w.trace[i] && w'.trace[j] == w.trace[j];
        } else {
          assert w'.trace[i] == w.trace[i];
          AcceptanceIsLater(cfg, front, action.id, action.oracle, i);
          if w'.trace[i].entry.id == w'.trace[j].entry.id {
            AgainNow(cfg, labels, w'.trace[i].entry.id, j);
          }
        }
      }
    }
  }

  lemma AtMostOneMore(cfg: Config, w: World, action: Label)
    ensures var w' := Next(cfg, w, action);
      && w.trace <= w'.trace && |w'.trace| <= |w.trace| + 1
      && (|w'.trace| > |w.trace| ==> action.Step? && action.id in w.tasks)
  {
    hide Run, CanStart;
    if action.Step? && action.id in w.tasks {
      MoveFootprint(cfg, w.db, w.tasks[action.id], action.oracle);
    }
  }

  lemma AgainNow(cfg: Config, labels: seq<Label>, i: int, m: nat)
    requires labels != [] && EverCrashedUnmarked(cfg, labels[..|labels| - 1], i)
    requires |Execute(cfg, labels[..|labels| - 1]).trace| <= m < |Execute(cfg, labels).trace|
    requires Accepts(Execute(cfg, labels).trace[m]) && Execute(cfg, labels).trace[m].entry.id == i
    ensures AcceptedAgainAfterCrash(cfg, labels)
  {
    hide Execute, Acknowledged;
    var front := labels[..|labels| - 1];
    var n: nat :| CrashedUnmarked(cfg, front, n, i);
    assert labels[..n] == front[..n];
    TraceGrows(cfg, front, n);
    assert CrashThenAccepted(cfg, labels, n, i, m);
  }

  lemma AgainIsNotInOrder(cfg: Config, labels: seq<Label>)
    requires AcceptedAgainAfterCrash(cfg, labels)
    ensures !AcceptedInOrder(Execute(cfg, labels).trace)
  {
    hide Execute;
    var n: nat, i, m: nat :| CrashThenAccepted(cfg, labels, n, i, m);
    var w := Execute(cfg, labels[..n]);
    var id :| id in w.tasks && w.tasks[id].Acknowledging? && w.tasks[id].entry.id == i;
    EveryAcknowledgerTold(cfg, labels[..n]);
    var k :| 0 <= k < |w.trace| && Accepts(w.trace[k]) && w.trace[k].entry == w.tasks[id].entry;
    TraceGrows(cfg, labels, n);
    assert Execute(cfg, labels).trace[k] == w.trace[k];
  }

  /**
   * With drains one at a time, every entry is accepted at most once and in queue order exactly when no
   * entry that a crash left accepted and unmarked is accepted again.
   */
  lemma AcceptedOnceExactly(cfg: Config, labels: seq<Label>)
    requires Exclusive(cfg, labels)
    ensures AcceptedInOrder(Execute(cfg, labels).trace) <==> !AcceptedAgainAfterCrash(cfg, labels)
  {
    hide Execute, AcceptedInOrder, AcceptedAgainAfterCrash;
    if AcceptedAgainAfterCrash(cfg, labels) {
      AgainIsNotInOrder(cfg, labels);
    } else {
      InOrderUnlessAgain(cfg, labels);
    }
  }

  /** In particular when no crash is taken between an acceptance and its mark. */
  lemma AcceptedOnce(cfg: Config, labels: seq<Label>)
    requires Exclusive(cfg, labels)
    requires forall n, i :: !CrashedUnmarked(cfg, labels, n, i)
    ensures AcceptedInOrder(Execute(cfg, labels).trace)
  {
    hide Execute, CrashedUnmarked;
    AcceptedOnceExactly(cfg, labels);
  }
}
