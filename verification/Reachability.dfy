/** What holds in every world the gateway can reach, whatever interleaves and wherever it crashes. */
module Reachability {
  import opened Wrappers
  import opened Payments
  import opened Histories
  import opened Requests
  import opened Reasons
  import opened HoldPolicies
  import opened RiskGates
  import opened Protocol
  import opened Places
  import opened StoreInvariant
  import opened Interleaving
  import opened Footprints
  import T = Tables

  // ------------------------------------------------ folds along prefixes

  lemma {:induction false} LastOfKept<X>(h: seq<Event>, h': seq<Event>, read: Event -> Option<X>)
    requires h <= h' && LastOf(h, read).Some?
    ensures LastOf(h', read).Some?
    decreases |h'|
  {
    if |h| < |h'| {
      LastOfKept(h, h'[..|h'| - 1], read);
    } else {
      assert h == h';
    }
  }

  lemma {:induction false} CountKept(h: seq<Event>, h': seq<Event>, counts: Event -> bool)
    requires h <= h'
    ensures Count(h, counts) <= Count(h', counts)
    decreases |h'|
  {
    if |h| < |h'| {
      CountKept(h, h'[..|h'| - 1], counts);
    } else {
      assert h == h';
    }
  }

  lemma {:induction false} LastOfSkips<X>(h: seq<Event>, es: seq<Event>, read: Event -> Option<X>)
    requires forall e | e in es :: read(e).None?
    ensures LastOf(h + es, read) == LastOf(h, read)
    decreases |es|
  {
    if es == [] {
      assert h + es == h;
    } else {
      assert (h + es)[..|h + es| - 1] == h + es[..|es| - 1];
      LastOfSkips(h, es[..|es| - 1], read);
    }
  }

  // -------------------------------------------------- who may write what

  /** Only its owner writes the events of a payment's early life; the rest writes late events, one at a time. */
  lemma LateWriters(cfg: Config, t: T.Tables, requests: Ledger, trace: seq<Mark>, task: Task)
    requires TaskOk(cfg, t, requests, trace, task) && Target(task).Some?
    requires !task.Creating? && OwnerOf(task) != Target(task)
    ensures |Written(cfg, task)| == 1
    ensures var e := Written(cfg, task)[0];
      && (e.Published? || e.AdviceReceived? || e.HoldReleased? || e.HoldCancelled? || e.TimeoutDeclared? || e.QuerySent?)
      && (e.QuerySent? <==> task.Querying?)
      && (ResolutionOf(e).Some? <==> task.Releasing? || task.Discarding? || task.SweepDiscard?)
  {
  }

  lemma OwnersWriteNoQueries(cfg: Config, task: Task)
    requires task.Creating? || OwnerOf(task).Some?
    ensures forall e | e in Written(cfg, task) :: QueryTime(e).None? && ResolutionOf(e).None?
  {
  }

  /** A payment in its early life changes only by its owner's hand. */
  lemma EarlyIsOwned(cfg: Config, t: T.Tables, requests: Ledger, trace: seq<Mark>, task: Task, t': T.Tables,
          requests': Ledger, key: Key)
    requires TablesOk(cfg, t, requests) && TablesOk(cfg, t', requests') && TaskOk(cfg, t, requests, trace, task)
    requires t'.streams == t.streams || Wrote(cfg, t, task, t')
    requires key in t.streams && OwnerOf(task) != Some(key)
    requires T.Load(t, key).Some? && Early(T.Load(t, key).value.state)
    ensures key in t'.streams && t'.streams[key] == t.streams[key]
  {
    hide TablesOk, Replay, TaskOk, Written;
    if t'.streams != t.streams && Target(task) == Some(key) {
      LateWriters(cfg, t, requests, trace, task);
      LoadIsAt(cfg, t, requests, key);
      KnownStream(cfg, t', requests', key);
      var e := Written(cfg, task)[0];
      assert Written(cfg, task) == [e];
      ReplayExtends(t.streams[key], e);
    }
  }

  /** Only a query changes a payment's last query time. */
  lemma QueriesAreOwned(cfg: Config, t: T.Tables, requests: Ledger, trace: seq<Mark>, task: Task, t': T.Tables,
          key: Key)
    requires TaskOk(cfg, t, requests, trace, task)
    requires t'.streams == t.streams || Wrote(cfg, t, task, t')
    requires !(task.Querying? && task.key == key)
    ensures LastOf(Recorded(t', key), QueryTime) == LastOf(Recorded(t, key), QueryTime)
  {
    hide TaskOk, Written, LastOf;
    if t'.streams != t.streams && Target(task) == Some(key) {
      if task.Creating? || OwnerOf(task) == Target(task) {
        OwnersWriteNoQueries(cfg, task);
      } else {
        LateWriters(cfg, t, requests, trace, task);
      }
      LastOfSkips(Recorded(t, key), Written(cfg, task), QueryTime);
    }
  }

  /** What a task relies on survives any step that leaves its own payment alone. */
  lemma TaskStable(cfg: Config, t: T.Tables, requests: Ledger, trace: seq<Mark>, t': T.Tables, requests': Ledger,
          marks: seq<Mark>, task: Task)
    requires TaskOk(cfg, t, requests, trace, task) && Grows(t, t')
    requires forall k | k in requests :: k in requests' && requests'[k] == requests[k]
    requires OwnerOf(task).Some? ==>
      && OwnerOf(task).value in t.streams && OwnerOf(task).value in t'.streams
      && t'.streams[OwnerOf(task).value] == t.streams[OwnerOf(task).value]
      && Asked(OwnerOf(task).value) !in marks
    requires cfg.serial && task.Querying? ==>
      LastOf(Recorded(t', task.key), QueryTime) == LastOf(Recorded(t, task.key), QueryTime)
    ensures TaskOk(cfg, t', requests', trace + marks, task)
  {
    hide TaskOk, Grows;
    if OwnerOf(task).Some? {
      OwnerStable(cfg, t, requests, trace, t', requests', marks, task);
    } else if InDrain(task) {
      DrainerStable(cfg, t, requests, trace, t', requests', marks, task);
    } else {
      WaiterStable(cfg, t, requests, trace, t', requests', marks, task);
    }
  }

  lemma OwnerStable(cfg: Config, t: T.Tables, requests: Ledger, trace: seq<Mark>, t': T.Tables, requests': Ledger,
          marks: seq<Mark>, task: Task)
    requires TaskOk(cfg, t, requests, trace, task) && OwnerOf(task).Some?
    requires forall k | k in requests :: k in requests' && requests'[k] == requests[k]
    requires OwnerOf(task).value in t.streams && OwnerOf(task).value in t'.streams
    requires t'.streams[OwnerOf(task).value] == t.streams[OwnerOf(task).value] && Asked(OwnerOf(task).value) !in marks
    ensures TaskOk(cfg, t', requests', trace + marks, task)
  {
    hide Replay;
  }

  lemma DrainerStable(cfg: Config, t: T.Tables, requests: Ledger, trace: seq<Mark>, t': T.Tables, requests': Ledger,
          marks: seq<Mark>, task: Task)
    requires TaskOk(cfg, t, requests, trace, task) && Grows(t, t') && InDrain(task)
    ensures TaskOk(cfg, t', requests', trace + marks, task)
  {
  }

  lemma WaiterStable(cfg: Config, t: T.Tables, requests: Ledger, trace: seq<Mark>, t': T.Tables, requests': Ledger,
          marks: seq<Mark>, task: Task)
    requires TaskOk(cfg, t, requests, trace, task) && Grows(t, t') && OwnerOf(task).None? && !InDrain(task)
    requires cfg.serial && task.Querying? ==>
      LastOf(Recorded(t', task.key), QueryTime) == LastOf(Recorded(t, task.key), QueryTime)
    ensures TaskOk(cfg, t', requests', trace + marks, task)
  {
    hide Replay, LastOf, IsExpired, Acceptable;
    match task
    case Releasing(key, event, _) =>
      var e :| e in t.streams[key] && HoldTime(e).Some? && !IsExpired(cfg.maxAge, e.at, event.at);
      assert e in t'.streams[key];
    case Declaring(key, event) =>
      var e :| e in t.streams[key] && e.Published? && event.at - e.at >= cfg.timeoutSecs;
      assert e in t'.streams[key];
    case Querying(_, _, _) => NothingIsLast(QueryTime);
    case _ =>
  }

  // --------------------------------------------------------- the run's log

  /** What a mark says is still on record. */
  ghost predicate MarkHolds(t: T.Tables, mark: Mark) {
    match mark
    case Passed(key) => key in t.streams
    case Asked(key) => key in t.streams
    case HandedOff(entry, _) =>
      0 <= entry.id < |t.outbox| && t.outbox[entry.id].key == entry.key && t.outbox[entry.id].message == entry.message
    case Dropped(entry) =>
      0 <= entry.id < |t.outbox| && t.outbox[entry.id].key == entry.key && t.outbox[entry.id].published
    case Resolved(key) => key in t.streams && LastOf(t.streams[key], ResolutionOf).Some?
    case Queried(key, number, _) => key in t.streams && 1 <= number <= Count(t.streams[key], IsQuery)
  }

  ghost predicate TraceOk(t: T.Tables, trace: seq<Mark>) {
    && (forall mark | mark in trace :: MarkHolds(t, mark))
    && (forall k | k in t.streams :: Passed(k) in trace)
    && (forall k | k in t.streams && LastOf(t.streams[k], ResolutionOf).Some? :: Resolved(k) in trace)
  }

  /** `later` may follow `earlier`: no second creation, question or resolution; query numbers grow. */
  ghost predicate MayFollow(earlier: Mark, later: Mark) {
    match later
    case HandedOff(_, _) | Dropped(_) => true
    case Queried(key, number, _) => earlier.Queried? && earlier.key == key ==> earlier.number < number
    case _ => earlier != later
  }

  ghost predicate NoRepeats(trace: seq<Mark>) {
    forall i, j | 0 <= i < j < |trace| :: MayFollow(trace[i], trace[j])
  }

  lemma MarkStable(t: T.Tables, t': T.Tables, mark: Mark)
    requires Grows(t, t') && MarkHolds(t, mark)
    ensures MarkHolds(t', mark)
  {
    hide LastOf, Count;
    match mark
    case Resolved(key) => LastOfKept(t.streams[key], t'.streams[key], ResolutionOf);
    case Queried(key, _, _) => CountKept(t.streams[key], t'.streams[key], IsQuery);
    case _ =>
  }

  /** A step's report holds, and repeats nothing. */
  lemma MarkFresh(cfg: Config, t: T.Tables, requests: Ledger, trace: seq<Mark>, task: Task, t': T.Tables,
          requests': Ledger, mark: Mark)
    requires TablesOk(cfg, t, requests) && TablesOk(cfg, t', requests') && TaskOk(cfg, t, requests, trace, task)
    requires TraceOk(t, trace) && MarkOk(cfg, t, task, t', mark) && Grows(t, t')
    ensures MarkHolds(t', mark)
    ensures forall earlier | earlier in trace :: MayFollow(earlier, mark)
  {
    hide TablesOk, TaskOk, Replay, LastOf, Count, Grows, Written;
    match mark
    case Passed(_) | Asked(_) | HandedOff(_, _) => PlainMarkFresh(cfg, t, requests, trace, task, t', mark);
    case Dropped(_) => DropFresh(cfg, t, requests, trace, task, t');
    case Resolved(key) => ResolutionFresh(cfg, t, requests, trace, task, t', requests');
    case Queried(key, number, _) => QueryFresh(cfg, t, requests, trace, task, t', requests');
  }

  lemma PlainMarkFresh(cfg: Config, t: T.Tables, requests: Ledger, trace: seq<Mark>, task: Task, t': T.Tables,
          mark: Mark)
    requires TaskOk(cfg, t, requests, trace, task)
    requires TraceOk(t, trace) && MarkOk(cfg, t, task, t', mark) && Grows(t, t')
    requires mark.Passed? || mark.Asked? || mark.HandedOff?
    ensures MarkHolds(t', mark)
    ensures forall earlier | earlier in trace :: MayFollow(earlier, mark)
  {
    hide Replay, LastOf, Count;
  }

  lemma DropFresh(cfg: Config, t: T.Tables, requests: Ledger, trace: seq<Mark>, task: Task, t': T.Tables)
    requires TablesOk(cfg, t, requests) && TaskOk(cfg, t, requests, trace, task)
    requires task.Dropping? && t' == T.MarkPublished(t, task.entry.id)
    ensures MarkHolds(t', Dropped(task.entry))
  {
    hide StreamsOk, PlacesOk, PendingOk, MessagesOk, T.MarkPublished;
    MarksAtPosition(t.streams.Keys, t, task.entry.id);
  }

  /** A hold is resolved only if it was not: the event is accepted in `Held` alone. */
  lemma ResolutionFresh(cfg: Config, t: T.Tables, requests: Ledger, trace: seq<Mark>, task: Task, t': T.Tables,
          requests': Ledger)
    requires TablesOk(cfg, t, requests) && TablesOk(cfg, t', requests') && TaskOk(cfg, t, requests, trace, task)
    requires task.Releasing? || task.Discarding? || task.SweepDiscard?
    requires Wrote(cfg, t, task, t')
    ensures task.key in t.streams && LastOf(t.streams[task.key], ResolutionOf).None?
    ensures task.key in t'.streams && LastOf(t'.streams[task.key], ResolutionOf).Some?
  {
    hide TablesOk, Replay;
    var h, e := t.streams[task.key], task.event;
    KnownStream(cfg, t, requests, task.key);
    KnownStream(cfg, t', requests', task.key);
    LoadIsAt(cfg, t, requests, task.key);
    ReplayExtends(h, e);
    assert t'.streams[task.key] == h + [e] && (h + [e])[|h|] == e;
  }

  /** A query's number is one more than the queries before it. */
  lemma QueryFresh(cfg: Config, t: T.Tables, requests: Ledger, trace: seq<Mark>, task: Task, t': T.Tables,
          requests': Ledger)
    requires TablesOk(cfg, t, requests) && TablesOk(cfg, t', requests') && TaskOk(cfg, t, requests, trace, task)
    requires task.Querying? && Wrote(cfg, t, task, t')
    ensures task.key in t.streams && task.key in t'.streams
    ensures T.Load(t', task.key).Some?
    ensures T.Load(t', task.key).value.queriesSent
         == Count(t.streams[task.key], IsQuery) + 1 == Count(t'.streams[task.key], IsQuery)
  {
    hide TablesOk, Replay;
    var h, e := t.streams[task.key], task.event;
    KnownStream(cfg, t', requests', task.key);
    LoadIsAt(cfg, t', requests', task.key);
    assert t'.streams[task.key] == h + [e] && (h + [e])[..|h|] == h;
  }

  lemma NoRepeatsExtends(trace: seq<Mark>, mark: Mark)
    requires NoRepeats(trace) && forall earlier | earlier in trace :: MayFollow(earlier, mark)
    ensures NoRepeats(trace + [mark])
  {
    hide MayFollow;
  }

  lemma TraceExtends(cfg: Config, t: T.Tables, requests: Ledger, trace: seq<Mark>, task: Task, move: Move,
          requests': Ledger)
    requires TablesOk(cfg, t, requests) && TablesOk(cfg, move.db, requests') && TaskOk(cfg, t, requests, trace, task)
    requires TraceOk(t, trace) && NoRepeats(trace)
    requires FootprintOk(cfg, t, task, move) && Grows(t, move.db)
    ensures TraceOk(move.db, trace + move.marks) && NoRepeats(trace + move.marks)
  {
    hide TablesOk, Replay, TaskOk, LastOf, Count, MarkHolds, MayFollow, MarkOk, Written;
    var trace' := trace + move.marks;
    forall mark | mark in trace'
      ensures MarkHolds(move.db, mark)
    {
      if mark in trace {
        MarkStable(t, move.db, mark);
      } else {
        MarkFresh(cfg, t, requests, trace, task, move.db, requests', mark);
      }
    }
    if move.marks != [] {
      assert move.marks == [move.marks[0]];
      MarkFresh(cfg, t, requests, trace, task, move.db, requests', move.marks[0]);
      NoRepeatsExtends(trace, move.marks[0]);
    } else {
      assert trace' == trace;
    }
    forall k | k in move.db.streams
      ensures Passed(k) in trace'
      ensures LastOf(move.db.streams[k], ResolutionOf).Some? ==> Resolved(k) in trace'
    {
      StreamAccounted(cfg, t, requests, trace, task, move, k);
    }
  }

  /** Every stream has its creator on record, every resolved hold its resolver. */
  lemma StreamAccounted(cfg: Config, t: T.Tables, requests: Ledger, trace: seq<Mark>, task: Task, move: Move, key: Key)
    requires TaskOk(cfg, t, requests, trace, task) && TraceOk(t, trace)
    requires FootprintOk(cfg, t, task, move) && key in move.db.streams
    ensures Passed(key) in trace + move.marks
    ensures LastOf(move.db.streams[key], ResolutionOf).Some? ==> Resolved(key) in trace + move.marks
  {
    hide Replay, TaskOk, LastOf, MarkHolds, MarkOk, Written;
    if move.db.streams != t.streams && Target(task) == Some(key) {
      if task.Creating? || OwnerOf(task) == Target(task) {
        OwnersWriteNoQueries(cfg, task);
        LastOfSkips(Recorded(t, key), Written(cfg, task), ResolutionOf);
        NothingIsLast(ResolutionOf);
      } else {
        LateWriters(cfg, t, requests, trace, task);
        if !(task.Releasing? || task.Discarding? || task.SweepDiscard?) {
          LastOfSkips(Recorded(t, key), Written(cfg, task), ResolutionOf);
        }
      }
    }
  }

  lemma NothingIsLast<X>(read: Event -> Option<X>)
    ensures LastOf([], read).None?
  {
  }

  // -------------------------------------------------------- the invariant

  ghost predicate SoleOwners(tasks: map<nat, Task>) {
    forall i, j | i in tasks && j in tasks && i != j && OwnerOf(tasks[i]).Some? :: OwnerOf(tasks[i]) != OwnerOf(tasks[j])
  }

  ghost predicate SoleReconcilers(tasks: map<nat, Task>) {
    forall i, j | i in tasks && j in tasks && i != j && Reconciling(tasks[i]).Some? ::
      Reconciling(tasks[i]) != Reconciling(tasks[j])
  }

  ghost predicate TasksOk(cfg: Config, w: World) {
    forall id | id in w.tasks :: TaskOk(cfg, w.db, w.requests, w.trace, w.tasks[id])
  }

  ghost predicate WorldOk(cfg: Config, w: World) {
    && TablesOk(cfg, w.db, w.requests)
    && TraceOk(w.db, w.trace)
    && NoRepeats(w.trace)
    && TasksOk(cfg, w)
    && SoleOwners(w.tasks)
    && (cfg.serial ==> SoleReconcilers(w.tasks))
  }

  lemma StartIsOk(cfg: Config)
    ensures WorldOk(cfg, START)
  {
  }

  lemma OwnedIsKnown(cfg: Config, t: T.Tables, requests: Ledger, trace: seq<Mark>, task: Task)
    requires TaskOk(cfg, t, requests, trace, task) && OwnerOf(task).Some?
    ensures OwnerOf(task).value in t.streams && T.Load(t, OwnerOf(task).value).Some?
    ensures Early(T.Load(t, OwnerOf(task).value).value.state)
  {
    hide Replay;
  }

  /** Starting an operation relies on nothing yet. */
  lemma StartKeeps(cfg: Config, w: World, id: nat, task: Task)
    requires WorldOk(cfg, w) && CanStart(cfg, w, id, task)
    ensures WorldOk(cfg, w.(tasks := w.tasks[id := task]))
  {
    hide TablesOk, TraceOk, NoRepeats;
    assert TaskOk(cfg, w.db, w.requests, w.trace, task);
    assert OwnerOf(task).None?;
  }

  /** The tasks that did not move still know what they knew. */
  lemma OthersStable(cfg: Config, w: World, id: nat, oracle: Oracle, other: nat)
    requires WorldOk(cfg, w) && id in w.tasks && other in w.tasks && other != id
    ensures var move := Run(cfg, w.db, w.tasks[id], oracle);
      TaskOk(cfg, move.db, Admitted(w, w.tasks[id], move.marks), w.trace + move.marks, w.tasks[other])
  {
    hide TablesOk, NoRepeats, TaskOk, Run, Grows, FootprintOk, TraceOk;
    var task, still := w.tasks[id], w.tasks[other];
    var move := Run(cfg, w.db, task, oracle);
    var requests' := Admitted(w, task, move.marks);
    StepKeepsTables(cfg, w, id, oracle);
    MoveGrows(cfg, w.db, task, oracle);
    MoveFootprint(cfg, w.db, task, oracle);
    FootprintIsWrite(cfg, w.db, task, move);
    if OwnerOf(still).Some? {
      OwnedIsKnown(cfg, w.db, w.requests, w.trace, still);
      EarlyIsOwned(cfg, w.db, w.requests, w.trace, task, move.db, requests', OwnerOf(still).value);
    }
    if cfg.serial && still.Querying? {
      assert Reconciling(still) == Some(still.key);
      QueriesAreOwned(cfg, w.db, w.requests, w.trace, task, move.db, still.key);
    }
    TaskStable(cfg, w.db, w.requests, w.trace, move.db, requests', move.marks, still);
  }

  lemma FootprintIsWrite(cfg: Config, t: T.Tables, task: Task, move: Move)
    requires FootprintOk(cfg, t, task, move)
    ensures move.db.streams == t.streams || Wrote(cfg, t, task, move.db)
    ensures forall k :: Asked(k) in move.marks ==> OwnerOf(task) == Some(k)
  {
    hide Written;
  }

  lemma AskedIsKnown(t: T.Tables, trace: seq<Mark>)
    requires TraceOk(t, trace)
    ensures forall k :: Asked(k) in trace ==> k in t.streams
  {
    hide LastOf, Count;
    assert forall k :: Asked(k) in trace ==> MarkHolds(t, Asked(k));
  }

  lemma SameKeys(cfg: Config, t: T.Tables, requests: Ledger)
    requires TablesOk(cfg, t, requests)
    ensures requests.Keys == t.streams.Keys
  {
    hide PlacesOk, OutboxOk, PendingOk, MessagesOk, StreamOk, Replay;
  }

  /** The step itself: tables, and what the mover knows next. */
  lemma StepKeepsTables(cfg: Config, w: World, id: nat, oracle: Oracle)
    requires WorldOk(cfg, w) && id in w.tasks
    ensures var move := Run(cfg, w.db, w.tasks[id], oracle);
      && TablesOk(cfg, move.db, Admitted(w, w.tasks[id], move.marks))
      && TaskOk(cfg, move.db, Admitted(w, w.tasks[id], move.marks), w.trace + move.marks, move.next)
      && (forall k | k in w.requests ::
            k in Admitted(w, w.tasks[id], move.marks) && Admitted(w, w.tasks[id], move.marks)[k] == w.requests[k])
  {
    hide TablesOk, TaskOk, Run, NoRepeats, TraceOk, SoleOwners, SoleReconcilers;
    AskedIsKnown(w.db, w.trace);
    SameKeys(cfg, w.db, w.requests);
    MoveKeeps(cfg, w.db, w.requests, w.trace, w.tasks[id], oracle);
  }

  lemma SuccessionKeeps(cfg: Config, w: World, id: nat, oracle: Oracle)
    requires WorldOk(cfg, w) && id in w.tasks
    ensures var tasks' := w.tasks[id := Run(cfg, w.db, w.tasks[id], oracle).next];
      SoleOwners(tasks') && (cfg.serial ==> SoleReconcilers(tasks'))
  {
    hide TablesOk, TraceOk, NoRepeats, TaskOk, Run, MarkOk, Written;
    var task := w.tasks[id];
    var move := Run(cfg, w.db, task, oracle);
    MoveSuccession(cfg, w.db, task, oracle);
    MoveFootprint(cfg, w.db, task, oracle);
    if task.Creating? && move.marks != [] {
      NewKeyIsUnowned(cfg, w.db, task, move);
      forall other | other in w.tasks
        ensures OwnerOf(w.tasks[other]) != Some(task.req.key)
      {
        if OwnerOf(w.tasks[other]).Some? {
          OwnedIsKnown(cfg, w.db, w.requests, w.trace, w.tasks[other]);
        }
      }
    }
  }

  lemma NewKeyIsUnowned(cfg: Config, t: T.Tables, task: Task, move: Move)
    requires FootprintOk(cfg, t, task, move) && task.Creating? && move.marks != []
    ensures task.req.key !in t.streams
  {
    assert MarkOk(cfg, t, task, move.db, move.marks[0]);
  }

  /** Every step of every task keeps the world consistent. */
  lemma StepKeeps(cfg: Config, w: World, id: nat, oracle: Oracle)
    requires WorldOk(cfg, w) && id in w.tasks
    ensures WorldOk(cfg, Next(cfg, w, Step(id, oracle)))
  {
    hide TablesOk, TraceOk, NoRepeats, TaskOk, Run, SoleOwners, SoleReconcilers, Grows, FootprintOk, Admitted;
    var task := w.tasks[id];
    var move := Run(cfg, w.db, task, oracle);
    var w' := Next(cfg, w, Step(id, oracle));
    StepKeepsTables(cfg, w, id, oracle);
    MoveGrows(cfg, w.db, task, oracle);
    MoveFootprint(cfg, w.db, task, oracle);
    TraceExtends(cfg, w.db, w.requests, w.trace, task, move, w'.requests);
    SuccessionKeeps(cfg, w, id, oracle);
    forall other | other in w'.tasks
      ensures TaskOk(cfg, w'.db, w'.requests, w'.trace, w'.tasks[other])
    {
      if other != id {
        OthersStable(cfg, w, id, oracle, other);
      }
    }
  }

  lemma NextKeeps(cfg: Config, w: World, action: Label)
    requires WorldOk(cfg, w)
    ensures WorldOk(cfg, Next(cfg, w, action))
  {
    hide TablesOk, TraceOk, NoRepeats, TaskOk, Run, CanStart, Admitted;
    match action
    case Start(id, task) => if CanStart(cfg, w, id, task) { StartKeeps(cfg, w, id, task); }
    case Step(id, oracle) => if id in w.tasks { StepKeeps(cfg, w, id, oracle); }
    case Crash =>
  }

  /** Every reachable world is consistent: any operations, any interleaving, any answers, any crashes. */
  lemma {:induction false} EveryRun(cfg: Config, labels: seq<Label>)
    ensures WorldOk(cfg, Execute(cfg, labels))
    decreases |labels|
  {
    hide WorldOk, Next;
    if labels == [] {
      StartIsOk(cfg);
    } else {
      EveryRun(cfg, labels[..|labels| - 1]);
      NextKeeps(cfg, Execute(cfg, labels[..|labels| - 1]), labels[|labels| - 1]);
    }
  }
}
