/** The promises of the send path, over every run. */
module Guarantees {
  import opened Wrappers
  import opened Payments
  import opened Histories
  import opened Text
  import opened Pacs008
  import opened Requests
  import opened Reasons
  import opened HoldPolicies
  import opened RiskGates
  import opened Reconciliation
  import opened Protocol
  import opened Advices
  import opened Places
  import opened StoreInvariant
  import opened Interleaving
  import opened Footprints
  import opened Reachability
  import opened Drains
  import opened Summaries
  import T = Tables

  // ------------------------------------------------- the three tables agree

  /** Where the message of `key` is follows from the state of `key` alone. */
  ghost predicate MessageInItsPlace(cfg: Config, t: T.Tables, key: Key) {
    if key !in t.streams then key !in t.parked && !T.InOutbox(t.outbox, key)
    else
      && Replay(t.streams[key]).Ok?
      && (T.InOutbox(t.outbox, key) <==> OnWire(At(t, key).state))
      && (key in t.parked <==> At(t, key).state.Held?)
      && (key in t.parked ==> At(t, key).heldDigest == Some(cfg.hash(t.parked[key])))
  }

  /** One entry per payment, handed off in order, and an entry still to be handed off belongs to a `SUBMITTED` one. */
  ghost predicate OutboxInOrder(t: T.Tables) {
    && (forall i, j | 0 <= i < j < |t.outbox| :: t.outbox[i].key != t.outbox[j].key)
    && (forall i | 0 <= i < |t.outbox| && !t.outbox[i].published :: Stands(t, t.outbox[i].key, PaymentState.Submitted))
    && (forall i, j | 0 <= i < j < |t.outbox| && t.outbox[j].published :: t.outbox[i].published)
  }

  /** In every reachable world, streams, outbox and parking table tell one story. */
  lemma TablesAgree(cfg: Config, labels: seq<Label>)
    ensures forall key :: MessageInItsPlace(cfg, Execute(cfg, labels).db, key)
    ensures OutboxInOrder(Execute(cfg, labels).db)
  {
    hide TablesOk, TraceOk, NoRepeats, TasksOk, MessageInItsPlace, OutboxInOrder;
    var w := Execute(cfg, labels);
    EveryRun(cfg, labels);
    forall key
      ensures MessageInItsPlace(cfg, w.db, key)
    {
      PlaceOf(cfg, w.db, w.requests, key);
    }
    PendingStands(cfg, w.db, w.requests);
  }

  /** What a submission or a release needs to succeed, every reachable store gives. */
  lemma RunsAreConsistent(cfg: Config, labels: seq<Label>)
    ensures Consistent(cfg, Execute(cfg, labels).db)
  {
    hide TablesOk, TraceOk, NoRepeats, TasksOk;
    EveryRun(cfg, labels);
  }

  lemma PlaceOf(cfg: Config, t: T.Tables, requests: Ledger, key: Key)
    requires TablesOk(cfg, t, requests)
    ensures MessageInItsPlace(cfg, t, key)
  {
    hide Replay, StreamOk;
    if key in t.streams {
      KnownStream(cfg, t, requests, key);
    } else {
      assert forall i | 0 <= i < |t.outbox| :: t.outbox[i].key in t.streams.Keys;
    }
  }

  lemma PendingStands(cfg: Config, t: T.Tables, requests: Ledger)
    requires TablesOk(cfg, t, requests)
    ensures OutboxInOrder(t)
  {
    hide Replay, StreamOk;
    forall i | 0 <= i < |t.outbox| && !t.outbox[i].published
      ensures Stands(t, t.outbox[i].key, PaymentState.Submitted)
    {
      KnownStream(cfg, t, requests, t.outbox[i].key);
      assert BookOf(t.streams)[t.outbox[i].key].state.Submitted?;
    }
  }

  /** The keys of the entries still to be handed off. */
  function PendingKeys(outbox: seq<T.Entry>): set<Key> {
    set i | 0 <= i < |outbox| && !outbox[i].published :: outbox[i].key
  }

  lemma PendingKeysExtend(front: seq<T.Entry>, last: T.Entry)
    ensures PendingKeys(front + [last]) == PendingKeys(front) + if last.published then {} else {last.key}
  {
    var outbox := front + [last];
    assert outbox[|front|] == last;
    assert forall i | 0 <= i < |front| :: outbox[i] == front[i];
  }

  lemma {:induction false} PendingKeysCounted(outbox: seq<T.Entry>)
    requires forall i, j | 0 <= i < j < |outbox| :: outbox[i].key != outbox[j].key
    ensures |PendingKeys(outbox)| == T.UnpublishedCount(outbox)
    decreases |outbox|
  {
    if outbox != [] {
      var front, last := outbox[..|outbox| - 1], outbox[|outbox| - 1];
      PendingKeysCounted(front);
      assert outbox == front + [last];
      PendingKeysExtend(front, last);
      assert last.key !in PendingKeys(front);
      hide PendingKeys;
    }
  }

  lemma PendingFewerThanStanding(t: T.Tables)
    requires OutboxInOrder(t)
    ensures T.UnpublishedCount(t.outbox) <= |KeysIn(t, t.streams.Keys, PaymentState.Submitted)|
  {
    hide Replay;
    PendingKeysCounted(t.outbox);
    SubsetSize(PendingKeys(t.outbox), KeysIn(t, t.streams.Keys, PaymentState.Submitted));
  }

  /** `outbox_pending` never exceeds the `SUBMITTED` count. */
  lemma PendingIsBounded(cfg: Config, labels: seq<Label>)
    ensures var t := Execute(cfg, labels).db;
      T.UnpublishedCount(t.outbox) <= |KeysIn(t, t.streams.Keys, PaymentState.Submitted)|
  {
    TablesAgree(cfg, labels);
    PendingFewerThanStanding(Execute(cfg, labels).db);
  }

  lemma {:induction false} SubsetSize(a: set<Key>, b: set<Key>)
    requires a <= b
    ensures |a| <= |b|
    decreases a
  {
    if a != {} {
      var k :| k in a;
      SubsetSize(a - {k}, b - {k});
    }
  }

  // ------------------------------------------------------------- the races

  /**
   * However submits, releases, cancels and sweeps race: one submit per key passes `create`, the provider
   * is asked at most once, no store call of the winner is ever refused, and a hold is resolved at most once.
   */
  lemma RacesHaveOneWinner(cfg: Config, labels: seq<Label>)
    ensures var w := Execute(cfg, labels);
      && (forall key :: Passed(key) in w.trace <==> key in w.db.streams)
      && (forall key :: Asked(key) in w.trace ==> key in w.db.streams)
      && (forall key :: Resolved(key) in w.trace <==>
            T.Load(w.db, key).Some? && T.Load(w.db, key).value.holdResolution.Some?)
      && (forall i, j | 0 <= i < j < |w.trace| && (w.trace[j].Passed? || w.trace[j].Asked? || w.trace[j].Resolved?) ::
            w.trace[i] != w.trace[j])
      && (forall id | id in w.tasks :: !w.tasks[id].Aborted?)
  {
    hide TablesOk, TraceOk, NoRepeats, TasksOk, Replay, T.Load;
    var w := Execute(cfg, labels);
    EveryRun(cfg, labels);
    forall key
      ensures Resolved(key) in w.trace <==> T.Load(w.db, key).Some? && T.Load(w.db, key).value.holdResolution.Some?
    {
      ResolvedExactly(cfg, w, key);
    }
    LogIsFaithful(cfg, w);
  }

  lemma ResolvedExactly(cfg: Config, w: World, key: Key)
    requires WorldOk(cfg, w)
    ensures Resolved(key) in w.trace <==> T.Load(w.db, key).Some? && T.Load(w.db, key).value.holdResolution.Some?
  {
    hide TablesOk, NoRepeats, TasksOk, Replay, T.Load;
    if key in w.db.streams {
      KnownStream(cfg, w.db, w.requests, key);
      LoadIsAt(cfg, w.db, w.requests, key);
    } else {
      UnknownIsNotLoaded(w.db, key);
    }
    assert Resolved(key) in w.trace ==> MarkHolds(w.db, Resolved(key));
  }

  lemma UnknownIsNotLoaded(t: T.Tables, key: Key)
    requires key !in t.streams
    ensures T.Load(t, key).None?
  {
  }

  lemma LogIsFaithful(cfg: Config, w: World)
    requires WorldOk(cfg, w)
    ensures forall key :: Passed(key) in w.trace <==> key in w.db.streams
    ensures forall key :: Asked(key) in w.trace ==> key in w.db.streams
    ensures forall i, j | 0 <= i < j < |w.trace| && (w.trace[j].Passed? || w.trace[j].Asked? || w.trace[j].Resolved?) ::
              w.trace[i] != w.trace[j]
    ensures forall id | id in w.tasks :: !w.tasks[id].Aborted?
  {
    hide TablesOk, LastOf, Count;
    forall key
      ensures Passed(key) in w.trace <==> key in w.db.streams
      ensures Asked(key) in w.trace ==> key in w.db.streams
    {
      assert Passed(key) in w.trace ==> MarkHolds(w.db, Passed(key));
      assert Asked(key) in w.trace ==> MarkHolds(w.db, Asked(key));
    }
    forall i, j | 0 <= i < j < |w.trace| && (w.trace[j].Passed? || w.trace[j].Asked? || w.trace[j].Resolved?)
      ensures w.trace[i] != w.trace[j]
    {
      assert MayFollow(w.trace[i], w.trace[j]);
    }
    forall id | id in w.tasks
      ensures !w.tasks[id].Aborted?
    {
      assert TaskOk(cfg, w.db, w.requests, w.trace, w.tasks[id]);
    }
  }

  /** Whoever is about to park finds nothing parked under its key: parking never meets a parked message. */
  lemma ParkingIsFresh(cfg: Config, labels: seq<Label>, id: nat)
    requires id in Execute(cfg, labels).tasks && Execute(cfg, labels).tasks[id].Recording?
    ensures Execute(cfg, labels).tasks[id].req.key !in Execute(cfg, labels).db.parked
  {
    hide Execute, WorldOk;
    EveryRun(cfg, labels);
    RecorderIsUnparked(cfg, Execute(cfg, labels), id);
  }

  lemma RecorderIsUnparked(cfg: Config, w: World, id: nat)
    requires WorldOk(cfg, w) && id in w.tasks && w.tasks[id].Recording?
    ensures w.tasks[id].req.key !in w.db.parked
  {
    hide TablesOk, TraceOk, NoRepeats, Replay;
    assert TaskOk(cfg, w.db, w.requests, w.trace, w.tasks[id]);
    KnownStream(cfg, w.db, w.requests, w.tasks[id].req.key);
  }

  // ----------------------------------------------- what reaches the port

  /** Validated; checked whenever there is a gate; and allowed, or held and released with the one digest. */
  ghost predicate Vetted(cfg: Config, h: seq<Event>, message: T.Message) {
    && (exists e :: e in h && e.Validated?)
    && (cfg.gated ==> exists e :: e in h && e.RiskChecked?)
    && (forall e | e in h && e.RiskChecked? :: e.outcome.Allow? || (e.outcome.Hold? && ReleasedAsParked(cfg, h, message)))
    && (forall e | e in h :: !e.HoldCancelled?)
  }

  ghost predicate ReleasedAsParked(cfg: Config, h: seq<Event>, message: T.Message) {
    exists p, r :: p in h && r in h && p.HoldParked? && r.HoldReleased? && p.digest == r.digest == cfg.hash(message)
  }

  /** An event the service appended was owed at the time. */
  lemma {:induction false} OwedAt(cfg: Config, h: seq<Event>, j: nat)
    requires Disciplined(cfg, h) && 1 <= j < |h|
    ensures Replay(h[..j]).Ok? && EventOk(cfg, Replay(h[..j]).value, h[j])
    decreases |h|
  {
    hide EventOk, Replay;
    var front := h[..|h| - 1];
    if j < |front| {
      OwedAt(cfg, front, j);
      assert front[..j] == h[..j];
    }
  }

  /** An accepted history accepted each of its events when it came. */
  lemma AcceptedAt(h: seq<Event>, j: nat)
    requires Replay(h).Ok? && 1 <= j < |h|
    ensures Replay(h[..j]).Ok? && Applied(Replay(h[..j]).value, h[j]).Ok?
  {
    hide Replay, Applied;
    PrefixAccepted(h, j + 1);
    PrefixAccepted(h, j);
    assert h[..j + 1] == h[..j] + [h[j]];
    ReplayExtends(h[..j], h[j]);
  }

  /** Validation comes second, or not at all. */
  lemma ValidationIsSecond(h: seq<Event>)
    requires Replay(h).Ok? && |h| > 1
    ensures h[1].Validated?
  {
    AcceptedAt(h, 1);
    assert h[..1] == [h[0]];
  }

  lemma {:induction false} CheckIsRecorded(h: seq<Event>) returns (e: Event)
    requires Replay(h).Ok? && Replay(h).value.riskOutcome.Some?
    ensures e in h && e.RiskChecked? && Replay(h).value.riskOutcome == Some(e.outcome)
    decreases |h|
  {
    var last := h[|h| - 1];
    if |h| > 1 && !last.RiskChecked? {
      e := CheckIsRecorded(h[..|h| - 1]);
    } else {
      e := last;
    }
  }

  lemma {:induction false} DigestIsRecorded(h: seq<Event>) returns (e: Event)
    requires Replay(h).Ok? && Replay(h).value.heldDigest.Some?
    ensures e in h && e.HoldParked? && Replay(h).value.heldDigest == Some(e.digest)
    decreases |h|
  {
    var last := h[|h| - 1];
    if |h| > 1 && !last.HoldParked? {
      e := DigestIsRecorded(h[..|h| - 1]);
    } else {
      e := last;
    }
  }

  lemma {:induction false} ReleaseIsRecorded(h: seq<Event>) returns (j: nat)
    requires Replay(h).Ok? && OnWire(Replay(h).value.state) && Replay(h).value.holdResolution.Some?
    ensures 1 <= j < |h| && h[j].HoldReleased?
    decreases |h|
  {
    j := |h| - 1;
    var front := h[..j];
    if |h| > 1 && !h[j].HoldReleased? {
      ReplayIsCoherent(front);
      j := ReleaseIsRecorded(front);
    }
  }

  /** A release names the digest that was parked, which is the digest of the message built. */
  lemma ReleaseMatchesParking(cfg: Config, req: SubmitRequest, h: seq<Event>, j: nat)
    requires StreamOk(cfg, req, h) && 1 <= j < |h| && h[j].HoldReleased?
    ensures ReleasedAsParked(cfg, h, cfg.build(req))
  {
    AcceptedAt(h, j);
    var p := DigestIsRecorded(h[..j]);
    assert p in h && p.digest == h[j].digest && h[j] in h;
  }

  /** Nothing enters the outbox unchecked while there is a gate. */
  lemma CheckedBeforeOutbox(cfg: Config, req: SubmitRequest, h: seq<Event>) returns (e: Event)
    requires StreamOk(cfg, req, h) && OnWire(Replay(h).value.state) && cfg.gated
    ensures e in h && e.RiskChecked?
  {
    var i := OutboxEntryIsRecorded(h);
    assert i != 0 by { IdentityIsFixed(h); }
    AcceptedAt(h, i);
    OwedAt(cfg, h, i);
    ReplayIsCoherent(h[..i]);
    e := CheckIsRecorded(h[..i]);
  }

  lemma OnWireIsVetted(cfg: Config, req: SubmitRequest, h: seq<Event>)
    requires StreamOk(cfg, req, h) && OnWire(Replay(h).value.state)
    ensures Vetted(cfg, h, cfg.build(req)) && cfg.clean(cfg.build(req))
  {
    hide ReleasedAsParked, StreamOk, Replay;
    WireHistory(cfg, req, h);
    assert h[1] in h;
    if cfg.gated {
      var e := CheckedBeforeOutbox(cfg, req, h);
    }
    forall e | e in h && e.RiskChecked?
      ensures e.outcome.Allow? || (e.outcome.Hold? && ReleasedAsParked(cfg, h, cfg.build(req)))
    {
      HoldIsFinal(h, e);
      if e.outcome.Hold? {
        var j := ReleaseIsRecorded(h);
        ReleaseMatchesParking(cfg, req, h, j);
      }
    }
    HistoryFitsState(h);
    forall e | e in h
      ensures !e.HoldCancelled?
    {
      var i :| 0 <= i < |h| && h[i] == e;
      assert CanHaveHad(Replay(h).value, Kind(h[i]));
    }
  }

  lemma WireHistory(cfg: Config, req: SubmitRequest, h: seq<Event>)
    requires StreamOk(cfg, req, h) && OnWire(Replay(h).value.state)
    ensures Replay(h).Ok? && |h| > 1 && h[1].Validated? && cfg.clean(cfg.build(req))
    ensures Coherent(Replay(h).value)
  {
    ReplayIsCoherent(h);
    ReplayKeepsHistory(h);
    ValidationIsSecond(h);
  }

  /**
   * Every message handed to the port is exactly the one built for its key, clean and vetted, and its
   * payment is on the wire: held, refused, cancelled and unvalidated payments never reach the port.
   */
  lemma OnlyVettedMessagesLeave(cfg: Config, labels: seq<Label>, entry: T.Entry, answer: PortAnswer)
    requires HandedOff(entry, answer) in Execute(cfg, labels).trace
    ensures var w := Execute(cfg, labels);
      && entry.key in w.db.streams && entry.key in w.requests
      && Replay(w.db.streams[entry.key]).Ok? && OnWire(At(w.db, entry.key).state)
      && entry.message == cfg.build(w.requests[entry.key]) && cfg.clean(entry.message)
      && Vetted(cfg, w.db.streams[entry.key], entry.message)
  {
    hide TablesOk, TasksOk, NoRepeats, Vetted, StreamOk, Replay;
    var w := Execute(cfg, labels);
    EveryRun(cfg, labels);
    assert MarkHolds(w.db, HandedOff(entry, answer));
    EntryIsBuilt(cfg, w.db, w.requests, entry.id);
    OnWireIsVetted(cfg, w.requests[entry.key], w.db.streams[entry.key]);
  }

  lemma EntryIsBuilt(cfg: Config, t: T.Tables, requests: Ledger, i: nat)
    requires TablesOk(cfg, t, requests) && i < |t.outbox|
    ensures var key := t.outbox[i].key;
      && key in t.streams && key in requests && StreamOk(cfg, requests[key], t.streams[key])
      && t.outbox[i].message == cfg.build(requests[key])
      && Replay(t.streams[key]).Ok? && OnWire(At(t, key).state)
  {
    hide Replay, StreamOk;
    KnownStream(cfg, t, requests, t.outbox[i].key);
  }

  /** With the gateway's own builder and validator: what leaves says what was requested, of clean inputs. */
  lemma OnlyCleanTransfersLeave(cfg: Config, isDateTime: string -> bool, labels: seq<Label>, entry: T.Entry,
          answer: PortAnswer)
    requires BuildsPacs008(cfg, isDateTime)
    requires HandedOff(entry, answer) in Execute(cfg, labels).trace
    ensures var w := Execute(cfg, labels);
      && entry.key in w.requests
      && Carries(entry.message, cfg.sender, w.requests[entry.key])
      && CleanInputs(cfg.sender, w.requests[entry.key], isDateTime)
  {
    hide Carries, CleanInputs, MessageOf;
    OnlyVettedMessagesLeave(cfg, labels, entry, answer);
    BuiltCarriesRequest(cfg.sender, Execute(cfg, labels).requests[entry.key]);
    BuiltIsCleanExactly(cfg.sender, Execute(cfg, labels).requests[entry.key], isDateTime);
  }

  /** A rejected message changes nothing; a confirmed one is published now, and takes the advice that came with it. */
  ghost predicate ReflectsAnswer(before: Payment, answer: PortAnswer, now: int, p: Payment) {
    var published := before.(state := PaymentState.AckPending, publishedAt := Some(now),
                             events := before.events + [Published(now)]);
    if answer.Rejected? then p == before
    else if Tells(answer) then Takes(published, answer.body.report, now, p)
    else p == published
  }

  /** The drain records what the port answered about the oldest entry, code by code. */
  lemma HandOffIsRecorded(cfg: Config, t: T.Tables, requests: Ledger, answer: PortAnswer, now: int)
    requires TablesOk(cfg, t, requests) && T.NextUnpublished(t).Some? && !answer.TransportFailure?
    ensures var entry := T.NextUnpublished(t).value;
      var before, p := T.Load(t, entry.key), T.Load(Settle(t, entry, answer, now), entry.key);
      && before.Some? && before.value.state.Submitted?
      && p.Some? && ReflectsAnswer(before.value, answer, now, p.value)
  {
    hide TablesOk, Replay, Takes, Usable, AdviceOf, T.Append;
    var entry := T.NextUnpublished(t).value;
    NextIsSubmitted(cfg, t, requests);
    var marked := T.MarkPublished(t, entry.id);
    assert marked.streams == t.streams;
    SameLoad(marked, t, entry.key);
    ToldIsAdvice(answer, now);
    if !answer.Rejected? {
      LoadAppends(marked, entry.key, Published(now));
      var published := T.Append(marked, entry.key, Published(now)).tables;
      if Tells(answer) {
        AdviceMoves(T.Load(published, entry.key).value, answer.body.report, now);
        LoadAppends(published, entry.key, AdviceIn(answer, now).value);
      }
    }
  }

  lemma NextIsSubmitted(cfg: Config, t: T.Tables, requests: Ledger)
    requires TablesOk(cfg, t, requests) && T.NextUnpublished(t).Some?
    ensures Stands(t, T.NextUnpublished(t).value.key, PaymentState.Submitted)
  {
    hide TablesOk, Stands;
    PendingStands(cfg, t, requests);
  }

  lemma SameLoad(t: T.Tables, t': T.Tables, key: Key)
    requires t.streams == t'.streams
    ensures T.Load(t, key) == T.Load(t', key)
  {
  }

  lemma LoadAppends(t: T.Tables, key: Key, e: Event)
    requires T.Load(t, key).Some? && Applied(T.Load(t, key).value, e).Ok?
    ensures T.Load(T.Append(t, key, e).tables, key) == Some(Applied(T.Load(t, key).value, e).value)
  {
    hide Applied;
    ReplayExtends(t.streams[key], e);
  }

  /** In every run, what is on record for a key and what is queued for it say what its request said. */
  lemma RecordCarriesRequest(cfg: Config, isDateTime: string -> bool, labels: seq<Label>, key: Key)
    requires BuildsPacs008(cfg, isDateTime) && key in Execute(cfg, labels).db.streams
    ensures var w := Execute(cfg, labels);
      && key in w.requests && w.requests[key].key == key
      && w.db.streams[key] != [] && Opens(cfg.sender, w.requests[key], w.db.streams[key][0].at, w.db.streams[key][0])
      && (key in w.db.parked ==> Carries(w.db.parked[key], cfg.sender, w.requests[key]))
      && forall i | 0 <= i < |w.db.outbox| && w.db.outbox[i].key == key ::
        Carries(w.db.outbox[i].message, cfg.sender, w.requests[key])
  {
    hide TablesOk, TraceOk, NoRepeats, TasksOk, Replay, Carries, MessageOf, StreamOk;
    var w := Execute(cfg, labels);
    EveryRun(cfg, labels);
    KnownStream(cfg, w.db, w.requests, key);
    BuiltCarriesRequest(cfg.sender, w.requests[key]);
    OpensWithRequest(cfg, w.requests[key], w.db.streams[key]);
    forall i | 0 <= i < |w.db.outbox| && w.db.outbox[i].key == key
      ensures Carries(w.db.outbox[i].message, cfg.sender, w.requests[key])
    {
      EntryIsBuilt(cfg, w.db, w.requests, i);
    }
  }

  lemma OpensWithRequest(cfg: Config, req: SubmitRequest, h: seq<Event>)
    requires StreamOk(cfg, req, h)
    ensures h != [] && Opens(cfg.sender, req, h[0].at, h[0])
  {
  }

  // -------------------------------------------------------------- timing

  ghost predicate Reachable(cfg: Config, labels: seq<Label>, key: Key) {
    key in Execute(cfg, labels).db.streams
  }

  lemma StreamInRun(cfg: Config, labels: seq<Label>, key: Key)
    requires Reachable(cfg, labels, key)
    ensures var w := Execute(cfg, labels);
      key in w.requests && StreamOk(cfg, w.requests[key], w.db.streams[key])
  {
    hide TablesOk, TraceOk, NoRepeats, TasksOk, StreamOk;
    EveryRun(cfg, labels);
    KnownStream(cfg, Execute(cfg, labels).db, Execute(cfg, labels).requests, key);
  }

  /** A release follows its hold, and the hold had not expired. */
  lemma ReleasedBeforeExpiry(cfg: Config, labels: seq<Label>, key: Key, i: nat, j: nat)
    requires Reachable(cfg, labels, key)
    requires var h := Execute(cfg, labels).db.streams[key];
      i < |h| && j < |h| && HoldTime(h[i]).Some? && h[j].HoldReleased?
    ensures var h := Execute(cfg, labels).db.streams[key];
      i < j && !IsExpired(cfg.maxAge, h[i].at, h[j].at)
  {
    var h := Execute(cfg, labels).db.streams[key];
    hide Execute, IsExpired;
    StreamInRun(cfg, labels, key);
    assert j != 0 by { IdentityIsFixed(h); }
    OwedAt(cfg, h, j);
    var e := HoldIsRecorded(h[..j]);
    HoldIsFinal(h, e);
    HoldIsFinal(h, h[i]);
    if j < i {
      var m :| 0 <= m < j && h[m] == e;
      OneShotEvents(h, m, i);
    }
  }

  /** Each release comes at most the maximum age after its hold. */
  lemma ReleasedWithinMaxAge(cfg: Config, labels: seq<Label>, key: Key, i: nat, j: nat)
    requires Reachable(cfg, labels, key)
    requires var h := Execute(cfg, labels).db.streams[key];
      && i < |h| && j < |h| && HoldTime(h[i]).Some? && h[j].HoldReleased?
      && (cfg.maxAge < I64_MAX || (h[i].at >= 0 && h[j].at <= I64_MAX))
    ensures var h := Execute(cfg, labels).db.streams[key];
      i < j && h[j].at - h[i].at <= cfg.maxAge
  {
    hide Execute;
    ReleasedBeforeExpiry(cfg, labels, key, i, j);
  }

  /** Once a hold is expired at some time, no run releases it at that time or later. */
  lemma NoReleaseAfterExpiry(cfg: Config, labels: seq<Label>, key: Key, i: nat, j: nat, seen: int)
    requires Reachable(cfg, labels, key)
    requires var h := Execute(cfg, labels).db.streams[key];
      && i < |h| && j < |h| && HoldTime(h[i]).Some? && h[j].HoldReleased?
      && IsExpired(cfg.maxAge, h[i].at, seen)
    ensures Execute(cfg, labels).db.streams[key][j].at < seen
  {
    var h := Execute(cfg, labels).db.streams[key];
    hide Execute, IsExpired;
    ReleasedBeforeExpiry(cfg, labels, key, i, j);
    if seen <= h[j].at {
      ExpiryIsForGood(cfg.maxAge, h[i].at, seen, h[j].at);
    }
  }

  // ------------------------------------------------------- final states

  lemma NextGrows(cfg: Config, w: World, action: Label)
    ensures Grows(w.db, Next(cfg, w, action).db)
  {
    hide Run, Grows, CanStart;
    StayGrows(w.db);
    if action.Step? && action.id in w.tasks {
      MoveGrows(cfg, w.db, w.tasks[action.id], action.oracle);
    }
  }

  /** Whatever a run goes on with, what a stream holds already it keeps. */
  lemma {:induction false} StreamsOnlyGrow(cfg: Config, labels: seq<Label>, later: seq<Label>, key: Key)
    requires Reachable(cfg, labels, key)
    ensures Reachable(cfg, labels + later, key)
    ensures Execute(cfg, labels).db.streams[key] <= Execute(cfg, labels + later).db.streams[key]
    decreases |later|
  {
    hide Next;
    if later == [] {
      assert labels + later == labels;
    } else {
      var front, last := later[..|later| - 1], later[|later| - 1];
      StreamsOnlyGrow(cfg, labels, front, key);
      assert (labels + later)[..|labels + later| - 1] == labels + front;
      NextGrows(cfg, Execute(cfg, labels + front), last);
    }
  }

  /** Nothing that happens later adds to the history of a refused, rejected or cancelled payment. */
  lemma FrozenStreamsStay(cfg: Config, labels: seq<Label>, later: seq<Label>, key: Key)
    requires var p := T.Load(Execute(cfg, labels).db, key); p.Some? && Frozen(p.value.state)
    ensures Reachable(cfg, labels, key) && Reachable(cfg, labels + later, key)
    ensures Execute(cfg, labels + later).db.streams[key] == Execute(cfg, labels).db.streams[key]
    ensures T.Load(Execute(cfg, labels + later).db, key) == T.Load(Execute(cfg, labels).db, key)
  {
    hide Execute, Replay, Frozen;
    StreamsOnlyGrow(cfg, labels, later, key);
    StreamInRun(cfg, labels + later, key);
    var h, h' := Execute(cfg, labels).db.streams[key], Execute(cfg, labels + later).db.streams[key];
    if |h| < |h'| {
      FrozenForGood(h, h'[|h|]);
      assert h'[..|h| + 1] == h + [h'[|h|]];
      RefusalSticks(h', |h| + 1);
    }
  }

  /** A timeout is never declared earlier than `timeout_secs` after publication. */
  lemma TimeoutIsNotEarly(cfg: Config, labels: seq<Label>, key: Key, i: nat, j: nat)
    requires Reachable(cfg, labels, key)
    requires var h := Execute(cfg, labels).db.streams[key];
      i < |h| && j < |h| && h[i].Published? && h[j].TimeoutDeclared?
    ensures var h := Execute(cfg, labels).db.streams[key];
      i < j && h[j].at - h[i].at >= cfg.timeoutSecs
  {
    var h := Execute(cfg, labels).db.streams[key];
    hide Execute;
    StreamInRun(cfg, labels, key);
    assert j != 0 by { IdentityIsFixed(h); }
    OwedAt(cfg, h, j);
    var e := PublicationIsRecorded(h[..j]);
    PublicationIsFinal(h, e);
    PublicationIsFinal(h, h[i]);
    if j < i {
      var m :| 0 <= m < j && h[m] == e;
      OneShotEvents(h, m, i);
    }
  }

  /** The last of the queries up to the end of `h`, given one of them. */
  lemma {:induction false} LastQuery(h: seq<Event>, i: nat) returns (m: nat)
    requires i < |h| && h[i].QuerySent?
    ensures i <= m < |h| && h[m].QuerySent? && LastOf(h, QueryTime) == Some(h[m].at)
    ensures Count(h, IsQuery) == Count(h[..m + 1], IsQuery)
    decreases |h|
  {
    m := |h| - 1;
    assert h[..m + 1] == h;
    if !h[m].QuerySent? {
      var front := h[..m];
      m := LastQuery(front, i);
      assert front[..m + 1] == h[..m + 1];
    }
  }

  /** Queries on one payment are spaced: each one after the first adds at least the backoff. */
  lemma {:induction false} QueriesAreSpaced(cfg: Config, h: seq<Event>, i: nat, j: nat)
    requires cfg.serial && Disciplined(cfg, h) && Replay(h).Ok?
    requires i <= j < |h| && h[i].QuerySent? && h[j].QuerySent?
    ensures h[j].at - h[i].at >= (Count(h[..j + 1], IsQuery) - Count(h[..i + 1], IsQuery)) * cfg.backoffSecs
    decreases j
  {
    hide Replay;
    if i < j {
      var before := h[..j];
      OwedAt(cfg, h, j);
      ReplayFolds(before);
      var m := LastQuery(before, i);
      QueriesAreSpaced(cfg, h, i, m);
      assert before[..m + 1] == h[..m + 1];
      assert h[..j + 1][..j] == before;
      var n := Count(h[..m + 1], IsQuery) - Count(h[..i + 1], IsQuery);
      assert Count(h[..j + 1], IsQuery) - Count(h[..i + 1], IsQuery) == n + 1;
      assert (n + 1) * cfg.backoffSecs == n * cfg.backoffSecs + cfg.backoffSecs;
    }
  }

  /** From the query at `i` to the one at `j`, every further query took its backoff. */
  ghost predicate Paced(cfg: Config, h: seq<Event>, i: nat, j: nat)
    requires i < j < |h| && h[i].QuerySent? && h[j].QuerySent?
  {
    var elapsed, further := h[j].at - h[i].at, Count(h[..j + 1], IsQuery) - Count(h[..i + 1], IsQuery);
    && further >= 1
    && elapsed >= further * cfg.backoffSecs
    && (cfg.backoffSecs > 0 ==> elapsed >= cfg.backoffSecs && further <= elapsed / cfg.backoffSecs)
  }

  /**
   * With reconcile calls on a key run one at a time: any two queries are at least the backoff apart for
   * each query in between, so between the first and the last there are at most 1 + elapsed / backoff.
   */
  lemma QueryPacing(cfg: Config, labels: seq<Label>, key: Key, i: nat, j: nat)
    requires cfg.serial && Reachable(cfg, labels, key)
    requires var h := Execute(cfg, labels).db.streams[key];
      i < j < |h| && h[i].QuerySent? && h[j].QuerySent?
    ensures Paced(cfg, Execute(cfg, labels).db.streams[key], i, j)
  {
    var h := Execute(cfg, labels).db.streams[key];
    hide Execute, Replay, StreamOk, Paced;
    StreamInRun(cfg, labels, key);
    PacedStream(cfg, Execute(cfg, labels).requests[key], h, i, j);
  }

  lemma PacedStream(cfg: Config, req: SubmitRequest, h: seq<Event>, i: nat, j: nat)
    requires cfg.serial && StreamOk(cfg, req, h)
    requires i < j < |h| && h[i].QuerySent? && h[j].QuerySent?
    ensures Paced(cfg, h, i, j)
  {
    hide Replay;
    QueriesAreSpaced(cfg, h, i, j);
    var further := FurtherQueries(h, i, j);
    hide Count;
    if cfg.backoffSecs > 0 {
      QuotientBound(further, cfg.backoffSecs, h[j].at - h[i].at);
    }
  }

  lemma FurtherQueries(h: seq<Event>, i: nat, j: nat) returns (further: nat)
    requires i < j < |h| && h[j].QuerySent?
    ensures further == Count(h[..j + 1], IsQuery) - Count(h[..i + 1], IsQuery) >= 1
  {
    assert h[..j + 1][..j] == h[..j];
    CountKept(h[..i + 1], h[..j], IsQuery);
    further := Count(h[..j + 1], IsQuery) - Count(h[..i + 1], IsQuery);
  }

  lemma QuotientBound(n: int, d: int, x: int)
    requires d > 0 && n >= 1 && x >= n * d
    ensures n <= x / d && x >= d
  {
    var q := x / d;
    assert x == q * d + x % d;
    assert (n - (q + 1)) * d == n * d - q * d - d;
    NegativeFactor(n - (q + 1), d);
    NegativeFactor(-n, d);
    NegativeFactor(-q, d);
    assert x >= d by { assert q >= 1; assert (q - 1) * d >= 0; assert (q - 1) * d == q * d - d; }
  }

  lemma NegativeFactor(c: int, d: int)
    requires d > 0
    ensures c * d < 0 <==> c < 0
  {
  }

  /** Numbers carry no `Q`, so an id's number can be read off its end. */
  lemma NumbersHaveNoLetters(n: nat)
    ensures 'Q' !in Decimal(n)
  {
    assert forall i | 0 <= i < |Decimal(n)| :: IsDigit(Decimal(n)[i]);
  }

  /** Two texts ending in a `Q` and something without one agree only if both halves do. */
  lemma SplitAtLastQ(p1: string, s1: string, p2: string, s2: string)
    requires p1 + ("Q" + s1) == p2 + ("Q" + s2) && 'Q' !in s1 && 'Q' !in s2
    ensures p1 == p2 && s1 == s2
  {
    var t1, t2 := p1 + ("Q" + s1), p2 + ("Q" + s2);
    assert t1[|p1|] == 'Q' && t2[|p2|] == 'Q';
    assert forall i | |p1| < i < |t1| :: t1[i] == s1[i - |p1| - 1] && t1[i] in s1;
    assert forall i | |p2| < i < |t2| :: t2[i] == s2[i - |p2| - 1] && t2[i] in s2;
    assert |p1| == |p2|;
    assert p1 == t1[..|p1|] && p2 == t2[..|p2|] && s1 == t1[|p1| + 1..] && s2 == t2[|p2| + 1..];
  }

  /** Ids of status queries collide exactly when date and number do: they are unique within one payment only. */
  lemma QueryIdsCollideExactly(sender: string, d1: string, n1: nat, d2: string, n2: nat)
    ensures QueryId(sender, d1, n1) == QueryId(sender, d2, n2) <==> d1 == d2 && n1 == n2
  {
    if QueryId(sender, d1, n1) == QueryId(sender, d2, n2) {
      NumbersHaveNoLetters(n1);
      NumbersHaveNoLetters(n2);
      SplitAtLastQ(d1 + sender, Decimal(n1), d2 + sender, Decimal(n2));
      assert |d1| == |d2| && d1 == (d1 + sender)[..|d1|] && d2 == (d2 + sender)[..|d2|];
      DecimalDenotes(n1);
      DecimalDenotes(n2);
    }
  }

  /** No two queries of one payment carry the same message id. */
  lemma QueryIdsAreDistinct(cfg: Config, labels: seq<Label>, i: nat, j: nat)
    requires var trace := Execute(cfg, labels).trace;
      && i < j < |trace| && trace[i].Queried? && trace[j].Queried?
      && trace[i].key == trace[j].key
    ensures var trace := Execute(cfg, labels).trace;
      QueryId(cfg.sender, trace[i].date, trace[i].number) != QueryId(cfg.sender, trace[j].date, trace[j].number)
  {
    hide TablesOk, TraceOk, TasksOk, Execute;
    EveryRun(cfg, labels);
    var trace := Execute(cfg, labels).trace;
    assert MayFollow(trace[i], trace[j]);
    QueryIdsCollideExactly(cfg.sender, trace[i].date, trace[i].number, trace[j].date, trace[j].number);
  }

  // ---------------------------------------------------------- the gate

  /**
   * The gate never fails open by itself: in every run, a check that no provider decided ended as the policy
   * says, under the code of what was missing; and without a gate nothing is ever checked.
   */
  lemma ChecksFailAsConfigured(cfg: Config, labels: seq<Label>, key: Key, j: nat)
    requires Reachable(cfg, labels, key) && j < |Execute(cfg, labels).db.streams[key]|
    requires Execute(cfg, labels).db.streams[key][j].RiskChecked?
    ensures cfg.gated
    ensures var e := Execute(cfg, labels).db.streams[key][j];
      && e.provider == cfg.policy.provider && (e.checkReason.None? <==> e.outcome.Allow?)
      && (!e.source.Provider? ==>
            && e.outcome == cfg.policy.onUnavailable
            && (!e.outcome.Allow? ==> e.checkReason == Some(MissingCode(e.source))))
  {
    var h := Execute(cfg, labels).db.streams[key];
    hide Execute;
    StreamInRun(cfg, labels, key);
    assert j != 0 by { IdentityIsFixed(h); }
    OwedAt(cfg, h, j);
  }

  // ------------------------------------------------------------- reasons

  function ReasonOf(e: Event): Option<string> {
    match e
    case RiskChecked(_, reason, _, _, _, _) => reason
    case HoldReleased(_, reason, _, _) => Some(reason)
    case HoldCancelled(_, reason, _) => Some(reason)
    case _ => None
  }

  /** Every risk, release and cancel reason on record is a short code that sanitising leaves alone. */
  lemma ReasonsAreCodes(cfg: Config, labels: seq<Label>, key: Key, j: nat)
    requires Reachable(cfg, labels, key) && j < |Execute(cfg, labels).db.streams[key]|
    requires ReasonOf(Execute(cfg, labels).db.streams[key][j]).Some?
    ensures var reason := ReasonOf(Execute(cfg, labels).db.streams[key][j]).value;
      Sanitize(reason) == reason && IsCode(reason)
  {
    var h := Execute(cfg, labels).db.streams[key];
    hide Execute;
    StreamInRun(cfg, labels, key);
    assert j != 0 by { IdentityIsFixed(h); }
    OwedAt(cfg, h, j);
    CodesAreAcceptable(ReasonOf(h[j]).value);
  }

  /** Reconciling touches neither outbox nor parking table: a lost reply never causes a resend. */
  lemma ReconcileNeverResends(cfg: Config, w: World, id: nat, oracle: Oracle)
    requires id in w.tasks && Reconciling(w.tasks[id]).Some?
    ensures var w' := Next(cfg, w, Step(id, oracle));
      w'.db.outbox == w.db.outbox && w'.db.parked == w.db.parked
  {
    ReconcileFootprint(cfg, w.db, w.tasks[id], oracle);
  }
}
