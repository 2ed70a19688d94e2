/** What every store call of the service keeps true of the three tables. */
module StoreInvariant {
  import opened Wrappers
  import opened Payments
  import opened Histories
  import opened Requests
  import opened Reasons
  import opened HoldPolicies
  import opened RiskGates
  import opened Protocol
  import opened Places
  import T = Tables

  /** The verdict that a check on record carries. */
  function VerdictIn(e: Event): Verdict
    requires e.RiskChecked?
  {
    Verdict(e.outcome, e.checkReason, e.source, e.provider, e.elapsedMs)
  }

  /** What the service owes the history when it appends `e` to a payment that stands at `p`. */
  ghost predicate EventOk(cfg: Config, p: Payment, e: Event) {
    match e
    case RiskChecked(_, _, _, _, _, _) => cfg.gated && Sound(cfg.policy, VerdictIn(e))
    case HoldReleased(_, reason, _, at) =>
      Acceptable(reason) && p.heldAt.Some? && !IsExpired(cfg.maxAge, p.heldAt.value, at)
    case HoldCancelled(_, reason, _) => Acceptable(reason)
    case Submitted(_) => cfg.gated ==> p.riskOutcome == Some(RiskOutcome.Allow)
    case TimeoutDeclared(at) => p.publishedAt.Some? && at - p.publishedAt.value >= cfg.timeoutSecs
    case QuerySent(at) => cfg.serial && p.lastQueryAt.Some? ==> at - p.lastQueryAt.value >= cfg.backoffSecs
    case _ => true
  }

  /** Every event was owed when it was appended. */
  ghost predicate Disciplined(cfg: Config, h: seq<Event>)
    decreases |h|
  {
    |h| <= 1 || (
      var front := h[..|h| - 1];
      Disciplined(cfg, front) && Replay(front).Ok? && EventOk(cfg, Replay(front).value, h[|h| - 1]))
  }

  /** The record opens with the request, field by field. */
  ghost predicate Opens(sender: string, req: SubmitRequest, at: int, e: Event) {
    && e.Created? && e.key == req.key && e.at == at
    && e.messageId == req.date + sender + req.senderReference
    && e.creationDateTime == req.creationDateTime && e.endToEndId == req.endToEndId && e.uetr == req.uetr
    && e.amountCents == req.amountCents
  }

  /** A stream that the service has written for `req`. */
  ghost predicate StreamOk(cfg: Config, req: SubmitRequest, h: seq<Event>) {
    && h != []
    && Replay(h).Ok?
    && h[0] == CreationOf(cfg, req, h[0].at)
    && Disciplined(cfg, h)
    && (|h| > 1 ==> cfg.clean(cfg.build(req)))
    && ParkedAsBuilt(cfg, req, h)
  }

  /** The digest recorded for a parked message is that of the message built for the payment. */
  ghost predicate ParkedAsBuilt(cfg: Config, req: SubmitRequest, h: seq<Event>) {
    forall e | e in h && e.HoldParked? :: e.digest == cfg.hash(cfg.build(req))
  }

  lemma StreamOkExtends(cfg: Config, req: SubmitRequest, h: seq<Event>, e: Event)
    requires StreamOk(cfg, req, h) && Replay(h + [e]).Ok?
    requires EventOk(cfg, Replay(h).value, e)
    requires e.Validated? ==> cfg.clean(cfg.build(req))
    requires e.HoldParked? ==> e.digest == cfg.hash(cfg.build(req))
    ensures StreamOk(cfg, req, h + [e]) && cfg.clean(cfg.build(req))
  {
    assert (h + [e])[..|h|] == h;
    ReplayExtends(h, e);
    ReplayIsCoherent(h);
    ReplayKeepsHistory(h);
  }

  ghost predicate StreamsOk(cfg: Config, streams: map<Key, seq<Event>>, requests: map<Key, SubmitRequest>) {
    && requests.Keys == streams.Keys
    && forall k | k in streams ::
      requests[k].key == k && Replay(streams[k]).Ok? && StreamOk(cfg, requests[k], streams[k])
  }

  /** The aggregates on record. */
  ghost function BookOf(streams: map<Key, seq<Event>>): (book: Book)
    requires forall k | k in streams :: Replay(streams[k]).Ok?
    ensures book.Keys == streams.Keys
  {
    map k | k in streams :: Replay(streams[k]).value
  }

  function BuiltFor(cfg: Config, requests: map<Key, SubmitRequest>): (built: map<Key, T.Message>)
    ensures built.Keys == requests.Keys
  {
    map k | k in requests :: cfg.build(requests[k])
  }

  ghost predicate TablesOk(cfg: Config, t: T.Tables, requests: map<Key, SubmitRequest>) {
    && StreamsOk(cfg, t.streams, requests)
    && PlacesOk(cfg.hash, BookOf(t.streams), t.outbox, t.parked)
    && OutboxOk(t.streams.Keys, t.outbox, t.nextId)
    && PendingOk(BookOf(t.streams), t.outbox)
    && MessagesOk(BuiltFor(cfg, requests), t.outbox, t.parked)
  }

  /** The aggregate on record for a key. */
  ghost function At(t: T.Tables, key: Key): Payment
    requires key in t.streams && Replay(t.streams[key]).Ok?
  {
    Replay(t.streams[key]).value
  }

  lemma KnownStream(cfg: Config, t: T.Tables, requests: map<Key, SubmitRequest>, key: Key)
    requires TablesOk(cfg, t, requests) && key in t.streams
    ensures key in requests && requests[key].key == key
    ensures StreamOk(cfg, requests[key], t.streams[key])
    ensures T.InOutbox(t.outbox, key) <==> OnWire(At(t, key).state)
    ensures key in t.parked <==> At(t, key).state.Held?
    ensures key in t.parked ==>
      At(t, key).heldDigest == Some(cfg.hash(t.parked[key])) && t.parked[key] == cfg.build(requests[key])
    ensures T.Load(t, key) == Some(At(t, key)) && At(t, key).key == key
  {
    IdentityIsFixed(t.streams[key]);
    assert BookOf(t.streams)[key] == At(t, key);
    assert key in t.parked ==> BuiltFor(cfg, requests)[key] == t.parked[key];
  }

  /** Some requests explain the tables. */
  ghost predicate Consistent(cfg: Config, t: T.Tables) {
    exists requests :: TablesOk(cfg, t, requests)
  }

  /** Consistent tables have room for a new key, know every payment they list, and can release what they hold. */
  lemma ConsistentIsOpen(cfg: Config, t: T.Tables, key: Key)
    requires Consistent(cfg, t)
    ensures key !in t.streams ==> !T.InOutbox(t.outbox, key)
    ensures key in t.streams ==> T.Load(t, key).Some?
    ensures HoldIsReleasable(cfg, t, key)
  {
    hide TablesOk, Replay, T.Load, T.InOutbox, HoldIsReleasable;
    var requests :| TablesOk(cfg, t, requests);
    if key in t.streams {
      KnownStream(cfg, t, requests, key);
      KnownHoldIsReleasable(cfg, t, requests, key);
    } else {
      if T.InOutbox(t.outbox, key) {
        QueuedIsKnown(cfg, t, requests, key);
      }
      assert HoldIsReleasable(cfg, t, key) by { UnknownIsNotHeld(cfg, t, key); }
    }
  }

  /** Whatever the actor, the reason and the time, the store accepts the release of a held payment. */
  ghost predicate HoldIsReleasable(cfg: Config, t: T.Tables, key: Key) {
    var p := T.Load(t, key);
    p.Some? && p.value.state.Held? ==>
      p.value.heldDigest.Some?
      && forall actor, reason, now ::
        T.ReleaseParked(cfg.hash, t, key, HoldReleased(actor, reason, p.value.heldDigest.value, now)).outcome.Ok?
  }

  lemma UnknownIsNotHeld(cfg: Config, t: T.Tables, key: Key)
    requires key !in t.streams
    ensures HoldIsReleasable(cfg, t, key)
  {
  }

  lemma KnownHoldIsReleasable(cfg: Config, t: T.Tables, requests: map<Key, SubmitRequest>, key: Key)
    requires TablesOk(cfg, t, requests) && key in t.streams
    ensures HoldIsReleasable(cfg, t, key)
  {
    hide TablesOk, Replay, T.Load, T.ReleaseParked;
    KnownStream(cfg, t, requests, key);
    var p := T.Load(t, key).value;
    if p.state.Held? {
      forall actor, reason, now
        ensures T.ReleaseParked(cfg.hash, t, key, HoldReleased(actor, reason, p.heldDigest.value, now)).outcome.Ok?
      {
        ReleaseSucceeds(cfg, t, key, HoldReleased(actor, reason, p.heldDigest.value, now));
      }
    }
  }

  lemma QueuedIsKnown(cfg: Config, t: T.Tables, requests: map<Key, SubmitRequest>, key: Key)
    requires TablesOk(cfg, t, requests) && T.InOutbox(t.outbox, key)
    ensures key in t.streams
  {
    hide StreamsOk, PlacesOk, PendingOk, MessagesOk;
  }

  lemma ReleaseSucceeds(cfg: Config, t: T.Tables, key: Key, e: Event)
    requires key in t.parked && T.Load(t, key).Some? && T.Load(t, key).value.state.Held? && e.HoldReleased?
    requires T.Load(t, key).value.heldDigest == Some(cfg.hash(t.parked[key])) == Some(e.digest)
    requires !T.InOutbox(t.outbox, key)
    ensures T.ReleaseParked(cfg.hash, t, key, e).outcome.Ok?
  {
    ReplayExtends(t.streams[key], e);
  }

  lemma StreamReplaced(cfg: Config, streams: map<Key, seq<Event>>, requests: map<Key, SubmitRequest>, key: Key,
          h: seq<Event>)
    requires StreamsOk(cfg, streams, requests) && key in streams && StreamOk(cfg, requests[key], h) && Replay(h).Ok?
    ensures StreamsOk(cfg, streams[key := h], requests)
    ensures BookOf(streams[key := h]) == BookOf(streams)[key := Replay(h).value]
    ensures streams[key := h].Keys == streams.Keys
  {
    hide Replay, StreamOk;
  }

  // ------------------------------------------------------ call by call

  /** Events that move a payment without moving its message. */
  predicate Plain(e: Event) {
    || e.Validated?
    || (e.RiskChecked? && !e.outcome.Hold?)
    || e.Published? || e.AdviceReceived? || e.TimeoutDeclared? || e.QuerySent?
  }

  lemma PlainKeepsPlace(p: Payment, e: Event)
    requires Plain(e) && Applied(p, e).Ok?
    ensures var q := Applied(p, e).value;
      && OnWire(q.state) == OnWire(p.state)
      && !q.state.Held? && !p.state.Held?
      && (p.state.Submitted? ==> q.state.Submitted? || e.Published?)
  {
  }

  /** Appending a plain event keeps every table consistent. */
  lemma AppendKeepsTables(cfg: Config, t: T.Tables, requests: map<Key, SubmitRequest>, key: Key, e: Event)
    requires TablesOk(cfg, t, requests) && Plain(e)
    requires key in t.streams && Replay(t.streams[key] + [e]).Ok? ==> EventOk(cfg, At(t, key), e)
    requires e.Validated? && key in requests ==> cfg.clean(cfg.build(requests[key]))
    requires e.Published? ==> HandedOver(t.outbox, key)
    ensures TablesOk(cfg, T.Append(t, key, e).tables, requests)
  {
    if T.Append(t, key, e).outcome.Ok? {
      var h := t.streams[key];
      ReplayExtends(h, e);
      StreamOkExtends(cfg, requests[key], h, e);
      PlainKeepsPlace(At(t, key), e);
      StreamReplaced(cfg, t.streams, requests, key, h + [e]);
      MovedInPlace(cfg.hash, BookOf(t.streams), t.outbox, t.parked, key, Replay(h + [e]).value);
    }
  }

  /** A creation succeeds exactly on an unknown key, and starts outside outbox and parking. */
  lemma CreateKeepsTables(cfg: Config, t: T.Tables, requests: map<Key, SubmitRequest>, req: SubmitRequest, at: int)
    requires TablesOk(cfg, t, requests)
    ensures var reply := T.Create(t, CreationOf(cfg, req, at));
      && reply.outcome.Ok?
      && (reply.outcome.value.Created? <==> req.key !in t.streams)
      && reply.tables == (if req.key in t.streams then t else t.(streams := t.streams[req.key := [CreationOf(cfg, req, at)]]))
      && TablesOk(cfg, reply.tables, if req.key in t.streams then requests else requests[req.key := req])
  {
    if req.key in t.streams {
      KnownStream(cfg, t, requests, req.key);
    } else {
      NewStreamKeepsTables(cfg, t, requests, req, [CreationOf(cfg, req, at)]);
    }
  }

  lemma NewStreamKeepsTables(cfg: Config, t: T.Tables, requests: map<Key, SubmitRequest>, req: SubmitRequest,
          h: seq<Event>)
    requires TablesOk(cfg, t, requests) && req.key !in t.streams
    requires StreamOk(cfg, req, h) && Replay(h).Ok? && Replay(h).value.state.Created?
    ensures TablesOk(cfg, t.(streams := t.streams[req.key := h]), requests[req.key := req])
  {
    hide Replay, StreamOk;
    StreamAdded(cfg, t.streams, requests, req, h);
    BookAdded(t.streams, req.key, h);
    NewInPlace(cfg.hash, BookOf(t.streams), t.outbox, t.nextId, t.parked, req.key, Replay(h).value);
    BuiltAdded(cfg, requests, req);
    MessagesStay(BuiltFor(cfg, requests), t.outbox, t.parked, req.key, cfg.build(req));
    KeysStay(t.streams.Keys, t.outbox, t.nextId, req.key);
  }

  lemma MessagesStay(built: map<Key, T.Message>, outbox: seq<T.Entry>, parked: map<Key, T.Message>, key: Key,
          m: T.Message)
    requires MessagesOk(built, outbox, parked) && key !in built
    ensures MessagesOk(built[key := m], outbox, parked)
  {
  }

  lemma KeysStay(keys: set<Key>, outbox: seq<T.Entry>, nextId: int, key: Key)
    requires OutboxOk(keys, outbox, nextId)
    ensures OutboxOk(keys + {key}, outbox, nextId)
  {
  }

  lemma StreamAdded(cfg: Config, streams: map<Key, seq<Event>>, requests: map<Key, SubmitRequest>, req: SubmitRequest,
          h: seq<Event>)
    requires StreamsOk(cfg, streams, requests) && req.key !in streams && StreamOk(cfg, req, h) && Replay(h).Ok?
    ensures StreamsOk(cfg, streams[req.key := h], requests[req.key := req])
  {
    hide Replay, StreamOk;
    var streams', requests' := streams[req.key := h], requests[req.key := req];
    forall k | k in streams'
      ensures requests'[k].key == k && Replay(streams'[k]).Ok? && StreamOk(cfg, requests'[k], streams'[k])
    {
      if k != req.key {
        assert k in streams && streams'[k] == streams[k] && requests'[k] == requests[k];
      }
    }
  }

  lemma BookAdded(streams: map<Key, seq<Event>>, key: Key, h: seq<Event>)
    requires (forall k | k in streams :: Replay(streams[k]).Ok?) && Replay(h).Ok?
    ensures BookOf(streams[key := h]) == BookOf(streams)[key := Replay(h).value]
    ensures streams[key := h].Keys == streams.Keys + {key}
  {
    hide Replay;
  }

  lemma BuiltAdded(cfg: Config, requests: map<Key, SubmitRequest>, req: SubmitRequest)
    ensures BuiltFor(cfg, requests[req.key := req]) == BuiltFor(cfg, requests)[req.key := cfg.build(req)]
  {
  }

  /** Putting the built message of a payment in the outbox, with the event that says so. */
  lemma EnqueueKeepsTables(cfg: Config, t: T.Tables, requests: map<Key, SubmitRequest>, key: Key, h: seq<Event>)
    requires TablesOk(cfg, t, requests) && key in t.streams
    requires StreamOk(cfg, requests[key], h) && Replay(h).value.state.Submitted?
    requires !OnWire(At(t, key).state)
    ensures var moved := T.Tables(t.streams[key := h], t.outbox, t.nextId, t.parked - {key});
      TablesOk(cfg, T.Enqueued(moved, key, cfg.build(requests[key])), requests)
  {
    var entry := T.Entry(t.nextId, key, cfg.build(requests[key]), false);
    KnownStream(cfg, t, requests, key);
    StreamReplaced(cfg, t.streams, requests, key, h);
    MovedToOutbox(cfg.hash, BookOf(t.streams), t.outbox, t.parked, key, Replay(h).value, entry);
    EntryAdded(t.streams.Keys, t.outbox, t.nextId, entry);
    MessageQueued(BuiltFor(cfg, requests), t.outbox, t.parked, entry);
  }

  lemma MessageQueued(built: map<Key, T.Message>, outbox: seq<T.Entry>, parked: map<Key, T.Message>, entry: T.Entry)
    requires MessagesOk(built, outbox, parked)
    requires entry.key in built && entry.message == built[entry.key]
    ensures MessagesOk(built, outbox + [entry], parked - {entry.key})
  {
  }

  /** `submit_to_outbox` from a validated payment never fails, and keeps every table consistent. */
  lemma SubmitKeepsTables(cfg: Config, t: T.Tables, requests: map<Key, SubmitRequest>, key: Key, at: int)
    requires TablesOk(cfg, t, requests) && key in t.streams
    requires At(t, key).state.Validated? && (cfg.gated ==> At(t, key).riskOutcome == Some(RiskOutcome.Allow))
    ensures var reply := T.SubmitToOutbox(t, key, Event.Submitted(at), cfg.build(requests[key]));
      reply.outcome.Ok? && TablesOk(cfg, reply.tables, requests)
  {
    hide TablesOk, StreamOk, Replay;
    KnownStream(cfg, t, requests, key);
    SubmissionAccepted(cfg, requests[key], t.streams[key], at);
    EnqueueKeepsTables(cfg, t, requests, key, t.streams[key] + [Event.Submitted(at)]);
    assert t.parked - {key} == t.parked;
  }

  lemma SubmissionAccepted(cfg: Config, req: SubmitRequest, h: seq<Event>, at: int)
    requires StreamOk(cfg, req, h) && Replay(h).value.state.Validated?
    requires cfg.gated ==> Replay(h).value.riskOutcome == Some(RiskOutcome.Allow)
    ensures h != [] && Replay(h).Ok?
    ensures StreamOk(cfg, req, h + [Event.Submitted(at)])
    ensures Replay(h + [Event.Submitted(at)]).Ok? && Replay(h + [Event.Submitted(at)]).value.state.Submitted?
  {
    ReplayExtends(h, Event.Submitted(at));
    StreamOkExtends(cfg, req, h, Event.Submitted(at));
  }

  /** `release_parked`, refused or not, keeps every table consistent. */
  lemma ReleaseKeepsTables(cfg: Config, t: T.Tables, requests: map<Key, SubmitRequest>, key: Key, e: Event)
    requires TablesOk(cfg, t, requests)
    requires e.HoldReleased? && Acceptable(e.reason)
    requires key in t.streams && At(t, key).state.Held? && At(t, key).heldAt.Some?
             ==> !IsExpired(cfg.maxAge, At(t, key).heldAt.value, e.at)
    ensures var reply := T.ReleaseParked(cfg.hash, t, key, e);
      && TablesOk(cfg, reply.tables, requests)
      && (reply.outcome.Ok? ==> key in t.streams && At(t, key).state.Held?)
  {
    hide TablesOk, StreamOk, Replay;
    var reply := T.ReleaseParked(cfg.hash, t, key, e);
    if reply.outcome.Ok? {
      KnownStream(cfg, t, requests, key);
      ReleaseAccepted(cfg, requests[key], t.streams[key], e);
      EnqueueKeepsTables(cfg, t, requests, key, t.streams[key] + [e]);
    }
  }

  lemma ReleaseAccepted(cfg: Config, req: SubmitRequest, h: seq<Event>, e: Event)
    requires StreamOk(cfg, req, h) && e.HoldReleased? && Acceptable(e.reason)
    requires Replay(h).value.state.Held? && Replay(h).value.heldAt.Some? ==>
               !IsExpired(cfg.maxAge, Replay(h).value.heldAt.value, e.at)
    requires Replay(h + [e]).Ok?
    ensures h != [] && Replay(h).Ok? && Replay(h).value.state.Held?
    ensures StreamOk(cfg, req, h + [e]) && Replay(h + [e]).value.state.Submitted?
  {
    ReplayExtends(h, e);
    ReplayIsCoherent(h);
    StreamOkExtends(cfg, req, h, e);
  }

  /** Parking the built message of an unchecked payment never fails, and keeps every table consistent. */
  lemma ParkKeepsTables(cfg: Config, t: T.Tables, requests: map<Key, SubmitRequest>, key: Key, hold: Event, at: int)
    requires TablesOk(cfg, t, requests) && key in t.streams
    requires At(t, key).state.Validated? && At(t, key).riskOutcome.None?
    requires hold.RiskChecked? && hold.outcome.Hold? && EventOk(cfg, At(t, key), hold)
    ensures var message := cfg.build(requests[key]);
      var reply := T.Park(t, key, [hold, HoldParked(cfg.hash(message), at)], message);
      && reply.outcome.Ok? && key !in t.parked
      && reply.tables.streams == t.streams[key := t.streams[key] + [hold, HoldParked(cfg.hash(message), at)]]
      && TablesOk(cfg, reply.tables, requests)
  {
    hide TablesOk, StreamOk, Replay, EventOk;
    KnownStream(cfg, t, requests, key);
    var digest := cfg.hash(cfg.build(requests[key]));
    ParkingAccepted(cfg, requests[key], t.streams[key], hold, digest, at);
    HeldStreamKeepsTables(cfg, t, requests, key, t.streams[key] + [hold, HoldParked(digest, at)]);
  }

  lemma HeldStreamKeepsTables(cfg: Config, t: T.Tables, requests: map<Key, SubmitRequest>, key: Key, h: seq<Event>)
    requires TablesOk(cfg, t, requests) && key in t.streams && StreamOk(cfg, requests[key], h) && Replay(h).Ok?
    requires !OnWire(At(t, key).state) && Replay(h).value.state.Held?
    requires Replay(h).value.heldDigest == Some(cfg.hash(cfg.build(requests[key])))
    ensures TablesOk(cfg, t.(streams := t.streams[key := h], parked := t.parked[key := cfg.build(requests[key])]), requests)
  {
    hide Replay, StreamOk;
    StreamReplaced(cfg, t.streams, requests, key, h);
    MovedToParking(cfg.hash, BookOf(t.streams), t.outbox, t.parked, key, Replay(h).value, cfg.build(requests[key]));
    MessageParked(BuiltFor(cfg, requests), t.outbox, t.parked, key);
  }

  lemma MessageParked(built: map<Key, T.Message>, outbox: seq<T.Entry>, parked: map<Key, T.Message>, key: Key)
    requires MessagesOk(built, outbox, parked) && key in built
    ensures MessagesOk(built, outbox, parked[key := built[key]])
  {
  }

  lemma ParkingAccepted(cfg: Config, req: SubmitRequest, h: seq<Event>, hold: Event, digest: Digest, at: int)
    requires StreamOk(cfg, req, h)
    requires Replay(h).value.state.Validated? && Replay(h).value.riskOutcome.None?
    requires hold.RiskChecked? && hold.outcome.Hold? && EventOk(cfg, Replay(h).value, hold)
    requires digest == cfg.hash(cfg.build(req))
    ensures h != [] && Replay(h).Ok?
    ensures var h' := h + [hold, HoldParked(digest, at)];
      && StreamOk(cfg, req, h') && Replay(h').Ok?
      && Replay(h').value.state.Held? && Replay(h').value.heldDigest == Some(digest)
  {
    var park := HoldParked(digest, at);
    ReplayIsCoherent(h);
    ReplayExtends(h, hold);
    StreamOkExtends(cfg, req, h, hold);
    ReplayExtends(h + [hold], park);
    StreamOkExtends(cfg, req, h + [hold], park);
    assert h + [hold, park] == h + [hold] + [park];
  }

  /** Cancelling succeeds exactly on a held payment, and deletes its message. */
  lemma DiscardKeepsTables(cfg: Config, t: T.Tables, requests: map<Key, SubmitRequest>, key: Key, e: Event)
    requires TablesOk(cfg, t, requests)
    requires e.HoldCancelled? && Acceptable(e.reason)
    ensures TablesOk(cfg, T.DiscardParked(t, key, e).tables, requests)
    ensures T.DiscardParked(t, key, e).outcome.Ok? <==> key in t.streams && At(t, key).state.Held?
  {
    hide TablesOk, StreamOk, Replay;
    if key in t.streams {
      KnownStream(cfg, t, requests, key);
      CancellationAccepted(cfg, requests[key], t.streams[key], e);
      if At(t, key).state.Held? {
        CancelledStreamKeepsTables(cfg, t, requests, key, t.streams[key] + [e]);
      }
    }
  }

  lemma CancelledStreamKeepsTables(cfg: Config, t: T.Tables, requests: map<Key, SubmitRequest>, key: Key, h: seq<Event>)
    requires TablesOk(cfg, t, requests) && key in t.streams && StreamOk(cfg, requests[key], h) && Replay(h).Ok?
    requires At(t, key).state.Held? && Replay(h).value.state.Cancelled?
    ensures TablesOk(cfg, t.(streams := t.streams[key := h], parked := t.parked - {key}), requests)
  {
    hide Replay, StreamOk;
    StreamReplaced(cfg, t.streams, requests, key, h);
    MovedNowhere(cfg.hash, BookOf(t.streams), t.outbox, t.parked, key, Replay(h).value);
  }

  lemma CancellationAccepted(cfg: Config, req: SubmitRequest, h: seq<Event>, e: Event)
    requires StreamOk(cfg, req, h) && e.HoldCancelled? && Acceptable(e.reason)
    ensures h != [] && Replay(h).Ok?
    ensures Replay(h + [e]).Ok? <==> Replay(h).value.state.Held?
    ensures Replay(h + [e]).Ok? ==> StreamOk(cfg, req, h + [e]) && Replay(h + [e]).value.state.Cancelled?
  {
    ReplayExtends(h, e);
    if Replay(h).value.state.Held? {
      StreamOkExtends(cfg, req, h, e);
    }
  }

  lemma MarksAtPosition(keys: set<Key>, t: T.Tables, id: nat)
    requires OutboxOk(keys, t.outbox, t.nextId) && id < |t.outbox|
    ensures T.MarkPublished(t, id) == t.(outbox := t.outbox[id := t.outbox[id].(published := true)])
  {
    assert t.outbox[id].id == id && T.IndexOfId(t.outbox, id) == id;
  }

  lemma MessagesMarked(built: map<Key, T.Message>, outbox: seq<T.Entry>, parked: map<Key, T.Message>, i: nat)
    requires MessagesOk(built, outbox, parked) && i < |outbox|
    ensures MessagesOk(built, outbox[i := outbox[i].(published := true)], parked)
  {
  }

  /** Marking an entry whose predecessors are all marked keeps the marks a prefix. */
  lemma MarkKeepsTables(cfg: Config, t: T.Tables, requests: map<Key, SubmitRequest>, id: nat)
    requires TablesOk(cfg, t, requests)
    requires id < |t.outbox| && forall j | 0 <= j < id :: t.outbox[j].published
    ensures var t' := T.MarkPublished(t, id);
      && t' == t.(outbox := t.outbox[id := t.outbox[id].(published := true)])
      && TablesOk(cfg, t', requests)
  {
    hide StreamsOk, PlacesOk, OutboxOk, PendingOk, MessagesOk, T.MarkPublished, BookOf, BuiltFor;
    assert forall k | k in t.streams :: Replay(t.streams[k]).Ok? by { AllReplay(cfg, t, requests); }
    MarksAtPosition(t.streams.Keys, t, id);
    EntryMarked(cfg.hash, BookOf(t.streams), t.outbox, t.nextId, t.parked, id);
    MessagesMarked(BuiltFor(cfg, requests), t.outbox, t.parked, id);
  }

  lemma AllReplay(cfg: Config, t: T.Tables, requests: map<Key, SubmitRequest>)
    requires TablesOk(cfg, t, requests)
    ensures forall k | k in t.streams :: Replay(t.streams[k]).Ok?
  {
    hide Replay, StreamOk, PlacesOk, OutboxOk, PendingOk, MessagesOk;
  }
}
