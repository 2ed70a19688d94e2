/** The store's contract: what each call does to the streams, the outbox and the parking table. */
module Tables {
  import opened Wrappers
  import opened Payments
  import opened Pacs008

  type Message = Document

  /** The message digest: any total function of the message. */
  type Hash = Message -> Digest

  datatype Entry = Entry(id: int, key: Key, message: Message, published: bool)

  datatype Tables = Tables(streams: map<Key, seq<Event>>, outbox: seq<Entry>, nextId: int, parked: map<Key, Message>)

  const EMPTY := Tables(map[], [], 0, map[])

  type Outcome = Result<Payment, TransitionError>

  datatype Reply = Reply(tables: Tables, outcome: Outcome)

  datatype CreateOutcome = Created(payment: Payment) | Existing(payment: Payment)

  datatype CreateReply = CreateReply(tables: Tables, outcome: Result<CreateOutcome, TransitionError>)

  predicate InOutbox(outbox: seq<Entry>, key: Key) {
    exists i | 0 <= i < |outbox| :: outbox[i].key == key
  }

  /** The aggregate after the events already on record and then `es`. */
  function Extended(t: Tables, key: Key, es: seq<Event>): Outcome {
    if key !in t.streams then Err(TransitionError(PaymentState.Created, UnknownKey(key)))
    else if t.streams[key] == [] then Err(TransitionError(PaymentState.Created, EmptyHistory))
    else Replay(t.streams[key] + es)
  }

  function Load(t: Tables, key: Key): Option<Payment> {
    if key !in t.streams then None
    else match Replay(t.streams[key])
      case Ok(p) => Some(p)
      case Err(_) => None
  }

  /** Create a payment from its creation event, unless the key is taken. */
  function Create(t: Tables, e: Event): CreateReply {
    if !e.Created? then CreateReply(t, Err(TransitionError(PaymentState.Created, NotACreation(e))))
    else if e.key in t.streams then
      match Replay(t.streams[e.key]) {
        case Ok(p) => CreateReply(t, Ok(Existing(p)))
        case Err(error) => CreateReply(t, Err(error))
      }
    else
      match New(e) {
        case Ok(p) => CreateReply(t.(streams := t.streams[e.key := [e]]), Ok(CreateOutcome.Created(p)))
        case Err(error) => CreateReply(t, Err(error))
      }
  }

  /** Append one event, enforcing the transition. */
  function Append(t: Tables, key: Key, e: Event): Reply {
    var outcome := Extended(t, key, [e]);
    if outcome.Err? then Reply(t, outcome)
    else Reply(t.(streams := t.streams[key := t.streams[key] + [e]]), outcome)
  }

  function Enqueued(t: Tables, key: Key, message: Message): Tables {
    t.(outbox := t.outbox + [Entry(t.nextId, key, message, false)], nextId := t.nextId + 1)
  }

  /** Append the event and enqueue the message: both or neither. */
  function SubmitToOutbox(t: Tables, key: Key, e: Event, message: Message): Reply {
    if InOutbox(t.outbox, key) then
      Reply(t, Err(TransitionError(PaymentState.Submitted, AlreadyInOutbox(key))))
    else
      var appended := Append(t, key, e);
      if appended.outcome.Err? then Reply(t, appended.outcome)
      else Reply(Enqueued(appended.tables, key, message), appended.outcome)
  }

  /** The index of the oldest unpublished entry, or the length of the outbox. */
  function FirstUnpublished(outbox: seq<Entry>): (i: nat)
    ensures i <= |outbox|
    ensures forall j | 0 <= j < i :: outbox[j].published
    ensures i < |outbox| ==> !outbox[i].published
  {
    if outbox == [] || !outbox[0].published then 0 else 1 + FirstUnpublished(outbox[1..])
  }

  function NextUnpublished(t: Tables): Option<Entry> {
    var i := FirstUnpublished(t.outbox);
    if i == |t.outbox| then None else Some(t.outbox[i])
  }

  /** The index of the entry with this id, or the length of the outbox. */
  function IndexOfId(outbox: seq<Entry>, id: int): (i: nat)
    ensures i <= |outbox|
    ensures forall j | 0 <= j < i :: outbox[j].id != id
    ensures i < |outbox| ==> outbox[i].id == id
  {
    if outbox == [] || outbox[0].id == id then 0 else 1 + IndexOfId(outbox[1..], id)
  }

  function MarkPublished(t: Tables, id: int): Tables {
    var i := IndexOfId(t.outbox, id);
    if i == |t.outbox| then t else t.(outbox := t.outbox[i := t.outbox[i].(published := true)])
  }

  function UnpublishedCount(outbox: seq<Entry>): nat {
    if outbox == [] then 0
    else UnpublishedCount(outbox[..|outbox| - 1]) + if outbox[|outbox| - 1].published then 0 else 1
  }

  /** Append the events and park the message: all or nothing. */
  function Park(t: Tables, key: Key, es: seq<Event>, message: Message): Reply {
    var outcome := Extended(t, key, es);
    if outcome.Err? then Reply(t, outcome)
    else Reply(t.(streams := t.streams[key := t.streams[key] + es], parked := t.parked[key := message]), outcome)
  }

  /** Move the parked message to the outbox, when its digest is the recorded one. */
  function ReleaseParked(hash: Hash, t: Tables, key: Key, e: Event): Reply {
    if !e.HoldReleased? then Reply(t, Err(TransitionError(PaymentState.Held, NotARelease(e))))
    else if key !in t.parked then Reply(t, Err(TransitionError(PaymentState.Held, NoParkedMessage(key))))
    else if hash(t.parked[key]) != e.digest then Reply(t, Err(TransitionError(PaymentState.Held, DigestMismatch)))
    else if InOutbox(t.outbox, key) then
      Reply(t, Err(TransitionError(PaymentState.Submitted, AlreadyInOutbox(key))))
    else
      var appended := Append(t, key, e);
      if appended.outcome.Err? then Reply(t, appended.outcome)
      else Reply(Enqueued(appended.tables.(parked := t.parked - {key}), key, t.parked[key]), appended.outcome)
  }

  /** Append the cancellation and delete the parked message, if any. */
  function DiscardParked(t: Tables, key: Key, e: Event): Reply {
    var appended := Append(t, key, e);
    if appended.outcome.Err? then Reply(t, appended.outcome)
    else Reply(appended.tables.(parked := t.parked - {key}), appended.outcome)
  }

  lemma {:induction false} CountSplits(a: seq<Entry>, b: seq<Entry>)
    ensures UnpublishedCount(a + b) == UnpublishedCount(a) + UnpublishedCount(b)
    decreases |b|
  {
    if b == [] {
      assert a + b == a;
    } else {
      assert (a + b)[..|a + b| - 1] == a + b[..|b| - 1];
      CountSplits(a, b[..|b| - 1]);
    }
  }

  /** Marking an unpublished entry takes exactly one off the count. */
  lemma CountMarked(outbox: seq<Entry>, i: nat)
    requires i < |outbox|
    ensures UnpublishedCount(outbox[i := outbox[i].(published := true)])
         == UnpublishedCount(outbox) - if outbox[i].published then 0 else 1
  {
    var marked := outbox[i].(published := true);
    assert outbox == outbox[..i] + [outbox[i]] + outbox[i + 1..];
    assert outbox[i := marked] == outbox[..i] + [marked] + outbox[i + 1..];
    CountSplits(outbox[..i] + [outbox[i]], outbox[i + 1..]);
    CountSplits(outbox[..i], [outbox[i]]);
    CountSplits(outbox[..i] + [marked], outbox[i + 1..]);
    CountSplits(outbox[..i], [marked]);
    assert [outbox[i]][..0] == [] && [marked][..0] == [];
  }
}
