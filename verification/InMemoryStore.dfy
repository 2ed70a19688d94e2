/** The in-memory store: a map of event streams, an outbox and a parking table behind one lock. */
module InMemoryStores {
  import opened Wrappers
  import opened Payments
  import T = Tables

  class InMemoryStore {
    const hash: T.Hash
    var streams: map<Key, seq<Event>>
    var outbox: seq<T.Entry>
    var nextOutboxId: int
    var parked: map<Key, T.Message>

    function View(): T.Tables
      reads this
    {
      T.Tables(streams, outbox, nextOutboxId, parked)
    }

    constructor (hash: T.Hash)
      ensures this.hash == hash && View() == T.EMPTY
    {
      this.hash := hash;
      streams, outbox, nextOutboxId, parked := map[], [], 0, map[];
    }

    method Create(e: Event) returns (r: Result<T.CreateOutcome, TransitionError>)
      modifies this
      ensures T.Create(old(View()), e) == T.CreateReply(View(), r)
    {
      if !e.Created? {
        return Err(TransitionError(PaymentState.Created, NotACreation(e)));
      }
      if e.key in streams {
        var replayed := ReplayAll(streams[e.key]);
        return match replayed
          case Ok(p) => Ok(T.Existing(p))
          case Err(error) => Err(error);
      }
      var payment := new Aggregate(e);
      streams := streams[e.key := [e]];
      return Ok(T.CreateOutcome.Created(payment.View()));
    }

    /** Validate the transition on a replayed aggregate before persisting. */
    method Append(key: Key, e: Event) returns (r: T.Outcome)
      modifies this`streams
      ensures T.Append(old(View()), key, e) == T.Reply(View(), r)
    {
      if key !in streams {
        return Err(TransitionError(PaymentState.Created, UnknownKey(key)));
      }
      var replayed := ReplayAll(streams[key]);
      if replayed.Err? {
        if streams[key] != [] {
          ReplayExtends(streams[key], e);
        }
        return replayed;
      }
      ReplayExtends(streams[key], e);
      r := Applied(replayed.value, e);
      if r.Ok? {
        streams := streams[key := streams[key] + [e]];
      }
    }

    method Load(key: Key) returns (p: Option<Payment>)
      ensures p == T.Load(View(), key)
    {
      if key !in streams {
        return None;
      }
      var replayed := ReplayAll(streams[key]);
      p := match replayed
        case Ok(payment) => Some(payment)
        case Err(_) => None;
    }

    method Keys() returns (keys: set<Key>)
      ensures keys == View().streams.Keys
    {
      keys := streams.Keys;
    }

    method EntryFor(key: Key) returns (found: bool)
      ensures found == T.InOutbox(outbox, key)
    {
      for i := 0 to |outbox|
        invariant forall j | 0 <= j < i :: outbox[j].key != key
      {
        if outbox[i].key == key {
          return true;
        }
      }
      return false;
    }

    method Enqueue(key: Key, message: T.Message)
      modifies this`outbox, this`nextOutboxId
      ensures View() == T.Enqueued(old(View()), key, message)
    {
      var id := nextOutboxId;
      nextOutboxId := nextOutboxId + 1;
      outbox := outbox + [T.Entry(id, key, message, false)];
    }

    method SubmitToOutbox(key: Key, e: Event, message: T.Message) returns (r: T.Outcome)
      modifies this
      ensures T.SubmitToOutbox(old(View()), key, e, message) == T.Reply(View(), r)
    {
      var present := EntryFor(key);
      if present {
        return Err(TransitionError(PaymentState.Submitted, AlreadyInOutbox(key)));
      }
      r := Append(key, e);
      if r.Ok? {
        Enqueue(key, message);
      }
    }

    method NextUnpublished() returns (entry: Option<T.Entry>)
      ensures entry == T.NextUnpublished(View())
    {
      for i := 0 to |outbox|
        invariant forall j | 0 <= j < i :: outbox[j].published
      {
        if !outbox[i].published {
          assert T.FirstUnpublished(outbox) == i;
          return Some(outbox[i]);
        }
      }
      return None;
    }

    method MarkPublished(id: int)
      modifies this`outbox
      ensures View() == T.MarkPublished(old(View()), id)
    {
      for i := 0 to |outbox|
        invariant outbox == old(outbox)
        invariant forall j | 0 <= j < i :: outbox[j].id != id
      {
        if outbox[i].id == id {
          assert T.IndexOfId(outbox, id) == i;
          outbox := outbox[i := outbox[i].(published := true)];
          return;
        }
      }
    }

    method UnpublishedCount() returns (n: nat)
      ensures n == T.UnpublishedCount(outbox)
    {
      n := 0;
      for i := 0 to |outbox|
        invariant n == T.UnpublishedCount(outbox[..i])
      {
        assert outbox[..i + 1][..i] == outbox[..i];
        if !outbox[i].published {
          n := n + 1;
        }
      }
      assert outbox[..|outbox|] == outbox;
    }

    /** Replay a stream, then apply a batch of events to the copy; the stream is not touched. */
    static method ReplayThenApply(stream: seq<Event>, es: seq<Event>) returns (r: T.Outcome)
      ensures r == if stream == [] then Replay([]) else Replay(stream + es)
    {
      r := ReplayAll(stream);
      assert stream + es[..0] == stream;
      for i := 0 to |es|
        invariant stream == [] ==> r == Replay([])
        invariant stream != [] ==> r == Replay(stream + es[..i])
      {
        if r.Err? {
          if stream != [] {
            RefusedPrefix(stream, es, i);
          }
          return;
        }
        ReplayExtends(stream + es[..i], es[i]);
        assert stream + es[..i + 1] == stream + es[..i] + [es[i]];
        r := Applied(r.value, es[i]);
      }
      assert es[..|es|] == es;
    }

    /** A refusal anywhere in the batch is the refusal of the batch. */
    static lemma RefusedPrefix(stream: seq<Event>, es: seq<Event>, i: nat)
      requires stream != [] && i <= |es| && Replay(stream + es[..i]).Err?
      ensures Replay(stream + es) == Replay(stream + es[..i])
    {
      assert (stream + es)[..|stream| + i] == stream + es[..i];
      RefusalSticks(stream + es, |stream| + i);
    }

    /** Validate every transition on a copy before touching the stream. */
    method Park(key: Key, es: seq<Event>, message: T.Message) returns (r: T.Outcome)
      modifies this
      ensures T.Park(old(View()), key, es, message) == T.Reply(View(), r)
    {
      if key !in streams {
        return Err(TransitionError(PaymentState.Created, UnknownKey(key)));
      }
      r := ReplayThenApply(streams[key], es);
      if r.Ok? {
        streams := streams[key := streams[key] + es];
        parked := parked[key := message];
      }
    }

    method ParkedMessage(key: Key) returns (message: Option<T.Message>)
      ensures message == if key in View().parked then Some(View().parked[key]) else None
    {
      message := if key in parked then Some(parked[key]) else None;
    }

    method ReleaseParked(key: Key, e: Event) returns (r: T.Outcome)
      modifies this
      ensures T.ReleaseParked(hash, old(View()), key, e) == T.Reply(View(), r)
    {
      if !e.HoldReleased? {
        return Err(TransitionError(PaymentState.Held, NotARelease(e)));
      }
      if key !in parked {
        return Err(TransitionError(PaymentState.Held, NoParkedMessage(key)));
      }
      var message := parked[key];
      if hash(message) != e.digest {
        return Err(TransitionError(PaymentState.Held, DigestMismatch));
      }
      var present := EntryFor(key);
      if present {
        return Err(TransitionError(PaymentState.Submitted, AlreadyInOutbox(key)));
      }
      r := Append(key, e);
      if r.Ok? {
        parked := parked - {key};
        Enqueue(key, message);
      }
    }

    method DiscardParked(key: Key, e: Event) returns (r: T.Outcome)
      modifies this
      ensures T.DiscardParked(old(View()), key, e) == T.Reply(View(), r)
    {
      r := Append(key, e);
      if r.Ok? {
        parked := parked - {key};
      }
    }
  }
}
