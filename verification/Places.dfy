/** Where a payment's message may be: in the outbox, in parking, or nowhere. */
module Places {
  import opened Wrappers
  import opened Payments
  import opened Histories
  import T = Tables

  type Book = map<Key, Payment>

  /** An outbox entry exists exactly for payments on the wire, a parked message exactly for held ones. */
  ghost predicate PlacesOk(hash: T.Hash, book: Book, outbox: seq<T.Entry>, parked: map<Key, T.Message>) {
    && parked.Keys <= book.Keys
    && (forall k | k in book :: T.InOutbox(outbox, k) <==> OnWire(book[k].state))
    && (forall k | k in book :: k in parked <==> book[k].state.Held?)
    && (forall k | k in parked :: book[k].heldDigest == Some(hash(parked[k])))
  }

  /** Outbox entries are numbered by position, one per key, and published in order. */
  ghost predicate OutboxOk(keys: set<Key>, outbox: seq<T.Entry>, nextId: int) {
    && nextId == |outbox|
    && (forall i | 0 <= i < |outbox| :: outbox[i].id == i && outbox[i].key in keys)
    && (forall i, j | 0 <= i < j < |outbox| :: outbox[i].key != outbox[j].key)
    && (forall i, j | 0 <= i < j < |outbox| :: outbox[j].published ==> outbox[i].published)
  }

  /** An entry not yet handed off belongs to a payment still waiting to be sent. */
  ghost predicate PendingOk(book: Book, outbox: seq<T.Entry>) {
    forall i | 0 <= i < |outbox| && !outbox[i].published ::
      outbox[i].key in book && book[outbox[i].key].state.Submitted?
  }

  /** Queued and parked messages are the ones built for their keys. */
  ghost predicate MessagesOk(built: map<Key, T.Message>, outbox: seq<T.Entry>, parked: map<Key, T.Message>) {
    && (forall i | 0 <= i < |outbox| :: outbox[i].key in built && outbox[i].message == built[outbox[i].key])
    && (forall k | k in parked :: k in built && parked[k] == built[k])
  }

  /** The entry of `key`, wherever it is, has been handed off. */
  ghost predicate HandedOver(outbox: seq<T.Entry>, key: Key) {
    forall i | 0 <= i < |outbox| && outbox[i].key == key :: outbox[i].published
  }

  lemma EnqueuedKeys(outbox: seq<T.Entry>, entry: T.Entry, key: Key)
    ensures T.InOutbox(outbox + [entry], key) <==> T.InOutbox(outbox, key) || entry.key == key
  {
    if T.InOutbox(outbox, key) {
      var i :| 0 <= i < |outbox| && outbox[i].key == key;
      assert (outbox + [entry])[i].key == key;
    }
    if entry.key == key {
      assert (outbox + [entry])[|outbox|].key == key;
    }
  }

  /** A payment that moves without its message leaves every message where it was. */
  lemma MovedInPlace(hash: T.Hash, book: Book, outbox: seq<T.Entry>, parked: map<Key, T.Message>, key: Key, q: Payment)
    requires PlacesOk(hash, book, outbox, parked) && PendingOk(book, outbox) && key in book
    requires OnWire(q.state) == OnWire(book[key].state)
    requires !q.state.Held? && !book[key].state.Held?
    requires book[key].state.Submitted? ==> q.state.Submitted? || HandedOver(outbox, key)
    ensures PlacesOk(hash, book[key := q], outbox, parked) && PendingOk(book[key := q], outbox)
  {
  }

  lemma NewInPlace(hash: T.Hash, book: Book, outbox: seq<T.Entry>, nextId: int, parked: map<Key, T.Message>, key: Key,
          q: Payment)
    requires PlacesOk(hash, book, outbox, parked) && PendingOk(book, outbox) && key !in book
    requires OutboxOk(book.Keys, outbox, nextId)
    requires q.state.Created?
    ensures PlacesOk(hash, book[key := q], outbox, parked) && PendingOk(book[key := q], outbox)
  {
  }

  /** A payment that goes on the wire takes its message to the outbox. */
  lemma MovedToOutbox(hash: T.Hash, book: Book, outbox: seq<T.Entry>, parked: map<Key, T.Message>, key: Key,
          q: Payment, entry: T.Entry)
    requires PlacesOk(hash, book, outbox, parked) && PendingOk(book, outbox) && key in book
    requires q.state.Submitted? && !OnWire(book[key].state)
    requires entry.key == key && !entry.published
    ensures PlacesOk(hash, book[key := q], outbox + [entry], parked - {key})
    ensures PendingOk(book[key := q], outbox + [entry])
  {
    forall k | k in book[key := q]
      ensures T.InOutbox(outbox + [entry], k) <==> OnWire(book[key := q][k].state)
    {
      EnqueuedKeys(outbox, entry, k);
    }
    forall i | 0 <= i < |outbox + [entry]| && !(outbox + [entry])[i].published
      ensures (outbox + [entry])[i].key in book && book[key := q][(outbox + [entry])[i].key].state.Submitted?
    {
      assert i < |outbox| ==> (outbox + [entry])[i] == outbox[i];
    }
  }

  lemma EntryAdded(keys: set<Key>, outbox: seq<T.Entry>, nextId: int, entry: T.Entry)
    requires OutboxOk(keys, outbox, nextId) && !T.InOutbox(outbox, entry.key)
    requires entry.key in keys && entry.id == nextId && !entry.published
    ensures OutboxOk(keys, outbox + [entry], nextId + 1)
  {
  }

  /** A payment that is held has its message parked. */
  lemma MovedToParking(hash: T.Hash, book: Book, outbox: seq<T.Entry>, parked: map<Key, T.Message>, key: Key,
          q: Payment, message: T.Message)
    requires PlacesOk(hash, book, outbox, parked) && PendingOk(book, outbox) && key in book
    requires !OnWire(book[key].state) && q.state.Held? && q.heldDigest == Some(hash(message))
    ensures PlacesOk(hash, book[key := q], outbox, parked[key := message]) && PendingOk(book[key := q], outbox)
  {
  }

  /** A payment that is cancelled has no message left. */
  lemma MovedNowhere(hash: T.Hash, book: Book, outbox: seq<T.Entry>, parked: map<Key, T.Message>, key: Key, q: Payment)
    requires PlacesOk(hash, book, outbox, parked) && PendingOk(book, outbox) && key in book
    requires book[key].state.Held? && q.state.Cancelled?
    ensures PlacesOk(hash, book[key := q], outbox, parked - {key}) && PendingOk(book[key := q], outbox)
  {
  }

  /** Marking an entry whose predecessors are all marked keeps the marks a prefix. */
  lemma EntryMarked(hash: T.Hash, book: Book, outbox: seq<T.Entry>, nextId: int, parked: map<Key, T.Message>, i: nat)
    requires PlacesOk(hash, book, outbox, parked) && PendingOk(book, outbox) && OutboxOk(book.Keys, outbox, nextId)
    requires i < |outbox| && forall j | 0 <= j < i :: outbox[j].published
    ensures var outbox' := outbox[i := outbox[i].(published := true)];
      PlacesOk(hash, book, outbox', parked) && PendingOk(book, outbox') && OutboxOk(book.Keys, outbox', nextId)
  {
    var outbox' := outbox[i := outbox[i].(published := true)];
    forall k | k in book
      ensures T.InOutbox(outbox', k) <==> T.InOutbox(outbox, k)
    {
      assert forall j | 0 <= j < |outbox| :: outbox'[j].key == outbox[j].key;
    }
  }
}
