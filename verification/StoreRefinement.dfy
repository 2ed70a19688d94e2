/** The two stores side by side: the durable one answers every service call as the in-memory one does. */
module StoreRefinement {
  import opened Wrappers
  import opened Payments
  import opened InMemoryStores
  import opened SqliteStores
  import T = Tables

  /**
   * The calls the service makes. `Next` reads the entry to hand off and `Mark` consumes the one in a given
   * place, whatever has happened in between; `Look` reads everything there is to read about a key.
   */
  datatype Call =
    | Create(event: Event)
    | Append(key: Key, event: Event)
    | Submit(key: Key, event: Event, message: T.Message)
    | Park(key: Key, events: seq<Event>, message: T.Message)
    | Release(key: Key, event: Event)
    | Discard(key: Key, event: Event)
    | Next
    | Mark(position: int)
    | Look(key: Key)

  /** What a caller learns: for a creation, also whether the payment is new. */
  datatype Answer =
    | Opened(r: Result<T.CreateOutcome, TransitionError>)
    | Changed(outcome: T.Outcome)
    | Handed(next: Option<T.Entry>)
    | Marked
    | Seen(payment: Option<Payment>, parked: Option<T.Message>, known: bool, pending: nat)

  predicate SameAnswer(a: Answer, b: Answer) {
    match (a, b)
    case (Opened(x), Opened(y)) => x.Ok? == y.Ok? && (x.Ok? ==> x == y)
    case (Changed(x), Changed(y)) => SameOutcome(x, y)
    case (Opened(_), _) => false
    case (Changed(_), _) => false
    case _ => a == b
  }

  function Performed(hash: T.Hash, t: T.Tables, call: Call): T.Tables {
    match call
    case Create(e) => T.Create(t, e).tables
    case Append(key, e) => T.Append(t, key, e).tables
    case Submit(key, e, message) => T.SubmitToOutbox(t, key, e, message).tables
    case Park(key, es, message) => T.Park(t, key, es, message).tables
    case Release(key, e) => T.ReleaseParked(hash, t, key, e).tables
    case Discard(key, e) => T.DiscardParked(t, key, e).tables
    case Mark(position) => T.MarkPublished(t, position)
    case Next | Look(_) => t
  }

  /**
   * The one call on which the stores can differ is parking, and exactly when the durable store alone refuses
   * it. The service parks at least one event, and never over a parked message.
   */
  predicate ServiceCall(t: T.Tables, call: Call) {
    call.Park? ==>
      (call.events != [] && call.key !in t.parked) || T.Park(t, call.key, call.events, call.message).outcome.Err?
  }

  predicate ServiceRun(hash: T.Hash, t: T.Tables, calls: seq<Call>)
    decreases |calls|
  {
    calls == [] || (ServiceCall(t, calls[0]) && ServiceRun(hash, Performed(hash, t, calls[0]), calls[1..]))
  }

  method CallMemory(store: InMemoryStore, call: Call) returns (answer: Answer)
    modifies store
    ensures store.View() == Performed(store.hash, old(store.View()), call)
    ensures answer == Expected(store.hash, old(store.View()), call)
  {
    match call {
      case Create(e) => var r := store.Create(e); answer := Opened(r);
      case Append(key, e) => var r := store.Append(key, e); answer := Changed(r);
      case Submit(key, e, message) => var r := store.SubmitToOutbox(key, e, message); answer := Changed(r);
      case Park(key, es, message) => var r := store.Park(key, es, message); answer := Changed(r);
      case Release(key, e) => var r := store.ReleaseParked(key, e); answer := Changed(r);
      case Discard(key, e) => var r := store.DiscardParked(key, e); answer := Changed(r);
      case Next => var next := store.NextUnpublished(); answer := Handed(next);
      case Mark(position) => store.MarkPublished(position); answer := Marked;
      case Look(key) =>
        var payment := store.Load(key);
        var parked := store.ParkedMessage(key);
        var keys := store.Keys();
        var pending := store.UnpublishedCount();
        answer := Seen(payment, parked, key in keys, pending);
    }
  }

  /** Rows are numbered from 1; places in the outbox from 0. */
  function ByPosition(row: Option<T.Entry>): Option<T.Entry> {
    if row.None? then None else Some(row.value.(id := row.value.id - 1))
  }

  method CallDurable(store: SqliteStore, call: Call) returns (answer: Answer)
    requires store.Valid() && ServiceCall(store.View(), call)
    modifies store
    ensures store.Valid() && store.View() == Performed(store.hash, old(store.View()), call)
    ensures SameAnswer(answer, Expected(store.hash, old(store.View()), call))
  {
    match call {
      case Create(e) => var r := store.Create(e); answer := Opened(r);
      case Append(key, e) => var r := store.Append(key, e); answer := Changed(r);
      case Submit(key, e, message) => var r := store.SubmitToOutbox(key, e, message); answer := Changed(r);
      case Park(key, es, message) => var r := store.Park(key, es, message); answer := Changed(r);
      case Release(key, e) => var r := store.ReleaseParked(key, e); answer := Changed(r);
      case Discard(key, e) => var r := store.DiscardParked(key, e); answer := Changed(r);
      case Next => var next := store.NextUnpublished(); answer := Handed(ByPosition(next));
      case Mark(position) => store.MarkPublished(position + 1); answer := Marked;
      case Look(key) =>
        var payment := store.Load(key);
        var parked := store.ParkedMessage(key);
        var keys := store.Keys();
        var pending := store.UnpublishedCount();
        answer := Seen(payment, parked, key in keys, pending);
    }
  }

  function Expected(hash: T.Hash, t: T.Tables, call: Call): Answer {
    match call
    case Create(e) => Opened(T.Create(t, e).outcome)
    case Append(key, e) => Changed(T.Append(t, key, e).outcome)
    case Submit(key, e, message) => Changed(T.SubmitToOutbox(t, key, e, message).outcome)
    case Park(key, es, message) => Changed(T.Park(t, key, es, message).outcome)
    case Release(key, e) => Changed(T.ReleaseParked(hash, t, key, e).outcome)
    case Discard(key, e) => Changed(T.DiscardParked(t, key, e).outcome)
    case Next => Handed(T.NextUnpublished(t))
    case Mark(_) => Marked
    case Look(key) =>
      Seen(T.Load(t, key), if key in t.parked then Some(t.parked[key]) else None, key in t.streams, T.UnpublishedCount(t.outbox))
  }

  function ExpectedAll(hash: T.Hash, t: T.Tables, calls: seq<Call>): seq<Answer>
    decreases |calls|
  {
    if calls == [] then []
    else [Expected(hash, t, calls[0])] + ExpectedAll(hash, Performed(hash, t, calls[0]), calls[1..])
  }

  predicate SameAnswers(a: seq<Answer>, b: seq<Answer>) {
    |a| == |b| && forall i | 0 <= i < |a| :: SameAnswer(a[i], b[i])
  }

  /** The next call, and those after it. */
  lemma OneCall(hash: T.Hash, t: T.Tables, calls: seq<Call>, i: nat)
    requires i < |calls| && ServiceRun(hash, t, calls[i..])
    ensures ServiceCall(t, calls[i]) && ServiceRun(hash, Performed(hash, t, calls[i]), calls[i + 1..])
    ensures ExpectedAll(hash, t, calls[i..])
         == [Expected(hash, t, calls[i])] + ExpectedAll(hash, Performed(hash, t, calls[i]), calls[i + 1..])
  {
    hide Performed, Expected, ServiceCall;
    assert calls[i..][1..] == calls[i + 1..];
  }

  lemma AnswersJoin(a: seq<Answer>, one: Answer, rest: seq<Answer>)
    ensures a + ([one] + rest) == a + [one] + rest
  {
  }

  /** Drive both stores, from empty, through the same calls: same answers, same tables, at every step. */
  method Lockstep(hash: T.Hash, calls: seq<Call>) returns (inMemory: seq<Answer>, durable: seq<Answer>)
    requires ServiceRun(hash, T.EMPTY, calls)
    ensures inMemory == ExpectedAll(hash, T.EMPTY, calls)
    ensures SameAnswers(durable, inMemory)
  {
    hide Performed, Expected, ServiceCall, SameAnswer;
    var memory := new InMemoryStore(hash);
    var sqlite := new SqliteStore(hash);
    inMemory, durable := [], [];
    var i := 0;
    while i < |calls|
      invariant i <= |calls|
      invariant fresh(memory) && fresh(sqlite) && memory.hash == sqlite.hash == hash
      invariant sqlite.Valid() && sqlite.View() == memory.View()
      invariant ServiceRun(hash, memory.View(), calls[i..])
      invariant inMemory + ExpectedAll(hash, memory.View(), calls[i..]) == ExpectedAll(hash, T.EMPTY, calls)
      invariant SameAnswers(durable, inMemory)
    {
      OneCall(hash, memory.View(), calls, i);
      AnswersJoin(inMemory, Expected(hash, memory.View(), calls[i]),
                  ExpectedAll(hash, Performed(hash, memory.View(), calls[i]), calls[i + 1..]));
      var d := CallDurable(sqlite, calls[i]);
      var m := CallMemory(memory, calls[i]);
      inMemory, durable := inMemory + [m], durable + [d];
      i := i + 1;
    }
    assert calls[|calls|..] == [];
  }
}
