/** The durable store: event rows, an outbox with a unique index and a parking table, in transactions. */
module SqliteStores {
  import opened Wrappers
  import opened Payments
  import T = Tables

  /** Primary key: (`key`, `seqNo`). */
  datatype EventRow = EventRow(key: Key, seqNo: nat, event: Event)

  datatype Db = Db(events: seq<EventRow>, outbox: seq<T.Entry>, lastId: int, held: map<Key, T.Message>)

  // -------------------------------------------------------------- queries

  /** Place a row among rows already ordered by sequence number. */
  function InsertOrdered(rows: seq<EventRow>, row: EventRow): seq<EventRow> {
    if rows == [] || rows[|rows| - 1].seqNo <= row.seqNo then rows + [row]
    else InsertOrdered(rows[..|rows| - 1], row) + [rows[|rows| - 1]]
  }

  /** `SELECT … WHERE idempotency_key = key ORDER BY seq`. */
  function SelectOrdered(rows: seq<EventRow>, key: Key): seq<EventRow>
    decreases |rows|
  {
    if rows == [] then []
    else
      var last, earlier := rows[|rows| - 1], SelectOrdered(rows[..|rows| - 1], key);
      if last.key == key then InsertOrdered(earlier, last) else earlier
  }

  function EventsOf(rows: seq<EventRow>): (es: seq<Event>)
    ensures |es| == |rows|
    ensures forall i | 0 <= i < |rows| :: es[i] == rows[i].event
  {
    if rows == [] then [] else EventsOf(rows[..|rows| - 1]) + [rows[|rows| - 1].event]
  }

  function Stream(rows: seq<EventRow>, key: Key): seq<Event> {
    EventsOf(SelectOrdered(rows, key))
  }

  function KeysOf(rows: seq<EventRow>): set<Key> {
    set i | 0 <= i < |rows| :: rows[i].key
  }

  /** Every row's sequence number is the number of earlier rows of its key: 0, 1, 2, … per stream. */
  ghost predicate Contiguous(rows: seq<EventRow>) {
    forall i | 0 <= i < |rows| :: rows[i].seqNo == |SelectOrdered(rows[..i], rows[i].key)|
  }

  predicate PrimaryKeyTaken(rows: seq<EventRow>, key: Key, seqNo: nat) {
    exists i | 0 <= i < |rows| :: rows[i].key == key && rows[i].seqNo == seqNo
  }

  // ------------------------------------------------------- the refinement

  ghost predicate ValidDb(db: Db) {
    && Contiguous(db.events)
    && db.lastId == |db.outbox|
    && forall i | 0 <= i < |db.outbox| :: db.outbox[i].id == i + 1
  }

  /** Row ids start at 1; the in-memory store's start at 0. */
  function Renumbered(outbox: seq<T.Entry>): seq<T.Entry> {
    seq(|outbox|, i requires 0 <= i < |outbox| => outbox[i].(id := outbox[i].id - 1))
  }

  ghost function StreamsOf(rows: seq<EventRow>): map<Key, seq<Event>> {
    map k | k in KeysOf(rows) :: Stream(rows, k)
  }

  ghost function Abstract(db: Db): T.Tables {
    T.Tables(StreamsOf(db.events), Renumbered(db.outbox), db.lastId, db.held)
  }

  /** The two stores may phrase a refusal differently; nothing else. */
  predicate SameOutcome(a: T.Outcome, b: T.Outcome) {
    a.Ok? == b.Ok? && (a.Ok? ==> a.value == b.value)
  }

  ghost predicate Agrees(expected: T.Reply, db: Db, r: T.Outcome) {
    Abstract(db) == expected.tables && SameOutcome(r, expected.outcome)
  }

  lemma KeysExtend(rows: seq<EventRow>, row: EventRow)
    ensures KeysOf(rows + [row]) == KeysOf(rows) + {row.key}
  {
    assert (rows + [row])[|rows|] == row;
    assert forall i | 0 <= i < |rows| :: (rows + [row])[i] == rows[i];
  }

  lemma ContiguousFront(rows: seq<EventRow>)
    requires Contiguous(rows) && rows != []
    ensures Contiguous(rows[..|rows| - 1])
    ensures var last := rows[|rows| - 1]; last.seqNo == |SelectOrdered(rows[..|rows| - 1], last.key)|
  {
    var front := rows[..|rows| - 1];
    forall i | 0 <= i < |front|
      ensures front[i].seqNo == |SelectOrdered(front[..i], front[i].key)|
    {
      assert front[..i] == rows[..i] && front[i] == rows[i];
    }
  }

  /** In a contiguous table the ordered selection numbers its rows 0, 1, 2, … */
  lemma {:induction false} SelectionIsNumbered(rows: seq<EventRow>, key: Key)
    requires Contiguous(rows)
    ensures var s := SelectOrdered(rows, key);
      && (forall i | 0 <= i < |s| :: s[i].seqNo == i && s[i].key == key && s[i] in rows)
      && (s == [] <==> key !in KeysOf(rows))
    decreases |rows|
  {
    hide Contiguous;
    if rows != [] {
      var front, last := rows[..|rows| - 1], rows[|rows| - 1];
      ContiguousFront(rows);
      SelectionIsNumbered(front, key);
      assert rows == front + [last];
      KeysExtend(front, last);
      hide KeysOf;
    }
  }

  lemma SelectAppended(rows: seq<EventRow>, row: EventRow, key: Key)
    requires Contiguous(rows) && row.seqNo == |SelectOrdered(rows, row.key)|
    ensures SelectOrdered(rows + [row], key)
         == if row.key == key then SelectOrdered(rows, key) + [row] else SelectOrdered(rows, key)
  {
    SelectionIsNumbered(rows, key);
    assert (rows + [row])[..|rows|] == rows;
  }

  lemma ContiguousExtends(rows: seq<EventRow>, row: EventRow)
    requires Contiguous(rows) && row.seqNo == |SelectOrdered(rows, row.key)|
    ensures Contiguous(rows + [row])
  {
    var rows' := rows + [row];
    forall i | 0 <= i < |rows'|
      ensures rows'[i].seqNo == |SelectOrdered(rows'[..i], rows'[i].key)|
    {
      assert rows'[..i] == rows[..i];
      assert rows[..|rows|] == rows;
    }
  }

  lemma StreamAppended(rows: seq<EventRow>, row: EventRow, key: Key)
    requires Contiguous(rows) && row.seqNo == |SelectOrdered(rows, row.key)|
    ensures Stream(rows + [row], key)
         == if row.key == key then Stream(rows, key) + [row.event] else Stream(rows, key)
  {
    SelectAppended(rows, row, key);
    var selected := SelectOrdered(rows, key);
    assert (selected + [row])[..|selected|] == selected;
  }

  lemma StreamsExtend(rows: seq<EventRow>, row: EventRow)
    requires Contiguous(rows) && row.seqNo == |SelectOrdered(rows, row.key)|
    ensures StreamsOf(rows + [row]) == StreamsOf(rows)[row.key := Stream(rows, row.key) + [row.event]]
  {
    hide KeysOf, Stream, Contiguous, SelectOrdered;
    KeysExtend(rows, row);
    forall k | k in KeysOf(rows + [row])
      ensures Stream(rows + [row], k)
           == if k == row.key then Stream(rows, k) + [row.event] else Stream(rows, k)
    {
      StreamAppended(rows, row, k);
    }
  }

  /** A row numbered by the length of its stream extends exactly that stream. */
  lemma RowAppended(db: Db, row: EventRow)
    requires ValidDb(db) && row.seqNo == |Stream(db.events, row.key)|
    ensures var db' := db.(events := db.events + [row]);
      && ValidDb(db')
      && !PrimaryKeyTaken(db.events, row.key, row.seqNo)
      && Abstract(db') == Abstract(db).(streams := Abstract(db).streams[row.key := Stream(db.events, row.key) + [row.event]])
  {
    ContiguousExtends(db.events, row);
    SelectionNumbersAreSmall(db.events, row.key);
    StreamsExtend(db.events, row);
  }

  /** No stored row of a key carries a number at or beyond the length of its stream. */
  lemma {:induction false} SelectionNumbersAreSmall(rows: seq<EventRow>, key: Key)
    requires Contiguous(rows)
    ensures forall i | 0 <= i < |rows| && rows[i].key == key :: rows[i].seqNo < |SelectOrdered(rows, key)|
    decreases |rows|
  {
    if rows != [] {
      var front, last := rows[..|rows| - 1], rows[|rows| - 1];
      forall i | 0 <= i < |front|
        ensures front[i].seqNo == |SelectOrdered(front[..i], front[i].key)|
      {
        assert front[..i] == rows[..i] && front[i] == rows[i];
      }
      SelectionNumbersAreSmall(front, key);
      SelectAppended(front, last, key);
      assert rows == front + [last];
      forall i | 0 <= i < |rows| && rows[i].key == key
        ensures rows[i].seqNo < |SelectOrdered(rows, key)|
      {
        if i < |front| {
          assert front[i] == rows[i];
        }
      }
    }
  }

  lemma UnknownStream(db: Db, key: Key)
    requires ValidDb(db)
    ensures Stream(db.events, key) == [] <==> key !in Abstract(db).streams
  {
    SelectionIsNumbered(db.events, key);
  }

  /** Enqueueing a row is enqueueing an entry, one id lower. */
  lemma OutboxRowAppended(db: Db, key: Key, message: T.Message)
    requires ValidDb(db)
    ensures var db' := db.(outbox := db.outbox + [T.Entry(db.lastId + 1, key, message, false)], lastId := db.lastId + 1);
      ValidDb(db') && Abstract(db') == T.Enqueued(Abstract(db), key, message)
  {
    var outbox' := db.outbox + [T.Entry(db.lastId + 1, key, message, false)];
    assert Renumbered(outbox') == Renumbered(db.outbox) + [T.Entry(db.lastId, key, message, false)];
  }

  lemma SameKeys(db: Db, key: Key)
    ensures T.InOutbox(Abstract(db).outbox, key) <==> T.InOutbox(db.outbox, key)
  {
    if T.InOutbox(db.outbox, key) {
      var i :| 0 <= i < |db.outbox| && db.outbox[i].key == key;
      assert Renumbered(db.outbox)[i].key == key;
    }
  }

  lemma {:induction false} SameFirstUnpublished(outbox: seq<T.Entry>)
    ensures T.FirstUnpublished(Renumbered(outbox)) == T.FirstUnpublished(outbox)
    decreases |outbox|
  {
    if outbox != [] && outbox[0].published {
      assert Renumbered(outbox)[1..] == Renumbered(outbox[1..]);
      SameFirstUnpublished(outbox[1..]);
    }
  }

  lemma IndexByPosition(outbox: seq<T.Entry>, i: nat)
    requires i < |outbox| && forall j | 0 <= j < |outbox| :: outbox[j].id == j
    ensures T.IndexOfId(outbox, i) == i
  {
    assert outbox[i].id == i;
  }

  /** `entry` is the first unpublished row, and lies before `n`. */
  ghost predicate FirstAt(outbox: seq<T.Entry>, n: nat, entry: T.Entry)
    requires n <= |outbox|
  {
    exists j | 0 <= j < n ::
      outbox[j] == entry && !entry.published && (forall k | 0 <= k < j :: outbox[k].published)
  }

  /** The tables with a batch of events appended to one stream. */
  ghost function WithEvents(t: T.Tables, key: Key, es: seq<Event>): T.Tables
    requires es != [] ==> key in t.streams
  {
    if es == [] then t else t.(streams := t.streams[key := t.streams[key] + es])
  }

  /** Appending a batch event by event is extending the stream by the batch. */
  lemma BatchStep(before: T.Tables, key: Key, es: seq<Event>, i: nat)
    requires i < |es|
    requires i > 0 ==> T.Extended(before, key, es[..i]).Ok?
    ensures var next := T.Append(WithEvents(before, key, es[..i]), key, es[i]);
      && next.outcome == T.Extended(before, key, es[..i + 1])
      && (next.outcome.Err? ==> T.Extended(before, key, es).Err?)
      && (next.outcome.Ok? ==> next.tables == WithEvents(before, key, es[..i + 1]))
  {
    if key in before.streams && before.streams[key] != [] {
      var s := before.streams[key];
      assert s + es[..i] + [es[i]] == s + es[..i + 1];
      assert s + es[..0] == s;
      if Replay(s + es[..i + 1]).Err? {
        assert (s + es)[..|s| + i + 1] == s + es[..i + 1];
        RefusalSticks(s + es, |s| + i + 1);
      }
    }
  }

  // ------------------------------------------------------------ the store

  class SqliteStore {
    const hash: T.Hash
    var db: Db

    ghost predicate Valid()
      reads this
    {
      ValidDb(db)
    }

    ghost function View(): T.Tables
      reads this
    {
      Abstract(db)
    }

    constructor (hash: T.Hash)
      ensures this.hash == hash && Valid() && View() == T.EMPTY
    {
      this.hash := hash;
      db := Db([], [], 0, map[]);
    }

    static method LoadStream(conn: Db, key: Key) returns (events: seq<Event>)
      ensures events == Stream(conn.events, key)
    {
      var rows := SelectOrdered(conn.events, key);
      events := [];
      for i := 0 to |rows|
        invariant |events| == i && forall j | 0 <= j < i :: events[j] == rows[j].event
      {
        events := events + [rows[i].event];
      }
    }

    /** Insert one event row; the primary key refuses a duplicate. */
    static method InsertEvent(conn: Db, key: Key, seqNo: nat, e: Event) returns (conn': Db, ok: bool)
      ensures ok == !PrimaryKeyTaken(conn.events, key, seqNo)
      ensures conn' == if ok then conn.(events := conn.events + [EventRow(key, seqNo, e)]) else conn
    {
      ok := !PrimaryKeyTaken(conn.events, key, seqNo);
      conn' := if ok then conn.(events := conn.events + [EventRow(key, seqNo, e)]) else conn;
    }

    /** Append inside a transaction, enforcing the transition on the replayed aggregate. */
    static method AppendIn(conn: Db, key: Key, e: Event) returns (conn': Db, r: T.Outcome)
      requires ValidDb(conn)
      ensures ValidDb(conn') && Agrees(T.Append(Abstract(conn), key, e), conn', r)
      ensures conn'.outbox == conn.outbox && conn'.lastId == conn.lastId && conn'.held == conn.held
    {
      conn' := conn;
      var stream := LoadStream(conn, key);
      UnknownStream(conn, key);
      if stream == [] {
        return conn, Err(TransitionError(PaymentState.Created, Storage("append to unknown key")));
      }
      var replayed := ReplayAll(stream);
      ReplayExtends(stream, e);
      if replayed.Err? {
        return conn, replayed;
      }
      r := Applied(replayed.value, e);
      if r.Err? {
        return;
      }
      RowAppended(conn, EventRow(key, |stream|, e));
      var inserted;
      conn', inserted := InsertEvent(conn, key, |stream|, e);
    }

    /** Insert one outbox row; the unique index refuses a second one for the same payment. */
    static method InsertOutbox(conn: Db, key: Key, message: T.Message) returns (conn': Db, ok: bool)
      requires ValidDb(conn)
      ensures ok == !T.InOutbox(Abstract(conn).outbox, key)
      ensures ValidDb(conn')
      ensures ok ==> Abstract(conn') == T.Enqueued(Abstract(conn), key, message)
      ensures conn'.events == conn.events && conn'.held == conn.held
    {
      SameKeys(conn, key);
      OutboxRowAppended(conn, key, message);
      ok := !T.InOutbox(conn.outbox, key);
      conn' := if ok then
                 conn.(outbox := conn.outbox + [T.Entry(conn.lastId + 1, key, message, false)], lastId := conn.lastId + 1)
               else conn;
    }

    /** The first row of an unknown key opens its stream. */
    static lemma FirstRow(db: Db, e: Event)
      requires ValidDb(db) && e.Created? && Stream(db.events, e.key) == []
      ensures var db' := db.(events := db.events + [EventRow(e.key, 0, e)]);
        && ValidDb(db') && !PrimaryKeyTaken(db.events, e.key, 0)
        && Abstract(db') == T.Create(Abstract(db), e).tables
    {
      RowAppended(db, EventRow(e.key, 0, e));
      UnknownStream(db, e.key);
      assert Stream(db.events, e.key) + [e] == [e];
    }

    method Create(e: Event) returns (r: Result<T.CreateOutcome, TransitionError>)
      requires Valid()
      modifies this
      ensures Valid()
      ensures var expected := T.Create(old(View()), e);
        View() == expected.tables && r.Ok? == expected.outcome.Ok? && (r.Ok? ==> r == expected.outcome)
    {
      if !e.Created? {
        return Err(TransitionError(PaymentState.Created, Storage("not a creation event")));
      }
      var existing := LoadStream(db, e.key);
      UnknownStream(db, e.key);
      if existing != [] {
        var replayed := ReplayAll(existing);
        return match replayed
          case Ok(p) => Ok(T.Existing(p))
          case Err(error) => Err(error);
      }
      var payment := new Aggregate(e);
      FirstRow(db, e);
      var tx, inserted := InsertEvent(db, e.key, 0, e);
      db := tx;
      return Ok(T.CreateOutcome.Created(payment.View()));
    }

    method Append(key: Key, e: Event) returns (r: T.Outcome)
      requires Valid()
      modifies this
      ensures Valid() && Agrees(T.Append(old(View()), key, e), db, r)
      ensures r.Err? ==> db == old(db)
    {
      var tx: Db;
      tx, r := AppendIn(db, key, e);
      if r.Ok? {
        db := tx;
      }
    }

    method Load(key: Key) returns (p: Option<Payment>)
      requires Valid()
      ensures p == T.Load(View(), key)
    {
      var stream := LoadStream(db, key);
      UnknownStream(db, key);
      if stream == [] {
        return None;
      }
      var replayed := ReplayAll(stream);
      p := match replayed
        case Ok(payment) => Some(payment)
        case Err(_) => None;
    }

    method Keys() returns (keys: set<Key>)
      ensures keys == View().streams.Keys
    {
      keys := KeysOf(db.events);
    }

    /** Either both inserts are committed or neither is. */
    method SubmitToOutbox(key: Key, e: Event, message: T.Message) returns (r: T.Outcome)
      requires Valid()
      modifies this
      ensures Valid() && Agrees(T.SubmitToOutbox(old(View()), key, e, message), db, r)
      ensures r.Err? ==> db == old(db)
    {
      var tx: Db;
      tx, r := AppendIn(db, key, e);
      if r.Err? {
        return;
      }
      var ok: bool;
      tx, ok := InsertOutbox(tx, key, message);
      if !ok {
        return Err(TransitionError(PaymentState.Created, Storage("UNIQUE constraint failed")));
      }
      db := tx;
    }

    /** `WHERE published = 0 ORDER BY id LIMIT 1`. */
    method NextUnpublished() returns (entry: Option<T.Entry>)
      requires Valid()
      ensures var expected := T.NextUnpublished(View());
        && (entry.None? <==> expected.None?)
        && (entry.Some? ==> expected == Some(entry.value.(id := entry.value.id - 1)))
    {
      entry := None;
      for i := 0 to |db.outbox|
        invariant entry.None? ==> forall j | 0 <= j < i :: db.outbox[j].published
        invariant entry.Some? ==> FirstAt(db.outbox, i, entry.value)
      {
        var row := db.outbox[i];
        if !row.published && (entry.None? || row.id < entry.value.id) {
          entry := Some(row);
        }
      }
      SameFirstUnpublished(db.outbox);
    }

    /** `UPDATE outbox SET published = 1 WHERE id = ?`. */
    method MarkPublished(id: int)
      requires Valid()
      modifies this
      ensures Valid() && View() == T.MarkPublished(old(View()), id - 1)
    {
      var rows := db.outbox;
      for i := 0 to |rows|
        invariant |rows| == |db.outbox|
        invariant forall j | 0 <= j < |rows| ::
          rows[j] == if j < i && db.outbox[j].id == id then db.outbox[j].(published := true) else db.outbox[j]
      {
        if rows[i].id == id {
          rows := rows[i := rows[i].(published := true)];
        }
      }
      RowMarked(db.outbox, rows, id);
      db := db.(outbox := rows);
    }

    /** With ids 1, 2, 3, … an update by id marks the one entry in that place. */
    static lemma RowMarked(was: seq<T.Entry>, rows: seq<T.Entry>, id: int)
      requires forall i | 0 <= i < |was| :: was[i].id == i + 1
      requires |rows| == |was|
      requires forall j | 0 <= j < |was| ::
        rows[j] == if was[j].id == id then was[j].(published := true) else was[j]
      ensures forall lastId, streams, held ::
        T.MarkPublished(T.Tables(streams, Renumbered(was), lastId, held), id - 1)
        == T.Tables(streams, Renumbered(rows), lastId, held)
    {
      var entries := Renumbered(was);
      if 1 <= id <= |was| {
        IndexByPosition(entries, id - 1);
        assert Renumbered(rows) == entries[id - 1 := entries[id - 1].(published := true)];
      } else {
        assert T.IndexOfId(entries, id - 1) == |entries|;
        assert Renumbered(rows) == entries;
      }
    }

    method UnpublishedCount() returns (n: nat)
      requires Valid()
      ensures n == T.UnpublishedCount(View().outbox)
    {
      n := 0;
      for i := 0 to |db.outbox|
        invariant n == T.UnpublishedCount(Renumbered(db.outbox)[..i])
      {
        assert Renumbered(db.outbox)[..i + 1][..i] == Renumbered(db.outbox)[..i];
        if !db.outbox[i].published {
          n := n + 1;
        }
      }
      assert Renumbered(db.outbox)[..|db.outbox|] == Renumbered(db.outbox);
    }

    /** Append a batch inside a transaction, up to its first refusal. */
    static method AppendBatch(conn: Db, key: Key, es: seq<Event>) returns (tx: Db, r: T.Outcome)
      requires ValidDb(conn)
      ensures es == [] ==> r.Err?
      ensures es != [] ==> SameOutcome(r, T.Extended(Abstract(conn), key, es))
      ensures r.Ok? ==> ValidDb(tx) && Abstract(tx) == WithEvents(Abstract(conn), key, es)
      ensures r.Ok? ==> tx.held == conn.held
    {
      tx := conn;
      r := Err(TransitionError(PaymentState.Created, Storage("park without events")));
      for i := 0 to |es|
        invariant ValidDb(tx) && tx.held == conn.held
        invariant i == 0 ==> r.Err?
        invariant i > 0 ==> r.Ok? && r == T.Extended(Abstract(conn), key, es[..i])
        invariant Abstract(tx) == WithEvents(Abstract(conn), key, es[..i])
      {
        BatchStep(Abstract(conn), key, es, i);
        tx, r := AppendIn(tx, key, es[i]);
        if r.Err? {
          return;
        }
      }
      assert es[..|es|] == es;
    }

    /** Park in one transaction. A batch refused halfway leaves every table as it was. */
    method Park(key: Key, es: seq<Event>, message: T.Message) returns (r: T.Outcome)
      requires Valid()
      modifies this
      ensures Valid()
      ensures Agrees(T.Park(old(View()), key, es, message), db, r) <==>
        (es != [] && key !in old(db).held) || T.Park(old(View()), key, es, message).outcome.Err?
      ensures es == [] || key in old(db).held ==> r.Err?
      ensures r.Err? ==> db == old(db)
    {
      var tx: Db;
      tx, r := AppendBatch(db, key, es);
      if r.Err? {
        return;
      }
      if key in tx.held {
        return Err(TransitionError(PaymentState.Created, Storage("UNIQUE constraint failed")));
      }
      db := tx.(held := tx.held[key := message]);
    }

    method ParkedMessage(key: Key) returns (message: Option<T.Message>)
      ensures message == if key in View().parked then Some(View().parked[key]) else None
    {
      message := if key in db.held then Some(db.held[key]) else None;
    }

    method ReleaseParked(key: Key, e: Event) returns (r: T.Outcome)
      requires Valid()
      modifies this
      ensures Valid() && Agrees(T.ReleaseParked(hash, old(View()), key, e), db, r)
      ensures r.Err? ==> db == old(db)
    {
      if !e.HoldReleased? {
        return Err(TransitionError(PaymentState.Held, NotARelease(e)));
      }
      if key !in db.held {
        return Err(TransitionError(PaymentState.Held, NoParkedMessage(key)));
      }
      var message := db.held[key];
      if hash(message) != e.digest {
        return Err(TransitionError(PaymentState.Held, DigestMismatch));
      }
      SameKeys(db, key);
      if T.InOutbox(db.outbox, key) {
        return Err(TransitionError(PaymentState.Submitted, AlreadyInOutbox(key)));
      }
      var tx: Db;
      tx, r := AppendIn(db, key, e);
      if r.Err? {
        return;
      }
      tx := tx.(held := tx.held - {key});
      var ok: bool;
      tx, ok := InsertOutbox(tx, key, message);
      db := tx;
    }

    method DiscardParked(key: Key, e: Event) returns (r: T.Outcome)
      requires Valid()
      modifies this
      ensures Valid() && Agrees(T.DiscardParked(old(View()), key, e), db, r)
      ensures r.Err? ==> db == old(db)
    {
      var tx: Db;
      tx, r := AppendIn(db, key, e);
      if r.Ok? {
        db := tx.(held := tx.held - {key});
      }
    }
  }
}
