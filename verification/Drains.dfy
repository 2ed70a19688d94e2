/** Publishing the outbox, entry by entry. */
module Drains {
  import opened Wrappers
  import opened Payments
  import opened Protocol
  import opened Sequential
  import T = Tables

  /** The entries still to be handed off, oldest first. */
  function Pending(outbox: seq<T.Entry>): seq<T.Entry> {
    if outbox == [] then []
    else Pending(outbox[..|outbox| - 1]) + if outbox[|outbox| - 1].published then [] else [outbox[|outbox| - 1]]
  }

  lemma {:induction false} PendingSplits(a: seq<T.Entry>, b: seq<T.Entry>)
    ensures Pending(a + b) == Pending(a) + Pending(b)
    decreases |b|
  {
    if b == [] {
      assert a + b == a;
    } else {
      assert (a + b)[..|a + b| - 1] == a + b[..|b| - 1];
      PendingSplits(a, b[..|b| - 1]);
    }
  }

  lemma {:induction false} AllPublishedNonePending(outbox: seq<T.Entry>)
    requires forall i | 0 <= i < |outbox| :: outbox[i].published
    ensures Pending(outbox) == []
    decreases |outbox|
  {
    if outbox != [] {
      AllPublishedNonePending(outbox[..|outbox| - 1]);
    }
  }

  lemma {:induction false} PendingCounted(outbox: seq<T.Entry>)
    ensures |Pending(outbox)| == T.UnpublishedCount(outbox)
    decreases |outbox|
  {
    if outbox != [] {
      PendingCounted(outbox[..|outbox| - 1]);
    }
  }

  /** Entries are numbered by position. */
  ghost predicate Numbered(outbox: seq<T.Entry>, nextId: int) {
    nextId == |outbox| && forall i | 0 <= i < |outbox| :: outbox[i].id == i
  }

  lemma PendingOne(entry: T.Entry)
    ensures Pending([entry]) == if entry.published then [] else [entry]
  {
    assert [entry][..0] == [];
  }

  lemma PendingMiddle(before: seq<T.Entry>, entry: T.Entry, after: seq<T.Entry>)
    requires forall j | 0 <= j < |before| :: before[j].published
    ensures Pending(before + [entry] + after) == (if entry.published then [] else [entry]) + Pending(after)
  {
    hide Pending;
    AllPublishedNonePending(before);
    PendingSplits(before, [entry]);
    PendingSplits(before + [entry], after);
    PendingOne(entry);
  }

  /** Marking the first unpublished entry takes the head off the pending ones. */
  lemma FirstPending(outbox: seq<T.Entry>, i: nat)
    requires i < |outbox| && !outbox[i].published
    requires forall j | 0 <= j < i :: outbox[j].published
    ensures Pending(outbox) == [outbox[i]] + Pending(outbox[i + 1..])
    ensures Pending(outbox[i := outbox[i].(published := true)]) == Pending(outbox[i + 1..])
  {
    hide Pending;
    var marked := outbox[i].(published := true);
    PendingMiddle(outbox[..i], outbox[i], outbox[i + 1..]);
    PendingMiddle(outbox[..i], marked, outbox[i + 1..]);
    assert outbox == outbox[..i] + [outbox[i]] + outbox[i + 1..];
    assert outbox[i := marked] == outbox[..i] + [marked] + outbox[i + 1..];
    assert [] + Pending(outbox[i + 1..]) == Pending(outbox[i + 1..]);
  }

  /** The oldest unpublished entry heads the pending ones, and marking it takes it off. */
  lemma HeadOfPending(t: T.Tables)
    requires Numbered(t.outbox, t.nextId)
    ensures T.NextUnpublished(t).None? <==> Pending(t.outbox) == []
    ensures T.NextUnpublished(t).Some? ==>
      var next := T.NextUnpublished(t).value;
      && Pending(t.outbox) == [next] + Pending(T.MarkPublished(t, next.id).outbox)
      && Numbered(T.MarkPublished(t, next.id).outbox, t.nextId)
  {
    hide Pending;
    var i := T.FirstUnpublished(t.outbox);
    if i == |t.outbox| {
      AllPublishedNonePending(t.outbox);
    } else {
      assert T.IndexOfId(t.outbox, i) == i;
      FirstPending(t.outbox, i);
    }
  }

  function Messages(entries: seq<T.Entry>): (ms: seq<T.Message>)
    ensures |ms| == |entries| && forall i | 0 <= i < |ms| :: ms[i] == entries[i].message
  {
    if entries == [] then [] else Messages(entries[..|entries| - 1]) + [entries[|entries| - 1].message]
  }

  /** How many of the `n` answers from `from` on confirm a hand-off. */
  function Confirmed(answers: nat -> PortAnswer, from: nat, n: nat): (c: nat)
    ensures c <= n
  {
    if n == 0 then 0
    else Confirmed(answers, from, n - 1) + if answers(from + n - 1).Advice? || answers(from + n - 1).Accepted? then 1 else 0
  }

  /** The port was given exactly the oldest pending messages, in order, and none of the sends failed. */
  ghost predicate Took(answers: nat -> PortAnswer, from: nat, pending: seq<T.Entry>, given: seq<T.Message>,
          published: nat) {
    && |given| <= |pending|
    && given == Messages(pending[..|given|])
    && (forall i | from <= i < from + |given| :: !answers(i).TransportFailure?)
    && published == Confirmed(answers, from, |given|)
  }

  lemma GivesOneMore(answers: nat -> PortAnswer, from: nat, pending: seq<T.Entry>, given: seq<T.Message>,
          published: nat)
    requires Took(answers, from, pending, given, published) && |given| < |pending|
    ensures var more, answer := given + [pending[|given|].message], answers(from + |given|);
      && more == Messages(pending[..|more|])
      && (!answer.TransportFailure? ==>
            Took(answers, from, pending, more, published + if answer.Rejected? then 0 else 1))
  {
    assert pending[..|given| + 1][..|given|] == pending[..|given|];
  }

  lemma TookNothing(answers: nat -> PortAnswer, from: nat, pending: seq<T.Entry>)
    ensures Took(answers, from, pending, [], 0)
  {
  }

  lemma TookAll(answers: nat -> PortAnswer, from: nat, pending: seq<T.Entry>, given: seq<T.Message>, published: nat)
    requires Took(answers, from, pending, given, published)
    ensures given == Messages(pending[..|given|])
    ensures given != [] ==> !answers(from + |given| - 1).TransportFailure?
  {
  }

  // ---------------------------------------------- the drain, entry by entry

  /** The same entries in the same order; only their marks may differ. */
  ghost predicate SameEntries(a: seq<T.Entry>, b: seq<T.Entry>) {
    |a| == |b| && forall i | 0 <= i < |a| :: b[i] == a[i].(published := b[i].published)
  }

  ghost predicate Queued(outbox: seq<T.Entry>, key: Key, message: T.Message) {
    exists i :: 0 <= i < |outbox| && outbox[i].key == key && outbox[i].message == message
  }

  lemma QueuedStays(a: seq<T.Entry>, b: seq<T.Entry>, key: Key, message: T.Message)
    requires SameEntries(a, b) && Queued(a, key, message)
    ensures Queued(b, key, message)
  {
    var i :| 0 <= i < |a| && a[i].key == key && a[i].message == message;
    assert b[i].key == key && b[i].message == message;
  }

  lemma EnqueuedIsQueued(t: T.Tables, key: Key, message: T.Message)
    ensures Queued(T.Enqueued(t, key, message).outbox, key, message)
  {
    assert T.Enqueued(t, key, message).outbox[|t.outbox|] == T.Entry(t.nextId, key, message, false);
  }

  /** After the port's answer: marked and published when it confirms, marked only when it rejects. */
  function Settle(t: T.Tables, entry: T.Entry, answer: PortAnswer, now: int): T.Tables
    requires !answer.TransportFailure?
  {
    var marked := T.MarkPublished(t, entry.id);
    if answer.Rejected? then marked
    else
      var published := T.Append(marked, entry.key, Published(now)).tables;
      var advice := AdviceIn(answer, now);
      if advice.Some? then T.Append(published, entry.key, advice.value).tables else published
  }

  lemma SettleMarks(t: T.Tables, entry: T.Entry, answer: PortAnswer, now: int)
    requires !answer.TransportFailure?
    ensures Settle(t, entry, answer, now).outbox == T.MarkPublished(t, entry.id).outbox
    ensures Settle(t, entry, answer, now).nextId == t.nextId
    ensures SameEntries(t.outbox, Settle(t, entry, answer, now).outbox)
  {
    hide Replay, AdviceIn;
  }

  /** The same payments are on record, and what their streams held they hold. */
  ghost predicate Continues(t: T.Tables, t': T.Tables) {
    && (forall key :: T.Load(t, key).Some? <==> T.Load(t', key).Some?)
    && forall key | key in t.streams :: key in t'.streams && t.streams[key] <= t'.streams[key]
  }

  lemma ContinuesOn(a: T.Tables, b: T.Tables, c: T.Tables)
    ensures Continues(a, a)
    ensures Continues(a, b) && Continues(b, c) ==> Continues(a, c)
  {
    hide T.Load;
  }

  lemma AppendContinues(t: T.Tables, key: Key, e: Event)
    ensures Continues(t, T.Append(t, key, e).tables)
  {
    if key in t.streams && t.streams[key] != [] {
      ReplayExtends(t.streams[key], e);
    }
  }

  lemma SameStreamsContinue(t: T.Tables, t': T.Tables)
    requires t.streams == t'.streams
    ensures Continues(t, t')
  {
    hide Replay;
  }

  lemma SettleContinues(t: T.Tables, entry: T.Entry, answer: PortAnswer, now: int)
    requires !answer.TransportFailure?
    ensures Continues(t, Settle(t, entry, answer, now))
  {
    hide T.Append, Replay, AdviceIn, Continues;
    var marked := T.MarkPublished(t, entry.id);
    SameStreamsContinue(t, marked);
    if !answer.Rejected? {
      var published := T.Append(marked, entry.key, Published(now)).tables;
      AppendContinues(marked, entry.key, Published(now));
      ContinuesOn(t, marked, published);
      if AdviceIn(answer, now).Some? {
        AppendContinues(published, entry.key, AdviceIn(answer, now).value);
        ContinuesOn(t, published, T.Append(published, entry.key, AdviceIn(answer, now).value).tables);
      }
    }
  }

  /** One entry through the drain task. */
  lemma DrainSettles(cfg: Config, t: T.Tables, answer: PortAnswer, now: int, caller: Option<Key>)
    requires T.NextUnpublished(t).Some?
    ensures var entry := T.NextUnpublished(t).value;
      if answer.TransportFailure? then Reaches(cfg, At(t, Draining(now, caller)), At(t, AfterDrain(caller)))
      else Reaches(cfg, At(t, Draining(now, caller)), At(Settle(t, entry, answer, now), Draining(now, caller)))
  {
    hide T.NextUnpublished, T.MarkPublished, T.Append, Reaches, AdviceIn;
    var entry, a := T.NextUnpublished(t).value, At(t, Draining(now, caller));
    var b := At(t, Sending(entry, now, caller));
    ReachesNext(cfg, a, Quiet);
    ReachesNext(cfg, b, Oracle.Port(answer));
    if answer.TransportFailure? {
      ReachesFurther(cfg, a, b, At(t, AfterDrain(caller)));
    } else {
      var c := At(t, if answer.Rejected? then Dropping(entry, now, caller) else Acknowledging(entry, answer, now, caller));
      ReachesFurther(cfg, a, b, c);
      AnswerSettles(cfg, t, entry, answer, now, caller);
      ReachesFurther(cfg, a, c, At(Settle(t, entry, answer, now), Draining(now, caller)));
    }
  }

  lemma AnswerSettles(cfg: Config, t: T.Tables, entry: T.Entry, answer: PortAnswer, now: int, caller: Option<Key>)
    requires !answer.TransportFailure?
    ensures Reaches(cfg, At(t, if answer.Rejected? then Dropping(entry, now, caller)
                               else Acknowledging(entry, answer, now, caller)),
                    At(Settle(t, entry, answer, now), Draining(now, caller)))
  {
    hide T.MarkPublished, T.Append, Reaches, AdviceIn;
    var drained, marked := Draining(now, caller), T.MarkPublished(t, entry.id);
    if answer.Rejected? {
      ReachesNext(cfg, At(t, Dropping(entry, now, caller)), Quiet);
    } else {
      var a, b := At(t, Acknowledging(entry, answer, now, caller)), At(marked, Publishing(entry, answer, now, caller));
      var published, advice := T.Append(marked, entry.key, Published(now)).tables, AdviceIn(answer, now);
      ReachesNext(cfg, a, Quiet);
      ReachesNext(cfg, b, Quiet);
      if advice.Some? {
        var c := At(published, Advising(entry.key, advice.value, now, caller));
        ReachesNext(cfg, c, Quiet);
        ReachesFurther(cfg, a, b, c);
        ReachesFurther(cfg, a, c, At(T.Append(published, entry.key, advice.value).tables, drained));
      } else {
        ReachesFurther(cfg, a, b, At(published, drained));
      }
    }
  }

  lemma DrainEnds(cfg: Config, t: T.Tables, now: int, caller: Option<Key>)
    requires T.NextUnpublished(t).None?
    ensures Reaches(cfg, At(t, Draining(now, caller)), At(t, AfterDrain(caller)))
  {
    hide T.NextUnpublished, Reaches;
    ReachesNext(cfg, At(t, Draining(now, caller)), Quiet);
  }
}
