/** Correlating received advices, and applying them one call after the other. */
module Pumps {
  import opened Wrappers
  import opened Payments
  import opened Protocol
  import opened Advices
  import opened Sequential
  import T = Tables

  /** Where the pump goes with a message it polled. */
  function Received(body: Body, now: int): Task {
    if body.Status? && body.report.originalId.Some? then Listing(body.report, now) else Polling(now)
  }

  /** Where the search goes once it has found its payment, or found none. */
  function Found(report: Report, p: Option<Payment>, now: int): Task {
    var advice := AdviceOf(report, now);
    if p.Some? && advice.Some? then Correlated(p.value.key, advice.value, now) else Polling(now)
  }

  ghost predicate Matches(t: T.Tables, key: Key, messageId: string) {
    T.Load(t, key).Some? && T.Load(t, key).value.messageId == messageId
  }

  /** A status report with a verdict, on a payment that is on record here. */
  ghost predicate Concerns(t: T.Tables, body: Body) {
    && body.Status? && body.report.originalId.Some? && Usable(body.report)
    && exists key :: key in t.streams && Matches(t, key, body.report.originalId.value)
  }

  /** One candidate of the search. */
  lemma SearchOne(cfg: Config, t: T.Tables, report: Report, candidates: set<Key>, key: Key, now: int)
    requires key in candidates && report.originalId.Some?
    ensures Reaches(cfg, At(t, Searching(report, candidates, now)),
                    At(t, if Matches(t, key, report.originalId.value) then Found(report, T.Load(t, key), now)
                          else Searching(report, candidates - {key}, now)))
  {
    hide T.Load, AdviceOf, Reaches;
    ReachesNext(cfg, At(t, Searching(report, candidates, now)), Pick(key));
  }

  lemma SearchEnds(cfg: Config, t: T.Tables, report: Report, now: int)
    ensures Reaches(cfg, At(t, Listing(report, now)), At(t, Searching(report, t.streams.Keys, now)))
    ensures Reaches(cfg, At(t, Searching(report, {}, now)), At(t, Polling(now)))
  {
    hide Reaches;
    ReachesNext(cfg, At(t, Listing(report, now)), Quiet);
    ReachesNext(cfg, At(t, Searching(report, {}, now)), Quiet);
  }

  lemma AdviceApplied(cfg: Config, t: T.Tables, key: Key, e: Event, now: int)
    ensures Reaches(cfg, At(t, Correlated(key, e, now)), At(T.Append(t, key, e).tables, Polling(now)))
  {
    hide Reaches, T.Append;
    ReachesNext(cfg, At(t, Correlated(key, e, now)), Quiet);
  }

  lemma PollReaches(cfg: Config, t: T.Tables, body: Option<Body>, now: int)
    ensures Reaches(cfg, At(t, Polling(now)), At(t, if body.Some? then Received(body.value, now) else Done))
  {
    hide Reaches;
    ReachesNext(cfg, At(t, Polling(now)), Oracle.Polled(body));
  }

  /** What hearing one message led to: an advice for a payment it matches, exactly when it concerns one. */
  ghost predicate Hears(t: T.Tables, body: Body, now: int, one: Option<(Key, Event)>) {
    && (one.Some? <==> Concerns(t, body))
    && (one.Some? ==>
          && IsAdvice(body.report, now, one.value.1)
          && exists key :: key in t.streams && Matches(t, key, body.report.originalId.value)
                           && T.Load(t, key).value.key == one.value.0)
  }

  /** The tables after trying these appends one after the other; a refused one changes nothing. */
  function AfterAll(t: T.Tables, heard: seq<Option<(Key, Event)>>): T.Tables
    decreases |heard|
  {
    if heard == [] then t
    else
      var before, last := AfterAll(t, heard[..|heard| - 1]), heard[|heard| - 1];
      if last.None? then before else T.Append(before, last.value.0, last.value.1).tables
  }

  /** How many of them were accepted in their turn. */
  function AcceptedOf(t: T.Tables, heard: seq<Option<(Key, Event)>>): nat
    decreases |heard|
  {
    if heard == [] then 0
    else
      var before, last := AfterAll(t, heard[..|heard| - 1]), heard[|heard| - 1];
      AcceptedOf(t, heard[..|heard| - 1])
      + if last.Some? && T.Append(before, last.value.0, last.value.1).outcome.Ok? then 1 else 0
  }

  /** The messages were heard from the first on, each against the tables its predecessors left. */
  ghost predicate HeardInTurn(t: T.Tables, inbox: seq<Option<Body>>, now: int, heard: seq<Option<(Key, Event)>>) {
    && |heard| <= |inbox|
    && forall i | 0 <= i < |heard| :: inbox[i].Some? && Hears(AfterAll(t, heard[..i]), inbox[i].value, now, heard[i])
  }

  lemma OneMoreHeard(t: T.Tables, inbox: seq<Option<Body>>, now: int, heard: seq<Option<(Key, Event)>>,
          one: Option<(Key, Event)>)
    requires HeardInTurn(t, inbox, now, heard) && |heard| < |inbox| && inbox[|heard|].Some?
    requires Hears(AfterAll(t, heard), inbox[|heard|].value, now, one)
    ensures HeardInTurn(t, inbox, now, heard + [one])
    ensures var before := AfterAll(t, heard);
      if one.None? then AfterAll(t, heard + [one]) == before && AcceptedOf(t, heard + [one]) == AcceptedOf(t, heard)
      else
        var reply := T.Append(before, one.value.0, one.value.1);
        && AfterAll(t, heard + [one]) == reply.tables
        && AcceptedOf(t, heard + [one]) == AcceptedOf(t, heard) + if reply.outcome.Ok? then 1 else 0
  {
    hide T.Append, Hears;
    var more := heard + [one];
    assert more[..|heard|] == heard;
    forall i | 0 <= i < |more|
      ensures inbox[i].Some? && Hears(AfterAll(t, more[..i]), inbox[i].value, now, more[i])
    {
      if i < |heard| {
        assert more[..i] == heard[..i];
      }
    }
  }

  lemma NothingHeard(t: T.Tables, inbox: seq<Option<Body>>, now: int)
    ensures HeardInTurn(t, inbox, now, []) && AfterAll(t, []) == t && AcceptedOf(t, []) == 0
  {
  }
}
