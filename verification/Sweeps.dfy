/** Cancelling holds, one by one. */
module Sweeps {
  import opened Wrappers
  import opened Payments
  import opened Histories
  import opened HoldPolicies
  import opened Protocol
  import opened Sequential
  import T = Tables

  /** Held past the policy, whether or not a message is parked. */
  predicate Stale(cfg: Config, t: T.Tables, key: Key, now: int) {
    var p := T.Load(t, key);
    p.Some? && p.value.state.Held? && Expired(cfg, p.value, now)
  }

  /** Held, and the hold on record is older than the largest age allowed; the very largest age allows any. */
  ghost predicate HeldTooLong(maxAge: I64, t: T.Tables, key: Key, now: int) {
    && T.Load(t, key).Some? && T.Load(t, key).value.state.Held?
    && key in t.streams && LastOf(t.streams[key], HoldTime).Some?
    && now - LastOf(t.streams[key], HoldTime).value > maxAge && maxAge != 9223372036854775807
  }

  lemma StaleByHistory(cfg: Config, t: T.Tables, key: Key, now: int)
    ensures Stale(cfg, t, key, now) <==> HeldTooLong(cfg.maxAge, t, key, now)
  {
    if T.Load(t, key).Some? {
      ReplayFolds(t.streams[key]);
      hide Replay;
    }
  }

  /** Exactly the holds that are too old were cancelled, each for that reason, and their messages deleted. */
  ghost predicate Swept(maxAge: I64, t: T.Tables, now: int, t': T.Tables) {
    && t'.outbox == t.outbox && t'.nextId == t.nextId && t'.streams.Keys == t.streams.Keys
    && (forall key | key in t.streams ::
          t'.streams[key] ==
            t.streams[key] + if HeldTooLong(maxAge, t, key, now) then [HoldCancelled("gateway", "hold_expired", now)] else [])
    && (forall key :: key in t'.parked <==> key in t.parked && !HeldTooLong(maxAge, t, key, now))
    && (forall key | key in t'.parked :: t'.parked[key] == t.parked[key])
  }

  lemma SweptAsStated(cfg: Config, t: T.Tables, now: int)
    ensures Swept(cfg.maxAge, t, now, SweptOf(t, StaleKeys(cfg, t, now), now))
    ensures StaleKeys(cfg, t, now) == set key | key in t.streams && HeldTooLong(cfg.maxAge, t, key, now)
  {
    hide Stale, HeldTooLong;
    forall key
      ensures Stale(cfg, t, key, now) <==> HeldTooLong(cfg.maxAge, t, key, now)
    {
      StaleByHistory(cfg, t, key, now);
    }
    forall key
      ensures Stale(cfg, t, key, now) ==> key in t.streams
    {
      StaleIsKnown(cfg, t, key, now);
    }
    assert forall key | key in t.streams :: t.streams[key] + [] == t.streams[key];
  }

  lemma StaleIsKnown(cfg: Config, t: T.Tables, key: Key, now: int)
    ensures Stale(cfg, t, key, now) ==> key in t.streams
  {
    hide Replay;
  }

  function StaleKeys(cfg: Config, t: T.Tables, now: int): set<Key> {
    set k | k in t.streams && Stale(cfg, t, k, now)
  }

  /** The tables with every hold in `keys` cancelled at `now`. */
  function SweptOf(t: T.Tables, keys: set<Key>, now: int): T.Tables {
    t.(streams := map k | k in t.streams :: if k in keys then t.streams[k] + [ExpiryEvent(now)] else t.streams[k],
       parked := t.parked - keys)
  }

  /** Cancelling is accepted for any payment on record as held, at any age, parked message or not. */
  lemma HeldIsCancellable(t: T.Tables, key: Key, e: Event)
    requires T.Load(t, key).Some? && T.Load(t, key).value.state.Held? && e.HoldCancelled?
    ensures key in t.streams && t.streams[key] != []
    ensures T.DiscardParked(t, key, e).outcome.Ok?
    ensures T.DiscardParked(t, key, e).tables
         == t.(streams := t.streams[key := t.streams[key] + [e]], parked := t.parked - {key})
    ensures T.Load(T.DiscardParked(t, key, e).tables, key) == Some(T.DiscardParked(t, key, e).outcome.value)
  {
    ReplayExtends(t.streams[key], e);
  }

  /** Looking at one candidate: cancel its hold if it is stale. */
  lemma SweepOne(cfg: Config, t: T.Tables, candidates: set<Key>, key: Key, now: int)
    requires key in candidates
    ensures var t' := if Stale(cfg, t, key, now) then T.DiscardParked(t, key, ExpiryEvent(now)).tables else t;
      Reaches(cfg, At(t, SweepCheck(candidates, now)), At(t', SweepCheck(candidates - {key}, now)))
  {
    hide T.Load, Expired, T.DiscardParked, Reaches;
    var rest := candidates - {key};
    ReachesNext(cfg, At(t, SweepCheck(candidates, now)), Pick(key));
    if Stale(cfg, t, key, now) {
      var b := At(t, SweepDiscard(key, ExpiryEvent(now), rest, now));
      ReachesNext(cfg, b, Quiet);
      ReachesFurther(cfg, At(t, SweepCheck(candidates, now)), b,
                     At(T.DiscardParked(t, key, ExpiryEvent(now)).tables, SweepCheck(rest, now)));
    }
  }

  /** Cancelling one more stale hold. */
  lemma CancelledOneMore(cfg: Config, t: T.Tables, done: set<Key>, key: Key, now: int)
    requires key in t.streams && key !in done
    ensures T.Load(SweptOf(t, done, now), key) == T.Load(t, key)
    ensures Stale(cfg, SweptOf(t, done, now), key, now) == Stale(cfg, t, key, now)
    ensures Stale(cfg, t, key, now) ==>
      T.DiscardParked(SweptOf(t, done, now), key, ExpiryEvent(now)).tables == SweptOf(t, done + {key}, now)
  {
    hide Replay, Expired;
    var t' := SweptOf(t, done, now);
    assert t'.streams[key] == t.streams[key];
    if Stale(cfg, t, key, now) {
      HeldIsCancellable(t', key, ExpiryEvent(now));
      assert t'.streams[key := t'.streams[key] + [ExpiryEvent(now)]] == SweptOf(t, done + {key}, now).streams;
      assert t'.parked - {key} == t.parked - (done + {key});
    }
  }

  /** One candidate of a sweep, done and still to do. */
  lemma SweepAdvances(cfg: Config, t: T.Tables, candidates: set<Key>, key: Key, now: int)
    requires key in candidates && candidates <= t.streams.Keys
    ensures var stale, rest := StaleKeys(cfg, t, now), candidates - {key};
      var before := SweptOf(t, stale - candidates, now);
      var after := if Stale(cfg, before, key, now) then T.DiscardParked(before, key, ExpiryEvent(now)).tables else before;
      && after == SweptOf(t, stale - rest, now)
      && |stale - rest| == |stale - candidates| + (if Stale(cfg, before, key, now) then 1 else 0)
      && Reaches(cfg, At(before, SweepCheck(candidates, now)), At(after, SweepCheck(rest, now)))
  {
    hide Stale, T.DiscardParked, SweptOf, Reaches;
    var stale, rest := StaleKeys(cfg, t, now), candidates - {key};
    CancelledOneMore(cfg, t, stale - candidates, key, now);
    SweepOne(cfg, SweptOf(t, stale - candidates, now), candidates, key, now);
    if key in stale {
      assert stale - rest == (stale - candidates) + {key};
    } else {
      assert stale - rest == stale - candidates;
    }
  }

  lemma NothingCancelled(t: T.Tables, now: int)
    ensures SweptOf(t, {}, now) == t
  {
    assert SweptOf(t, {}, now).streams == t.streams;
    assert t.parked - {} == t.parked;
  }

  lemma SweepBegins(cfg: Config, t: T.Tables, now: int)
    ensures SweptOf(t, StaleKeys(cfg, t, now) - t.streams.Keys, now) == t && StaleKeys(cfg, t, now) - t.streams.Keys == {}
    ensures Reaches(cfg, At(t, Sweeping(now)), At(t, SweepCheck(t.streams.Keys, now)))
  {
    hide Stale, Reaches;
    assert StaleKeys(cfg, t, now) - t.streams.Keys == {};
    NothingCancelled(t, now);
    ReachesNext(cfg, At(t, Sweeping(now)), Quiet);
  }

  lemma SweepEnds(cfg: Config, t: T.Tables, now: int)
    ensures Reaches(cfg, At(t, SweepCheck({}, now)), At(t, Done))
  {
    hide Reaches;
    ReachesNext(cfg, At(t, SweepCheck({}, now)), Quiet);
  }

  /** A sweep leaves no expired hold behind, so a second one at the same time changes nothing. */
  lemma SweepIsIdempotent(cfg: Config, t: T.Tables, now: int)
    ensures var t' := SweptOf(t, StaleKeys(cfg, t, now), now);
      && StaleKeys(cfg, t', now) == {}
      && SweptOf(t', StaleKeys(cfg, t', now), now) == t'
  {
    hide Replay, Expired;
    var stale := StaleKeys(cfg, t, now);
    var t' := SweptOf(t, stale, now);
    forall key | key in t'.streams
      ensures !Stale(cfg, t', key, now)
    {
      if key in stale {
        SweptIsNotHeld(t, t', key, now);
      } else {
        assert t'.streams[key] == t.streams[key];
      }
    }
    assert StaleKeys(cfg, t', now) == {};
    NothingCancelled(t', now);
  }

  lemma SweptIsNotHeld(t: T.Tables, t': T.Tables, key: Key, now: int)
    requires T.Load(t, key).Some? && T.Load(t, key).value.state.Held?
    requires key in t'.streams && t'.streams[key] == t.streams[key] + [ExpiryEvent(now)]
    ensures T.Load(t', key).Some? && T.Load(t', key).value.state.Cancelled?
  {
    ReplayExtends(t.streams[key], ExpiryEvent(now));
  }
}
