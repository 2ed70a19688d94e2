/** Counting payments by state, and finding the longest-waiting one. */
module Summaries {
  import opened Wrappers
  import opened Payments
  import T = Tables

  datatype OpsSummary = OpsSummary(total: nat, byState: map<PaymentState, nat>, outboxPending: nat,
                                   oldestUnresolvedAge: Option<int>)

  function KeysIn(t: T.Tables, keys: set<Key>, state: PaymentState): set<Key> {
    set k | k in keys && T.Load(t, k).Some? && T.Load(t, k).value.state == state
  }

  function KeysLoaded(t: T.Tables, keys: set<Key>): set<Key> {
    set k | k in keys && T.Load(t, k).Some?
  }

  /** How long ago an unresolved payment was published. */
  function UnresolvedAge(t: T.Tables, key: Key, now: int): Option<int> {
    var p := T.Load(t, key);
    if p.Some? && p.value.state.TimeoutUnresolved? && p.value.publishedAt.Some? then
      Some(if now > p.value.publishedAt.value then now - p.value.publishedAt.value else 0)
    else None
  }

  /** The counts and the greatest age over some of the keys. */
  ghost predicate Sums(t: T.Tables, keys: set<Key>, now: int, total: nat, byState: map<PaymentState, nat>,
          oldest: Option<int>) {
    && total == |KeysLoaded(t, keys)|
    && (forall s :: s in byState <==> KeysIn(t, keys, s) != {})
    && (forall s | s in byState :: byState[s] == |KeysIn(t, keys, s)|)
    && (oldest.None? ==> forall k | k in keys :: UnresolvedAge(t, k, now).None?)
    && (oldest.Some? ==> exists k :: k in keys && UnresolvedAge(t, k, now) == oldest)
    && (forall k | k in keys && UnresolvedAge(t, k, now).Some? :: oldest.Some? && UnresolvedAge(t, k, now).value <= oldest.value)
  }

  function Bumped(byState: map<PaymentState, nat>, s: PaymentState): map<PaymentState, nat> {
    byState[s := (if s in byState then byState[s] else 0) + 1]
  }

  function Oldest(oldest: Option<int>, age: Option<int>): Option<int> {
    if age.None? then oldest
    else if oldest.None? || age.value > oldest.value then age
    else oldest
  }

  lemma SumsOneMore(t: T.Tables, keys: set<Key>, key: Key, now: int, total: nat, byState: map<PaymentState, nat>,
          oldest: Option<int>)
    requires Sums(t, keys, now, total, byState, oldest) && key !in keys
    ensures var p := T.Load(t, key);
      Sums(t, keys + {key}, now, if p.Some? then total + 1 else total,
           if p.Some? then Bumped(byState, p.value.state) else byState,
           Oldest(oldest, UnresolvedAge(t, key, now)))
  {
    hide T.Load, UnresolvedAge;
    var p := T.Load(t, key);
    assert KeysLoaded(t, keys + {key}) == KeysLoaded(t, keys) + if p.Some? then {key} else {};
    CountsOneMore(t, keys, key, byState);
    AgesOneMore(t, keys, key, now, oldest);
  }

  lemma CountsOneMore(t: T.Tables, keys: set<Key>, key: Key, byState: map<PaymentState, nat>)
    requires key !in keys
    requires forall s :: s in byState <==> KeysIn(t, keys, s) != {}
    requires forall s | s in byState :: byState[s] == |KeysIn(t, keys, s)|
    ensures var p := T.Load(t, key);
      var byState' := if p.Some? then Bumped(byState, p.value.state) else byState;
      && (forall s :: s in byState' <==> KeysIn(t, keys + {key}, s) != {})
      && (forall s | s in byState' :: byState'[s] == |KeysIn(t, keys + {key}, s)|)
  {
    hide T.Load;
    var p := T.Load(t, key);
    forall s: PaymentState
      ensures KeysIn(t, keys + {key}, s)
           == if p.Some? && p.value.state == s then KeysIn(t, keys, s) + {key} else KeysIn(t, keys, s)
    {
      OneMoreKey(t, keys, key, s);
    }
    assert p.Some? ==> key !in KeysIn(t, keys, p.value.state);
    assert p.Some? && p.value.state !in byState ==> KeysIn(t, keys, p.value.state) == {};
    hide KeysIn;
  }

  lemma OneMoreKey(t: T.Tables, keys: set<Key>, key: Key, s: PaymentState)
    requires key !in keys
    ensures var p := T.Load(t, key);
      KeysIn(t, keys + {key}, s) == if p.Some? && p.value.state == s then KeysIn(t, keys, s) + {key} else KeysIn(t, keys, s)
  {
    hide T.Load;
  }

  lemma AgesOneMore(t: T.Tables, keys: set<Key>, key: Key, now: int, oldest: Option<int>)
    requires key !in keys
    requires oldest.None? ==> forall k | k in keys :: UnresolvedAge(t, k, now).None?
    requires oldest.Some? ==> exists k :: k in keys && UnresolvedAge(t, k, now) == oldest
    requires forall k | k in keys && UnresolvedAge(t, k, now).Some? ::
      oldest.Some? && UnresolvedAge(t, k, now).value <= oldest.value
    ensures var more, oldest' := keys + {key}, Oldest(oldest, UnresolvedAge(t, key, now));
      && (oldest'.None? ==> forall k | k in more :: UnresolvedAge(t, k, now).None?)
      && (oldest'.Some? ==> exists k :: k in more && UnresolvedAge(t, k, now) == oldest')
      && (forall k | k in more && UnresolvedAge(t, k, now).Some? ::
            oldest'.Some? && UnresolvedAge(t, k, now).value <= oldest'.value)
  {
    hide UnresolvedAge;
    if oldest.Some? {
      var k :| k in keys && UnresolvedAge(t, k, now) == oldest;
      assert k in keys + {key};
    }
    assert key in keys + {key};
  }

  /** Published, and unresolved since the timeout. */
  ghost predicate Unresolved(t: T.Tables, key: Key) {
    T.Load(t, key).Some? && T.Load(t, key).value.state.TimeoutUnresolved? && T.Load(t, key).value.publishedAt.Some?
  }

  ghost function PublishedAt(t: T.Tables, key: Key): int
    requires Unresolved(t, key)
  {
    T.Load(t, key).value.publishedAt.value
  }

  /** The longest any of them has waited since its publication; publications yet to come count as waiting for none. */
  ghost predicate OldestIs(t: T.Tables, now: int, oldest: Option<int>) {
    && (oldest.None? <==> forall key | key in t.streams :: !Unresolved(t, key))
    && (oldest.Some? ==>
          && oldest.value >= 0
          && (forall key | key in t.streams && Unresolved(t, key) ::
                now - PublishedAt(t, key) <= oldest.value)
          && exists key :: key in t.streams && Unresolved(t, key)
                           && (oldest.value == now - PublishedAt(t, key)
                               || (oldest.value == 0 && now < PublishedAt(t, key))))
  }

  lemma AgeOfUnresolved(t: T.Tables, key: Key, now: int)
    ensures UnresolvedAge(t, key, now).Some? <==> Unresolved(t, key)
    ensures Unresolved(t, key) ==>
      var age, published := UnresolvedAge(t, key, now).value, PublishedAt(t, key);
      age >= 0 && now - published <= age && (age == now - published || (age == 0 && now < published))
  {
    hide T.Load;
  }

  lemma SumsSay(t: T.Tables, now: int, total: nat, byState: map<PaymentState, nat>, oldest: Option<int>)
    requires Sums(t, t.streams.Keys, now, total, byState, oldest)
    ensures total == |set key | key in t.streams && T.Load(t, key).Some?|
    ensures forall state :: state in byState <==> KeysIn(t, t.streams.Keys, state) != {}
    ensures forall state | state in byState ::
      byState[state] == |set key | key in t.streams && T.Load(t, key).Some? && T.Load(t, key).value.state == state|
    ensures OldestIs(t, now, oldest)
  {
    assert KeysLoaded(t, t.streams.Keys) == set key | key in t.streams && T.Load(t, key).Some?;
    forall state | state in byState
      ensures byState[state]
           == |set key | key in t.streams && T.Load(t, key).Some? && T.Load(t, key).value.state == state|
    {
      assert KeysIn(t, t.streams.Keys, state)
          == set key | key in t.streams && T.Load(t, key).Some? && T.Load(t, key).value.state == state;
    }
    OldestSays(t, now, oldest);
  }

  lemma OldestSays(t: T.Tables, now: int, oldest: Option<int>)
    requires oldest.None? ==> forall k | k in t.streams.Keys :: UnresolvedAge(t, k, now).None?
    requires oldest.Some? ==> exists k :: k in t.streams.Keys && UnresolvedAge(t, k, now) == oldest
    requires forall k | k in t.streams.Keys && UnresolvedAge(t, k, now).Some? ::
      oldest.Some? && UnresolvedAge(t, k, now).value <= oldest.value
    ensures OldestIs(t, now, oldest)
  {
    hide T.Load, UnresolvedAge, Unresolved;
    forall key
      ensures UnresolvedAge(t, key, now).Some? <==> Unresolved(t, key)
    {
      AgeOfUnresolved(t, key, now);
    }
    forall key | key in t.streams && Unresolved(t, key)
      ensures oldest.Some? && now - PublishedAt(t, key) <= oldest.value
    {
      AgeOfUnresolved(t, key, now);
    }
    if oldest.Some? {
      var key :| key in t.streams.Keys && UnresolvedAge(t, key, now) == oldest;
      AgeOfUnresolved(t, key, now);
      assert key in t.streams && Unresolved(t, key);
    }
  }
}
