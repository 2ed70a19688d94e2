/** How long a held payment stays releasable, over saturating 64-bit arithmetic. */
module HoldPolicies {

  const I64_MAX: int := 0x7fff_ffff_ffff_ffff
  const I64_MIN: int := -0x8000_0000_0000_0000

  /** A 64-bit signed integer. */
  type I64 = x: int | I64_MIN <= x <= I64_MAX

  const GATEWAY_ACTOR := "gateway"
  const EXPIRED_REASON := "hold_expired"

  function Saturate(x: int): I64 {
    if x < I64_MIN then I64_MIN else if x > I64_MAX then I64_MAX else x
  }

  predicate IsExpired(maxAge: int, heldAt: int, now: int) {
    Saturate(now - heldAt) > maxAge
  }

  function ExpiresAt(maxAge: I64, heldAt: I64): I64 {
    Saturate(heldAt + maxAge)
  }

  /** Where the two agree at every time: any hold time that is not negative, and every positive age but the largest. */
  predicate AgreesThroughout(maxAge: I64, heldAt: I64) {
    heldAt >= 0 || (maxAge < I64_MAX && heldAt + maxAge >= I64_MIN)
  }

  /** The sweeper's test and the date shown to operators agree. */
  lemma ExpiryAgrees(maxAge: I64, heldAt: I64, now: I64)
    requires AgreesThroughout(maxAge, heldAt)
    ensures !IsExpired(maxAge, heldAt, now) <==> now <= ExpiresAt(maxAge, heldAt)
  {
  }

  /** The corners are exact: outside them some time is releasable by one reading and not by the other. */
  lemma ExpiryAgreesExactly(maxAge: I64, heldAt: I64)
    ensures (forall now: I64 :: !IsExpired(maxAge, heldAt, now) <==> now <= ExpiresAt(maxAge, heldAt))
       <==> AgreesThroughout(maxAge, heldAt)
  {
    if AgreesThroughout(maxAge, heldAt) {
      forall now: I64
        ensures !IsExpired(maxAge, heldAt, now) <==> now <= ExpiresAt(maxAge, heldAt)
      {
        ExpiryAgrees(maxAge, heldAt, now);
      }
    } else {
      var now: I64 := if maxAge == I64_MAX then I64_MAX else I64_MIN;
      assert !IsExpired(maxAge, heldAt, now) != (now <= ExpiresAt(maxAge, heldAt));
    }
  }

  /** For hold times that are not negative, or any positive age below the largest, the two always agree. */
  lemma PositiveAgesAgree(maxAge: I64, heldAt: I64)
    requires heldAt >= 0 || 0 < maxAge < I64_MAX
    ensures forall now: I64 :: !IsExpired(maxAge, heldAt, now) <==> now <= ExpiresAt(maxAge, heldAt)
  {
    ExpiryAgreesExactly(maxAge, heldAt);
  }

  /** An expired hold stays expired. */
  lemma ExpiryIsForGood(maxAge: int, heldAt: int, now: int, later: int)
    requires now <= later && IsExpired(maxAge, heldAt, now)
    ensures IsExpired(maxAge, heldAt, later)
  {
  }
}
