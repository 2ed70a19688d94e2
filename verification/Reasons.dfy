/** Reason codes: what reaches the audit trail is a short code, never an account number. */
module Reasons {
  import opened Text

  const UNSPECIFIED := "unspecified"

  predicate CodeChar(c: char) { IsLower(c) || IsDigit(c) || c == '_' || c == '.' || c == '-' }

  /** 1 to 64 code characters, the first a letter. */
  predicate CodeShape(s: string) {
    && 1 <= |s| <= 64
    && IsLower(s[0])
    && forall i | 0 <= i < |s| :: CodeChar(s[i])
  }

  /** Five consecutive digits, starting at `i`. */
  predicate DigitsAt(s: string, i: int) {
    0 <= i && i + 5 <= |s| && forall j | i <= j < i + 5 :: IsDigit(s[j])
  }

  /** The length of the digit run that ends just before `k`: the scanner's counter. */
  function DigitRun(s: string, k: nat): (n: nat)
    requires k <= |s|
    ensures n <= k
    ensures forall j | k - n <= j < k :: IsDigit(s[j])
    ensures n < k ==> !IsDigit(s[k - n - 1])
  {
    if k == 0 || !IsDigit(s[k - 1]) then 0 else DigitRun(s, k - 1) + 1
  }

  /** The counter reached five at or before `k`. */
  predicate LongRun(s: string, k: nat)
    requires k <= |s|
  {
    k > 0 && (LongRun(s, k - 1) || DigitRun(s, k) >= 5)
  }

  /** The counter reaches five exactly when five consecutive digits end at or before `k`. */
  lemma {:induction false} LongRunIsFiveDigits(s: string, k: nat)
    requires k <= |s|
    ensures LongRun(s, k) <==> exists i :: DigitsAt(s, i) && i + 5 <= k
  {
    if k > 0 {
      LongRunIsFiveDigits(s, k - 1);
      if DigitRun(s, k) >= 5 {
        assert DigitsAt(s, k - 5);
      }
    }
  }

  lemma {:induction false} LongRunPersists(s: string, k: nat)
    requires k <= |s| && LongRun(s, k)
    ensures LongRun(s, |s|)
    decreases |s| - k
  {
    if k < |s| {
      LongRunPersists(s, k + 1);
    }
  }

  /** A reason the audit trail takes as it is. */
  predicate Acceptable(s: string) { CodeShape(s) && !LongRun(s, |s|) }

  /** What is recorded for a provider's reason. */
  function Sanitize(s: string): string { if Acceptable(s) then s else UNSPECIFIED }

  /** A short code: 1 to 64 of `a-z`, `0-9`, `_`, `.` and `-`, a letter first, never five digits in a row. */
  ghost predicate IsCode(s: string) {
    && 1 <= |s| <= 64 && 'a' <= s[0] <= 'z'
    && (forall c | c in s :: 'a' <= c <= 'z' || '0' <= c <= '9' || c == '_' || c == '.' || c == '-')
    && forall i :: !FiveDigits(s, i)
  }

  predicate FiveDigits(s: string, i: int) {
    && 0 <= i && i + 5 <= |s|
    && '0' <= s[i] <= '9' && '0' <= s[i + 1] <= '9' && '0' <= s[i + 2] <= '9' && '0' <= s[i + 3] <= '9'
    && '0' <= s[i + 4] <= '9'
  }

  lemma CodesAreAcceptable(s: string)
    ensures Acceptable(s) <==> IsCode(s)
  {
    LongRunIsFiveDigits(s, |s|);
    assert forall i | 0 <= i < |s| :: s[i] in s;
    forall i
      ensures DigitsAt(s, i) <==> FiveDigits(s, i)
    {
      if FiveDigits(s, i) {
        assert forall j | i <= j < i + 5 :: IsDigit(s[j]);
      }
    }
  }

  lemma UnspecifiedIsCode()
    ensures IsCode("unspecified")
  {
    UnspecifiedIsAcceptable();
    CodesAreAcceptable(UNSPECIFIED);
  }

  /** The scan over the characters, with its running digit count. */
  method SanitizeReason(reason: string) returns (r: string)
    ensures r == Sanitize(reason)
    ensures r == if IsCode(reason) then reason else "unspecified"
  {
    var digitRun, longDigitRun, i := 0, false, 0;
    while i < |reason| && !longDigitRun
      invariant i <= |reason|
      invariant digitRun == DigitRun(reason, i)
      invariant longDigitRun == LongRun(reason, i)
    {
      digitRun := if IsDigit(reason[i]) then digitRun + 1 else 0;
      longDigitRun := digitRun >= 5;
      i := i + 1;
    }
    if longDigitRun {
      LongRunPersists(reason, i);
    }
    CodesAreAcceptable(reason);
    r := if CodeShape(reason) && !longDigitRun then reason else UNSPECIFIED;
  }

  lemma UnspecifiedIsAcceptable()
    ensures Acceptable(UNSPECIFIED)
  {
    assert forall j | 0 <= j < |UNSPECIFIED| :: IsLower(UNSPECIFIED[j]);
    assert forall i :: DigitsAt(UNSPECIFIED, i) ==> IsDigit(UNSPECIFIED[i]);
    LongRunIsFiveDigits(UNSPECIFIED, |UNSPECIFIED|);
  }

  /** Sanitising leaves exactly the codes alone, and makes a code of everything else. */
  lemma SanitizeKeepsCodes(s: string)
    ensures Sanitize(s) == s <==> IsCode(s)
    ensures IsCode(Sanitize(s)) && Sanitize(Sanitize(s)) == Sanitize(s)
  {
    CodesAreAcceptable(s);
    UnspecifiedIsCode();
  }
}
