/** Cents printed and read back: the decimal checker against the printer. */
module Amounts {
  import opened Wrappers
  import opened Text
  import opened Pacs008

  datatype DecimalFacets = DecimalFacets(isZero: bool, fractionDigits: nat, totalDigits: nat)

  /** The ActiveCurrencyAndAmount facets: unsigned, at most 18 digits, 5 of them fractional. */
  function ParseDecimal(s: string): Option<DecimalFacets> {
    var split := SplitOnce(s, '.');
    var (whole, fraction) := if split.Some? then split.value else (s, "");
    if whole == "" && fraction == "" then None
    else if !AllDigits(whole) || !AllDigits(fraction) then None
    else if |whole| + |fraction| > 18 || |fraction| > 5 then None
    else Some(DecimalFacets(forall i | 0 <= i < |s| :: s[i] == '0' || s[i] == '.', |fraction|,
                            |whole| + |fraction|))
  }

  /** The cents a two-decimal amount denotes. */
  function CentsOf(s: string): Option<nat> {
    var split := SplitOnce(s, '.');
    if split.Some? && AllDigits(split.value.0) && AllDigits(split.value.1) && |split.value.1| == 2
    then Some(100 * Value(split.value.0) + Value(split.value.1))
    else None
  }

  function Fraction(cents: nat): (f: string)
    ensures AllDigits(f) && |f| == 2
  {
    [DigitChar(cents % 100 / 10), DigitChar(cents % 10)]
  }

  lemma FractionDenotes(cents: nat)
    ensures Value(Fraction(cents)) == cents % 100
  {
    var f := Fraction(cents);
    assert f[..1] == [f[0]];
    assert f[..1][..0] == [];
    assert Value(f[..1]) == DigitValue(f[0]);
  }

  lemma FormattedParts(cents: nat)
    ensures SplitOnce(FormatCents(cents), '.') == Some((Decimal(cents / 100), Fraction(cents)))
  {
    assert FormatCents(cents) == Decimal(cents / 100) + ['.'] + Fraction(cents);
    SplitAtFirst(Decimal(cents / 100), '.', Fraction(cents));
  }

  /** Reading a printed amount gives the cents back. */
  lemma CentsRoundTrip(cents: nat)
    ensures CentsOf(FormatCents(cents)) == Some(cents)
  {
    FormattedParts(cents);
    DecimalDenotes(cents / 100);
    FractionDenotes(cents);
  }

  lemma {:induction false} ZerosDenoteZero(s: string)
    requires AllDigits(s)
    ensures Value(s) == 0 <==> forall i | 0 <= i < |s| :: s[i] == '0'
  {
    if s != [] {
      ZerosDenoteZero(s[..|s| - 1]);
      var last := s[|s| - 1];
      assert forall i | 0 <= i < |s| - 1 :: s[..|s| - 1][i] == s[i];
      if Value(s) == 0 {
        assert DigitValue(last) == 0 && last == '0';
      }
    }
  }

  lemma ZeroAmount(cents: nat)
    ensures (forall i | 0 <= i < |FormatCents(cents)| ::
               FormatCents(cents)[i] == '0' || FormatCents(cents)[i] == '.') <==> cents == 0
  {
    var whole, fraction, s := Decimal(cents / 100), Fraction(cents), FormatCents(cents);
    DecimalDenotes(cents / 100);
    FractionDenotes(cents);
    ZerosDenoteZero(whole);
    ZerosDenoteZero(fraction);
    assert s == whole + ['.'] + fraction;
    if forall i | 0 <= i < |s| :: s[i] == '0' || s[i] == '.' {
      forall i | 0 <= i < |whole|
        ensures whole[i] == '0'
      {
        assert s[i] == whole[i];
      }
      forall i | 0 <= i < |fraction|
        ensures fraction[i] == '0'
      {
        assert s[|whole| + 1 + i] == fraction[i];
      }
    }
  }

  /** The range of amounts FedNow accepts: one cent up to fourteen digits, leading zeros counted. */
  predicate AmountInRange(cents: nat) { 1 <= cents <= 99_999_999_999_999 }

  /** The three facet checks together accept exactly the amounts in range. */
  lemma FacetsOfCents(cents: nat)
    ensures var facets := ParseDecimal(FormatCents(cents));
      facets.Some? && !facets.value.isZero && facets.value.fractionDigits <= 2 && facets.value.totalDigits <= 14
      <==> AmountInRange(cents)
  {
    FormattedParts(cents);
    ZeroAmount(cents);
    DecimalLength(cents / 100, 12);
    assert Pow10(12) == 1_000_000_000_000;
  }

  lemma SuffixReadsCents(cents: nat, trigger: nat)
    requires trigger < 100
    ensures EndsWith(FormatCents(cents), ['.', DigitChar(trigger / 10), DigitChar(trigger % 10)])
       <==> cents % 100 == trigger
  {
    var s, suffix := FormatCents(cents), ['.', DigitChar(trigger / 10), DigitChar(trigger % 10)];
    assert s[|s| - 3..] == ['.', DigitChar(cents % 100 / 10), DigitChar(cents % 10)];
    if s[|s| - 3..] == suffix {
      assert DigitChar(cents % 100 / 10) == suffix[1] && DigitChar(cents % 10) == suffix[2];
      assert cents % 100 / 10 == trigger / 10 && cents % 10 == trigger % 10;
    }
  }
}
