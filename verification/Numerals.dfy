/** Decimal numerals as text. */
module Numerals {

  predicate AllDigits(s: string) {
    forall i :: 0 <= i < |s| ==> '0' <= s[i] <= '9'
  }

  /** One or more decimal digits and nothing else. */
  predicate IsNumeral(s: string) {
    s != "" && AllDigits(s)
  }

  function NumeralValue(s: string): nat
    requires AllDigits(s)
  {
    if s == "" then 0 else 10 * NumeralValue(s[..|s| - 1]) + (s[|s| - 1] as int - '0' as int)
  }

  function DigitChar(d: nat): char
    requires d < 10
  {
    ('0' as int + d) as char
  }

  /** The decimal digits of a number, without leading zeros. */
  function DecimalDigits(n: nat): (ds: seq<nat>)
    ensures ds != []
    ensures forall i :: 0 <= i < |ds| ==> ds[i] < 10
  {
    if n < 10 then [n] else DecimalDigits(n / 10) + [n % 10]
  }

  /** The numeral of a number. */
  function Numeral(n: nat): string {
    seq(|DecimalDigits(n)|, i requires 0 <= i < |DecimalDigits(n)| => DigitChar(DecimalDigits(n)[i]))
  }

  lemma {:induction false} NumeralUnfolds(n: nat)
    ensures Numeral(n) == if n < 10 then [DigitChar(n)] else Numeral(n / 10) + [DigitChar(n % 10)]
  {
  }

  lemma {:induction false} NumeralSnoc(s: string, d: nat)
    requires AllDigits(s) && d < 10
    ensures AllDigits(s + [DigitChar(d)]) && NumeralValue(s + [DigitChar(d)]) == 10 * NumeralValue(s) + d
  {
    assert (s + [DigitChar(d)])[..|s|] == s;
  }

  lemma {:induction false} NumeralRoundTrip(n: nat)
    ensures IsNumeral(Numeral(n)) && NumeralValue(Numeral(n)) == n
  {
    NumeralUnfolds(n);
    if n < 10 {
      NumeralSnoc("", n);
      assert "" + [DigitChar(n)] == [DigitChar(n)];
    } else {
      NumeralRoundTrip(n / 10);
      NumeralSnoc(Numeral(n / 10), n % 10);
    }
  }

  function Power10(k: nat): nat {
    if k == 0 then 1 else 10 * Power10(k - 1)
  }

  lemma {:induction false} DecimalWidth(n: nat, k: nat)
    requires k >= 1 && n < Power10(k)
    ensures |DecimalDigits(n)| <= k
  {
    if n >= 10 {
      assert Power10(1) == 10;
      DecimalWidth(n / 10, k - 1);
    }
  }
}
