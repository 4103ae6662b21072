/**
 Amount validation and formatting (apps/api/src/payments/amount.util.ts), in units of a ten-thousandth.
 */
module Amount {
  import opened Wrappers
  import opened Numerals
  import opened Ledger
  import opened Currencies
  import Fees

  datatype AmountError = BadFormat | TooPrecise | TooLow | TooHigh

  function Decimals(c: PaymentCurrency): nat {
    if c == USD then 2 else 0
  }

  /** One minor unit: a cent, or a riel. */
  function MinorUnit(c: PaymentCurrency): nat {
    if c == USD then 100 else 10000
  }

  function Least(c: PaymentCurrency): nat {
    if c == USD then 100 else 100_0000
  }

  function Most(c: PaymentCurrency): nat {
    if c == USD then 100_000_0000 else 400_000_000_0000
  }

  /** One to fifteen digits, then optionally a point and one to four more. */
  predicate WellShaped(whole: string, fraction: Option<string>) {
    && IsNumeral(whole) && |whole| <= 15
    && (fraction.Some? ==> IsNumeral(fraction.value) && |fraction.value| <= 4)
  }

  /** The place of the first point, or the length. */
  function PointAt(s: string): (i: nat)
    ensures i <= |s|
    ensures i < |s| ==> s[i] == '.'
    ensures forall j :: 0 <= j < i ==> s[j] != '.'
  {
    if s == "" || s[0] == '.' then 0 else 1 + PointAt(s[1..])
  }

  function Whole(s: string): string {
    s[..PointAt(s)]
  }

  function Fraction(s: string): Option<string> {
    if PointAt(s) == |s| then None else Some(s[PointAt(s) + 1..])
  }

  /** The value of a well-shaped amount. */
  function Units(whole: string, fraction: Option<string>): nat
    requires WellShaped(whole, fraction)
  {
    NumeralValue(whole) * 10000 +
      match fraction
      case None => 0
      case Some(f) => NumeralValue(f) * Power10(4 - |f|)
  }

  /** How many decimal places a value needs. */
  function DecimalPlaces(units: nat): nat {
    if units % 10000 == 0 then 0
    else if units % 1000 == 0 then 1
    else if units % 100 == 0 then 2
    else if units % 10 == 0 then 3
    else 4
  }

  function Validate(amount: string, c: PaymentCurrency): Result<nat, AmountError> {
    if !WellShaped(Whole(amount), Fraction(amount)) then Err(BadFormat) else
    var units := Units(Whole(amount), Fraction(amount));
    if DecimalPlaces(units) > Decimals(c) then Err(TooPrecise)
    else if units < Least(c) then Err(TooLow)
    else if units > Most(c) then Err(TooHigh)
    else Ok(units)
  }

  /** Fixed decimals, rounding half up. */
  function Format(units: nat, c: PaymentCurrency): string {
    var minor := (units + MinorUnit(c) / 2) / MinorUnit(c);
    if c == USD then Numeral(minor / 100) + "." + [DigitChar(minor / 10 % 10), DigitChar(minor % 10)]
    else Numeral(minor)
  }

  /** Validation lets through exactly the well-shaped amounts of whole minor units within the bounds. */
  lemma {:induction false} AcceptedIff(amount: string, c: PaymentCurrency, units: nat)
    ensures Validate(amount, c) == Ok(units) <==>
      && WellShaped(Whole(amount), Fraction(amount))
      && units == Units(Whole(amount), Fraction(amount))
      && units % MinorUnit(c) == 0
      && Least(c) <= units <= Most(c)
  {
    assert units % 10000 == 0 ==> units % 100 == 0;
    assert units % 1000 == 0 ==> units % 100 == 0;
  }

  lemma {:induction false} PointAfter(whole: string, rest: string)
    requires AllDigits(whole)
    ensures PointAt(whole + "." + rest) == |whole|
    ensures PointAt(whole) == |whole|
  {
    var s := whole + "." + rest;
    assert s[|whole|] == '.';
    assert forall j :: 0 <= j < |whole| ==> s[j] == whole[j];
  }

  lemma {:induction false} TwoDigits(tens: nat, ones: nat)
    requires tens < 10 && ones < 10
    ensures var f := [DigitChar(tens), DigitChar(ones)];
      AllDigits(f) && NumeralValue(f) == 10 * tens + ones
  {
    NumeralSnoc("", tens);
    assert "" + [DigitChar(tens)] == [DigitChar(tens)];
    NumeralSnoc([DigitChar(tens)], ones);
    assert [DigitChar(tens)] + [DigitChar(ones)] == [DigitChar(tens), DigitChar(ones)];
  }

  lemma {:induction false} NineDigits(n: nat)
    requires n < 1_000_000_000
    ensures IsNumeral(Numeral(n)) && NumeralValue(Numeral(n)) == n && |Numeral(n)| <= 9
  {
    NumeralRoundTrip(n);
    assert Power10(3) == 1000;
    assert Power10(6) == 1_000_000;
    assert Power10(9) == 1_000_000_000;
    DecimalWidth(n, 9);
  }

  lemma {:induction false} WithCents(whole: nat, tens: nat, ones: nat)
    requires whole < 1_000_000_000 && tens < 10 && ones < 10
    ensures var s := Numeral(whole) + "." + [DigitChar(tens), DigitChar(ones)];
      WellShaped(Whole(s), Fraction(s)) && Units(Whole(s), Fraction(s)) == whole * 10000 + (10 * tens + ones) * 100
  {
    hide Numeral, NumeralValue;
    NineDigits(whole);
    TwoDigits(tens, ones);
    var w, f := Numeral(whole), [DigitChar(tens), DigitChar(ones)];
    var s := w + "." + f;
    PointAfter(w, f);
    assert s[..|w|] == w && s[|w| + 1..] == f;
    assert Power10(2) == 100;
  }

  lemma {:induction false} WithoutPoint(n: nat)
    requires n < 1_000_000_000
    ensures var s := Numeral(n);
      WellShaped(Whole(s), Fraction(s)) && Units(Whole(s), Fraction(s)) == n * 10000
  {
    hide Numeral, NumeralValue;
    NineDigits(n);
    var s := Numeral(n);
    PointAfter(s, "");
    assert s[..|s|] == s;
  }

  lemma {:induction false} DigitSplit(n: nat)
    ensures n == n / 100 * 100 + (n / 10 % 10 * 10 + n % 10)
  {
    assert n / 10 / 10 == n / 100;
  }

  lemma {:induction false} NothingToRound(units: nat)
    ensures units % 100 == 0 ==> (units + 50) / 100 == units / 100 && units == units / 100 * 100
    ensures units % 10000 == 0 ==> (units + 5000) / 10000 == units / 10000 && units == units / 10000 * 10000
  {
  }

  lemma {:induction false} FormatShape(units: nat, c: PaymentCurrency)
    requires units % MinorUnit(c) == 0 && units <= Most(c)
    ensures var s := Format(units, c);
      WellShaped(Whole(s), Fraction(s)) && Units(Whole(s), Fraction(s)) == units
  {
    hide WellShaped, Units, Whole, Fraction, Numeral, DigitChar;
    var minor := units / MinorUnit(c);
    NothingToRound(units);
    if c == USD {
      DigitSplit(minor);
      WithCents(minor / 100, minor / 10 % 10, minor % 10);
    } else {
      WithoutPoint(minor);
    }
  }

  /** An accepted amount, formatted for output, is accepted again as the same amount. */
  lemma {:induction false} FormatRoundTrip(amount: string, c: PaymentCurrency)
    requires Validate(amount, c).Ok?
    ensures Validate(Format(Validate(amount, c).value, c), c) == Validate(amount, c)
  {
    var units := Validate(amount, c).value;
    AcceptedIff(amount, c, units);
    FormatShape(units, c);
    AcceptedIff(Format(units, c), c, units);
  }

  /**
   Every accepted riel amount can be captured at any fee rate; an accepted dollar amount exactly when its
   fee is not half a unit of the ledger.
   */
  lemma {:induction false} AcceptedAmountsAreCaptured(amount: string, c: PaymentCurrency, payment: Id, store: Id,
      bps: nat)
    requires Validate(amount, c).Ok? && bps <= 10000
    ensures var units := Validate(amount, c).value;
      Fees.PostCaptured([], payment, store, c, units, bps).1 ==
        if c == USD && units / 100 * bps % 100 == 50 then Unbalanced else Posted
  {
    var units := Validate(amount, c).value;
    AcceptedIff(amount, c, units);
    if c == USD {
      assert units == units / 100 * 100;
      Fees.CaptureAcceptedPerCurrency(payment, store, 1, units / 100, bps);
    } else {
      assert units == units / 10000 * 10000;
      Fees.CaptureAcceptedPerCurrency(payment, store, units / 10000, 1, bps);
    }
  }

  // ------------------------------------------------------------ in full

  /** A decimal text: one to fifteen digits, and after a point one to four more. */
  predicate Spells(amount: string, whole: string, fraction: Option<string>) {
    && amount == whole + (if fraction.None? then "" else "." + fraction.value)
    && AllDigits(whole) && 1 <= |whole| <= 15
    && (fraction.Some? ==> AllDigits(fraction.value) && 1 <= |fraction.value| <= 4)
  }

  /** What it is worth, in ten-thousandths. */
  function Worth(whole: string, fraction: Option<string>): nat
    requires AllDigits(whole) && (fraction.Some? ==> AllDigits(fraction.value))
  {
    if fraction.None? then NumeralValue(whole) * 10000
    else
      var place := match |fraction.value|
        case 1 => 1000
        case 2 => 100
        case 3 => 10
        case _ => 1;
      NumeralValue(whole) * 10000 + NumeralValue(fraction.value) * place
  }

  /** A text has at most one such reading, the one the code takes. */
  lemma {:induction false} SpellingIsRead(amount: string, whole: string, fraction: Option<string>)
    requires Spells(amount, whole, fraction)
    ensures Whole(amount) == whole && Fraction(amount) == fraction
    ensures WellShaped(whole, fraction) && Units(whole, fraction) == Worth(whole, fraction)
  {
    if fraction.None? {
      assert amount == whole;
      PointAfter(whole, "");
    } else {
      assert amount == whole + "." + fraction.value;
      PointAfter(whole, fraction.value);
      assert amount[..|whole|] == whole && amount[|whole| + 1..] == fraction.value;
      assert Power10(0) == 1 && Power10(1) == 10 && Power10(2) == 100 && Power10(3) == 1000;
    }
  }

  /**
   The outcome of validation, for every text. One that is no decimal text is badly formatted; of the others the least
   amounts are a cent and a hundred riel, the greatest 100000 dollars and 400000000 riel, and the finest steps a cent
   and a riel.
   */
  lemma {:induction false} ValidationOutcome(amount: string, c: PaymentCurrency)
    ensures Validate(amount, c) == Err(BadFormat) <==> forall w, f :: !Spells(amount, w, f)
    ensures forall w, f :: Spells(amount, w, f) ==>
      var units := Worth(w, f);
      var (step, least, most) := if c == USD then (100, 100, 1_000_000_000) else (10000, 1_000_000, 4_000_000_000_000);
      && (Validate(amount, c) == Err(TooPrecise) <==> units % step != 0)
      && (Validate(amount, c) == Err(TooLow) <==> units % step == 0 && units < least)
      && (Validate(amount, c) == Err(TooHigh) <==> units % step == 0 && units > most)
      && (Validate(amount, c) == Ok(units) <==> units % step == 0 && least <= units <= most)
  {
    if WellShaped(Whole(amount), Fraction(amount)) {
      assert PointAt(amount) < |amount| ==> amount[..PointAt(amount)] + "." + amount[PointAt(amount) + 1..] == amount;
      assert Spells(amount, Whole(amount), Fraction(amount));
      PlacesIff(Units(Whole(amount), Fraction(amount)));
    }
    forall w, f | Spells(amount, w, f)
      ensures Whole(amount) == w && Fraction(amount) == f && WellShaped(w, f) && Units(w, f) == Worth(w, f)
    {
      SpellingIsRead(amount, w, f);
    }
    hide Spells, WellShaped, Units, Worth, Whole, Fraction, DecimalPlaces;
  }

  lemma {:induction false} PlacesIff(units: nat)
    ensures DecimalPlaces(units) > 2 <==> units % 100 != 0
    ensures DecimalPlaces(units) > 0 <==> units % 10000 != 0
  {
    assert units % 10000 == 0 ==> units % 100 == 0;
    assert units % 1000 == 0 ==> units % 100 == 0;
  }

  /** Output has two decimals for dollars and none for riel, rounded to the nearest, a half upwards. */
  lemma {:induction false} FormatRounds(units: nat, c: PaymentCurrency)
    ensures c == USD ==>
      exists cents: nat ::
        && -50 < cents * 100 - units <= 50
        && Format(units, c) == Numeral(cents / 100) + "." + [DigitChar(cents / 10 % 10), DigitChar(cents % 10)]
    ensures c == KHR ==> exists riel: nat :: -5000 < riel * 10000 - units <= 5000 && Format(units, c) == Numeral(riel)
  {
    if c == USD {
      var cents := (units + 50) / 100;
      assert -50 < cents * 100 - units <= 50;
      assert Format(units, c) == Numeral(cents / 100) + "." + [DigitChar(cents / 10 % 10), DigitChar(cents % 10)];
    } else {
      var riel := (units + 5000) / 10000;
      assert -5000 < riel * 10000 - units <= 5000 && Format(units, c) == Numeral(riel);
    }
  }
}
