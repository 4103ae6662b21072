/**
 Tag-length-value fields of EMVCo QR payloads (apps/api/src/providers/khqr.util.ts, tlv and parseTlv).

 The parser is the exact inverse of printing fields whose tags have two characters and whose values
 have at most ninety-nine.
 */
module Tlv {
  import opened Wrappers
  import opened Crc
  import opened Numerals

  datatype Field = Field(tag: Str, value: Str)

  datatype TlvError =
    | TruncatedHeader
    | BadLength(tag: Str, length: Str)
    | Overrun(tag: Str, claimed: nat, remaining: nat)

  // ------------------------------------------------------------ decimal digits

  const DIGIT_UNITS: Str := [48, 49, 50, 51, 52, 53, 54, 55, 56, 57]

  function Digit(d: nat): Unit
    requires d < 10
  {
    DIGIT_UNITS[d]
  }

  /** The value of a decimal digit, or ten for any other character. */
  function DigitValue(u: Unit): (d: nat)
    ensures d <= 10
    ensures d < 10 ==> u == Digit(d)
  {
    if u == 48 then 0 else if u == 49 then 1 else if u == 50 then 2 else if u == 51 then 3
    else if u == 52 then 4 else if u == 53 then 5 else if u == 54 then 6 else if u == 55 then 7
    else if u == 56 then 8 else if u == 57 then 9 else 10
  }

  lemma {:induction false} DigitRoundTrip(d: nat)
    requires d < 10
    ensures DigitValue(Digit(d)) == d
  {
    if d < 5 {
    } else {
    }
  }

  function Decimal(n: nat): (s: Str)
    ensures |s| == |DecimalDigits(n)|
  {
    seq(|DecimalDigits(n)|, i requires 0 <= i < |DecimalDigits(n)| => Digit(DecimalDigits(n)[i]))
  }

  /** Decimal, padded with zeros to two characters. */
  function Padded(n: nat): Str {
    var s := Decimal(n);
    if |s| < 2 then [Digit(0)] + s else s
  }

  /** Two digits: the tags of the format, and every length it can express. */
  function Two(n: nat): (s: Str)
    requires n < 100
    ensures |s| == 2
  {
    [Digit(n / 10), Digit(n % 10)]
  }

  function TwoValue(s: Str): Option<nat>
    requires |s| == 2
  {
    var a, b := DigitValue(s[0]), DigitValue(s[1]);
    if a < 10 && b < 10 then Some(10 * a + b) else None
  }

  lemma {:induction false} TwoRoundTrip(n: nat)
    requires n < 100
    ensures TwoValue(Two(n)) == Some(n)
  {
    DigitRoundTrip(n / 10);
    DigitRoundTrip(n % 10);
  }

  lemma {:induction false} TwoValueIsTwo(s: Str)
    requires |s| == 2
    ensures TwoValue(s).Some? ==> TwoValue(s).value < 100 && Two(TwoValue(s).value) == s
  {
    hide Digit, DigitValue;
    var a, b := DigitValue(s[0]), DigitValue(s[1]);
    if a < 10 && b < 10 {
      assert (10 * a + b) / 10 == a && (10 * a + b) % 10 == b;
      assert Two(10 * a + b) == [s[0], s[1]] == s;
    }
  }

  lemma {:induction false} PaddedIsTwo(n: nat)
    requires n < 100
    ensures Padded(n) == Two(n)
  {
    hide Digit;
    if n >= 10 {
      assert DecimalDigits(n / 10) == [n / 10];
      assert DecimalDigits(n) == [n / 10, n % 10];
    } else {
      assert DecimalDigits(n) == [n];
    }
  }

  // ------------------------------------------------------------ printing

  /** One field: tag, padded length, value. */
  function Print1(f: Field): Str {
    f.tag + Padded(|f.value|) + f.value
  }

  function Print(fs: seq<Field>): Str {
    if fs == [] then [] else Print1(fs[0]) + Print(fs[1..])
  }

  predicate Fits(f: Field) {
    |f.tag| == 2 && |f.value| <= 99
  }

  predicate AllFit(fs: seq<Field>) {
    forall i :: 0 <= i < |fs| ==> Fits(fs[i])
  }

  lemma {:induction false} Associative(x: Str, y: Str, z: Str)
    ensures x + (y + z) == (x + y) + z
  {
  }

  lemma {:induction false} PrintJoin(a: seq<Field>, b: seq<Field>)
    ensures Print(a + b) == Print(a) + Print(b)
  {
    hide Print1;
    if a == [] {
      assert a + b == b;
    } else {
      PrintJoin(a[1..], b);
      assert (a + b)[1..] == a[1..] + b && (a + b)[0] == a[0];
      Associative(Print1(a[0]), Print(a[1..]), Print(b));
    }
  }

  lemma {:induction false} PrintOne(f: Field)
    ensures Print([f]) == Print1(f)
  {
    assert [f][1..] == [];
  }

  // ------------------------------------------------------------ parsing

  datatype Head =
    | Cut(error: TlvError)
    | Read(field: Field, width: nat)

  /** The field at the front of a non-empty string. */
  function FirstField(s: Str): (h: Head)
    requires s != []
    ensures h.Read? ==> h.width == 4 + |h.field.value| <= |s|
  {
    if |s| < 4 then Cut(TruncatedHeader) else
    match TwoValue(s[2..4])
    case None => Cut(BadLength(s[..2], s[2..4]))
    case Some(n) =>
      if |s| < 4 + n then Cut(Overrun(s[..2], n, |s| - 4)) else Read(Field(s[..2], s[4..4 + n]), 4 + n)
  }

  function ParseFields(s: Str): Result<seq<Field>, TlvError>
    decreases |s|
  {
    if s == [] then Ok([]) else
    match FirstField(s)
    case Cut(e) => Err(e)
    case Read(f, w) => Prepend([f], ParseFields(s[w..]))
  }

  function Prepend(fs: seq<Field>, r: Result<seq<Field>, TlvError>): Result<seq<Field>, TlvError> {
    match r
    case Ok(rest) => Ok(fs + rest)
    case Err(e) => Err(e)
  }

  /** The fields as a map; a repeated tag keeps its last value. */
  function AsMap(fs: seq<Field>): map<Str, Str> {
    if fs == [] then map[] else
    var f := fs[|fs| - 1];
    AsMap(fs[..|fs| - 1])[f.tag := f.value]
  }

  function Parsed(s: Str): Result<map<Str, Str>, TlvError> {
    match ParseFields(s)
    case Ok(fs) => Ok(AsMap(fs))
    case Err(e) => Err(e)
  }

  lemma {:induction false} FirstFieldAt(s: Str, i: nat)
    requires i < |s|
    ensures FirstField(s[i..]) ==
      if i + 4 > |s| then Cut(TruncatedHeader) else
      match TwoValue(s[i + 2..i + 4])
      case None => Cut(BadLength(s[i..i + 2], s[i + 2..i + 4]))
      case Some(n) =>
        if i + 4 + n > |s| then Cut(Overrun(s[i..i + 2], n, |s| - i - 4))
        else Read(Field(s[i..i + 2], s[i + 4..i + 4 + n]), 4 + n)
  {
    var rest := s[i..];
    if i + 4 <= |s| {
      assert s[i..i + 2] == rest[..2] && s[i + 2..i + 4] == rest[2..4];
      var n := TwoValue(rest[2..4]);
      if n.Some? && i + 4 + n.value <= |s| {
        assert s[i + 4..i + 4 + n.value] == rest[4..4 + n.value];
      }
    }
  }

  lemma {:induction false} ReadOn(s: Str, i: nat, fs: seq<Field>, f: Field, w: nat)
    requires i < |s| && FirstField(s[i..]) == Read(f, w)
    ensures i + w <= |s|
    ensures Prepend(fs, ParseFields(s[i..])) == Prepend(fs + [f], ParseFields(s[i + w..]))
    ensures AsMap(fs + [f]) == AsMap(fs)[f.tag := f.value]
  {
    assert s[i..][w..] == s[i + w..];
    PrependPrepend(fs, f, ParseFields(s[i + w..]));
    assert (fs + [f])[..|fs|] == fs;
  }

  /** The parsing loop. */
  method ParseTlv(s: Str) returns (r: Result<map<Str, Str>, TlvError>)
    ensures r == Parsed(s)
  {
    hide FirstField, TwoValue, AsMap;
    var out: map<Str, Str> := map[];
    var i := 0;
    ghost var fs: seq<Field> := [];
    assert s[0..] == s;
    PrependNothing(ParseFields(s));
    NoFields();
    while i < |s|
      invariant i <= |s|
      invariant out == AsMap(fs)
      invariant ParseFields(s) == Prepend(fs, ParseFields(s[i..]))
    {
      FirstFieldAt(s, i);
      if i + 4 > |s| {
        return Err(TruncatedHeader);
      }
      var tag := s[i..i + 2];
      var lenRaw := s[i + 2..i + 4];
      var len := TwoValue(lenRaw);
      if len == None {
        return Err(BadLength(tag, lenRaw));
      }
      if i + 4 + len.value > |s| {
        return Err(Overrun(tag, len.value, |s| - i - 4));
      }
      var value := s[i + 4..i + 4 + len.value];
      ReadOn(s, i, fs, Field(tag, value), 4 + len.value);
      fs := fs + [Field(tag, value)];
      out := out[tag := value];
      i := i + 4 + len.value;
    }
    assert s[i..] == [];
    assert fs + [] == fs;
    return Ok(out);
  }

  lemma {:induction false} NoFields()
    ensures AsMap([]) == map[]
  {
  }

  lemma {:induction false} PrependPrepend(fs: seq<Field>, f: Field, r: Result<seq<Field>, TlvError>)
    ensures Prepend(fs, Prepend([f], r)) == Prepend(fs + [f], r)
  {
    if r.Ok? {
      assert fs + ([f] + r.value) == (fs + [f]) + r.value;
    }
  }

  lemma {:induction false} PrependNothing(r: Result<seq<Field>, TlvError>)
    ensures Prepend([], r) == r
  {
    if r.Ok? {
      assert [] + r.value == r.value;
    }
  }

  // ------------------------------------------------------------ inverses

  lemma {:induction false} FirstOfPrinted(f: Field, rest: Str)
    requires Fits(f)
    ensures Print1(f) + rest != [] && FirstField(Print1(f) + rest) == Read(f, 4 + |f.value|)
    ensures (Print1(f) + rest)[4 + |f.value|..] == rest
  {
    PaddedIsTwo(|f.value|);
    TwoRoundTrip(|f.value|);
    var s := Print1(f) + rest;
    assert s[..2] == f.tag && s[2..4] == Two(|f.value|) && s[4..4 + |f.value|] == f.value;
  }

  /** Printed fields parse back. */
  lemma {:induction false} ParsePrint(fs: seq<Field>)
    requires AllFit(fs)
    ensures ParseFields(Print(fs)) == Ok(fs)
  {
    if fs != [] {
      ParsePrint(fs[1..]);
      FirstOfPrinted(fs[0], Print(fs[1..]));
      assert [fs[0]] + fs[1..] == fs;
    }
  }

  lemma {:induction false} FirstFieldPrints(s: Str)
    requires s != [] && FirstField(s).Read?
    ensures Fits(FirstField(s).field) && Print1(FirstField(s).field) == s[..FirstField(s).width]
  {
    var n := TwoValue(s[2..4]).value;
    TwoValueIsTwo(s[2..4]);
    PaddedIsTwo(n);
    var f := FirstField(s).field;
    assert |f.value| == n;
    assert s[..4 + n] == s[..2] + s[2..4] + s[4..4 + n];
  }

  /** Whatever parses is a print of fields that fit. */
  lemma {:induction false} PrintParse(s: Str)
    requires ParseFields(s).Ok?
    ensures AllFit(ParseFields(s).value) && Print(ParseFields(s).value) == s
    decreases |s|
  {
    hide FirstField, Print1, Fits;
    if s != [] {
      FirstFieldPrints(s);
      var f, w := FirstField(s).field, FirstField(s).width;
      PrintParse(s[w..]);
      var fs := ParseFields(s).value;
      assert fs == [f] + ParseFields(s[w..]).value;
      assert fs[0] == f && fs[1..] == ParseFields(s[w..]).value;
      assert s == s[..w] + s[w..];
    }
  }

  /** Parsing yields a list of fields exactly when they fit and the string is their print. */
  lemma {:induction false} ParsesToIff(s: Str, fs: seq<Field>)
    ensures ParseFields(s) == Ok(fs) <==> AllFit(fs) && s == Print(fs)
  {
    if AllFit(fs) {
      ParsePrint(fs);
    }
    if ParseFields(s) == Ok(fs) {
      PrintParse(s);
    }
  }
}
