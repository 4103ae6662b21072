/**
 Base32 without padding (packages/security/src/totp.ts, base32Encode and base32Decode), section 6 of
 RFC 4648.

 The reference reads a byte sequence as one big number: its text is that number's base-32 digits, shifted
 left to a whole digit. The loops work on a 32-bit accumulator that is never masked and overflows; its bit
 pattern is kept here as a number modulo two to the thirty-second.
 */
module Base32 {

  type Byte = b: nat | b < 256

  const ALPHABET := "ABCDEFGHIJKLMNOPQRSTUVWXYZ234567"

  // ------------------------------------------------------------ numbers

  function Pow2(k: nat): (p: nat)
    ensures p > 0
  {
    if k == 0 then 1 else 2 * Pow2(k - 1)
  }

  function Quot(x: nat, m: nat): nat
    requires m > 0
  {
    x / m
  }

  function Rem(x: nat, m: nat): (r: nat)
    requires m > 0
    ensures r < m
  {
    x % m
  }

  /** The number that digits spell in a base, most significant first. */
  function Num(base: nat, digits: seq<nat>): nat {
    if digits == [] then 0 else Num(base, digits[..|digits| - 1]) * base + digits[|digits| - 1]
  }

  /** The last n digits of a number in a base. */
  function ToDigits(x: nat, base: nat, n: nat): (d: seq<nat>)
    requires base > 0
    ensures |d| == n
    ensures forall i :: 0 <= i < n ==> d[i] < base
    decreases n
  {
    if n == 0 then [] else ToDigits(Quot(x, base), base, n - 1) + [Rem(x, base)]
  }

  // ------------------------------------------------------------ the reference

  /** The text length: enough five-bit groups for n bytes. */
  function TextLength(n: nat): nat {
    (8 * n + 4) / 5
  }

  function Char(d: nat): char
    requires d < 32
  {
    ALPHABET[d]
  }

  function Index(c: char): int {
    if 'A' <= c <= 'Z' then c as int - 'A' as int
    else if '2' <= c <= '7' then c as int - '2' as int + 26
    else -1
  }

  function Text(digits: seq<nat>): string
    requires forall i :: 0 <= i < |digits| ==> digits[i] < 32
  {
    seq(|digits|, i requires 0 <= i < |digits| => Char(digits[i]))
  }

  /** Upper case, on ASCII letters. */
  function Upper(c: char): char {
    if 'a' <= c <= 'z' then (c as int - 32) as char else c
  }

  /** The digits a text holds; characters outside the alphabet are skipped. */
  function Values(s: string): (d: seq<nat>)
    ensures forall i :: 0 <= i < |d| ==> d[i] < 32
  {
    if s == "" then [] else
    var i := Index(Upper(s[|s| - 1]));
    if i >= 0 then Values(s[..|s| - 1]) + [i] else Values(s[..|s| - 1])
  }

  function EncodedDigits(buf: seq<Byte>): (d: seq<nat>)
    ensures |d| == TextLength(|buf|)
    ensures forall i :: 0 <= i < |d| ==> d[i] < 32
  {
    var k := TextLength(|buf|);
    ToDigits(Num(256, buf) * Pow2(5 * k - 8 * |buf|), 32, k)
  }

  function Encode(buf: seq<Byte>): string {
    Text(EncodedDigits(buf))
  }

  function DecodedDigits(d: seq<nat>): seq<Byte> {
    var n := 5 * |d| / 8;
    ToDigits(Quot(Num(32, d), Pow2(5 * |d| - 8 * n)), 256, n)
  }

  function Decode(s: string): seq<Byte> {
    DecodedDigits(Values(s))
  }

  // ------------------------------------------------------------ arithmetic

  lemma {:induction false} Pow2Add(a: nat, b: nat)
    ensures Pow2(a + b) == Pow2(a) * Pow2(b)
  {
    if b > 0 {
      Pow2Add(a, b - 1);
      assert Pow2(a + b) == 2 * Pow2(a + (b - 1));
    }
  }

  lemma {:induction false} Product(d: int, m: int)
    requires m > 0
    ensures d >= 1 ==> d * m >= m
    ensures d <= -1 ==> d * m <= -m
  {
    if d >= 1 {
      assert (d - 1) * m >= 0;
    } else if d <= -1 {
      assert (-1 - d) * m >= 0;
    }
  }

  lemma {:induction false} Euclid(x: nat, m: nat)
    requires m > 0
    ensures x == Quot(x, m) * m + Rem(x, m)
  {
  }

  lemma {:induction false} DivModUnique(x: nat, m: nat, q: nat, r: nat)
    requires m > 0 && x == q * m + r && r < m
    ensures Quot(x, m) == q && Rem(x, m) == r
  {
    Euclid(x, m);
    hide Quot, Rem;
    var d := Quot(x, m) - q;
    assert d * m == r - Rem(x, m);
    Product(d, m);
  }

  lemma {:induction false} QuotBelow(x: nat, m: nat, b: nat)
    requires m > 0 && x < b * m
    ensures Quot(x, m) < b
  {
    Euclid(x, m);
    hide Quot, Rem;
    var d := Quot(x, m) - b;
    assert d * m < 0;
    Product(d, m);
  }

  lemma {:induction false} ProductBelow(a: nat, k: nat, r: nat, m: nat)
    requires a < k && r < m
    ensures a * m + r < k * m
  {
    Product(k - a, m);
    assert (k - a) * m == k * m - a * m;
  }

  /** Splitting a remainder at a smaller one. */
  lemma {:induction false} SplitMod(x: nat, m: nat, k: nat)
    requires m > 0 && k > 0
    ensures k * m > 0 && Rem(x, k * m) == Rem(Quot(x, m), k) * m + Rem(x, m)
  {
    Product(k, m);
    var y := Quot(x, m);
    Euclid(x, m);
    Euclid(y, k);
    hide Quot, Rem;
    var q, r := Quot(y, k), Rem(y, k);
    assert x == (q * k + r) * m + Rem(x, m);
    Distribute(q, k, r, m);
    ProductBelow(r, k, Rem(x, m), m);
    DivModUnique(x, k * m, q, r * m + Rem(x, m));
  }

  lemma {:induction false} Distribute(q: nat, k: nat, r: nat, m: nat)
    ensures (q * k + r) * m == q * (k * m) + r * m
  {
  }

  /** Overflow is invisible below the top: the remainder by a smaller power of two is unchanged. */
  lemma {:induction false} WrapKeepsLow(x: nat, k: nat)
    requires k <= 32
    ensures Rem(Rem(x, Pow2(32)), Pow2(k)) == Rem(x, Pow2(k))
  {
    hide Quot, Rem, Pow2;
    var m := Pow2(k);
    Pow2Add(32 - k, k);
    SplitMod(x, m, Pow2(32 - k));
    DivModUnique(Rem(x, Pow2(32)), m, Rem(Quot(x, m), Pow2(32 - k)), Rem(x, m));
  }

  lemma {:induction false} NumSnoc(base: nat, digits: seq<nat>, d: nat)
    ensures Num(base, digits + [d]) == Num(base, digits) * base + d
  {
    assert (digits + [d])[..|digits|] == digits;
  }

  /** Digits within a base are determined by their number and how many there are. */
  lemma {:induction false} DigitsOfNum(base: nat, digits: seq<nat>)
    requires base > 0 && forall i :: 0 <= i < |digits| ==> digits[i] < base
    ensures ToDigits(Num(base, digits), base, |digits|) == digits
  {
    hide Quot, Rem;
    if digits != [] {
      var n := |digits| - 1;
      DigitsOfNum(base, digits[..n]);
      DivModUnique(Num(base, digits), base, Num(base, digits[..n]), digits[n]);
    }
  }

  lemma {:induction false} NumOfDigits(x: nat, base: nat, n: nat)
    requires base > 0 && x < Power(base, n)
    ensures Num(base, ToDigits(x, base, n)) == x
    decreases n
  {
    hide Quot, Rem;
    if n > 0 {
      QuotBelow(x, base, Power(base, n - 1));
      NumOfDigits(Quot(x, base), base, n - 1);
      NumSnoc(base, ToDigits(Quot(x, base), base, n - 1), Rem(x, base));
      Euclid(x, base);
    }
  }

  function Power(base: nat, n: nat): nat {
    if n == 0 then 1 else Power(base, n - 1) * base
  }

  lemma {:induction false} NumIsBelow(base: nat, digits: seq<nat>)
    requires forall i :: 0 <= i < |digits| ==> digits[i] < base
    ensures Num(base, digits) < Power(base, |digits|)
  {
    if digits != [] {
      var n := |digits| - 1;
      NumIsBelow(base, digits[..n]);
      ProductBelow(Num(base, digits[..n]), Power(base, n), digits[n], base);
    }
  }

  lemma {:induction false} PowerIsPow2(base: nat, k: nat, n: nat)
    requires base == Pow2(k)
    ensures Power(base, n) == Pow2(k * n)
  {
    if n > 0 {
      PowerIsPow2(base, k, n - 1);
      Pow2Add(k * (n - 1), k);
      assert k * n == k * (n - 1) + k;
    } else {
      assert k * n == 0;
    }
  }

  // ------------------------------------------------------------ the loops

  /** Shift a byte in: the accumulator wraps at 32 bits. */
  function ShiftIn(value: nat, width: nat, piece: nat): nat {
    Rem(value * Pow2(width) + piece, Pow2(32))
  }

  /** The digits so far and the bits left over spell the number read so far. */
  ghost predicate Carries(done: nat, value: nat, bits: nat, read: nat) {
    read == done * Pow2(bits) + Rem(value, Pow2(bits))
  }

  lemma {:induction false} ShiftInCarries(done: nat, value: nat, bits: nat, read: nat, width: nat, piece: nat)
    requires Carries(done, value, bits, read) && bits + width <= 32 && piece < Pow2(width)
    ensures Carries(done, ShiftIn(value, width, piece), bits + width, read * Pow2(width) + piece)
  {
    hide Quot, Rem, Pow2;
    var w, m := Pow2(width), Pow2(bits);
    var x := value * w + piece;
    WrapKeepsLow(x, bits + width);
    Pow2Add(bits, width);
    DivModUnique(x, w, value, piece);
    SplitMod(x, w, m);
    Distribute(done, m, Rem(value, m), w);
  }

  lemma {:induction false} TakeOutCarries(done: nat, value: nat, bits: nat, read: nat, width: nat)
    requires Carries(done, value, bits, read) && width <= bits
    ensures var d := Rem(Quot(value, Pow2(bits - width)), Pow2(width));
      Carries(done * Pow2(width) + d, value, bits - width, read)
  {
    hide Quot, Rem, Pow2;
    var m, w := Pow2(bits - width), Pow2(width);
    Pow2Add(width, bits - width);
    SplitMod(value, m, w);
    Distribute(done, w, Rem(Quot(value, m), w), m);
  }

  lemma {:induction false} SmallPowers()
    ensures Pow2(0) == 1 && Pow2(5) == 32 && Pow2(8) == 256
  {
    assert Pow2(2) == 4;
    assert Pow2(5) == 32;
    assert Pow2(8) == 8 * Pow2(5);
  }

  /** One digit more on the encoder's side. */
  lemma {:induction false} DigitOut(digits: seq<nat>, value: nat, bits: nat, read: nat)
    requires bits >= 5 && Carries(Num(32, digits), value, bits, read)
    ensures Carries(Num(32, digits + [Rem(Quot(value, Pow2(bits - 5)), 32)]), value, bits - 5, read)
  {
    hide Pow2, Num, Quot, Rem, Carries;
    SmallPowers();
    TakeOutCarries(Num(32, digits), value, bits, read, 5);
    NumSnoc(32, digits, Rem(Quot(value, Pow2(bits - 5)), 32));
  }

  lemma {:induction false} ByteIn(done: nat, value: nat, bits: nat, buf: seq<Byte>, i: nat)
    requires i < |buf| && bits < 5 && Carries(done, value, bits, Num(256, buf[..i]))
    ensures Carries(done, ShiftIn(value, 8, buf[i]), bits + 8, Num(256, buf[..i + 1]))
  {
    hide Pow2, Num, Carries;
    SmallPowers();
    ShiftInCarries(done, value, bits, Num(256, buf[..i]), 8, buf[i]);
    NumSnoc(256, buf[..i], buf[i]);
    assert buf[..i + 1] == buf[..i] + [buf[i]];
  }

  predicate Base32Digits(digits: seq<nat>) {
    forall j :: 0 <= j < |digits| ==> digits[j] < 32
  }

  method Base32Encode(buf: seq<Byte>) returns (out: string)
    ensures out == Encode(buf)
  {
    hide Pow2, ToDigits, Num, Quot, Rem, Carries, ShiftIn, Text;
    var bits: nat, value: nat := 0, 0;
    out := "";
    ghost var digits: seq<nat> := [];
    StartCarries();
    assert buf[..0] == [];
    NoText();
    for i := 0 to |buf|
      invariant bits < 5 && 5 * |digits| + bits == 8 * i
      invariant Base32Digits(digits) && out == Text(digits)
      invariant Carries(Num(32, digits), value, bits, Num(256, buf[..i]))
    {
      ByteIn(Num(32, digits), value, bits, buf, i);
      value := ShiftIn(value, 8, buf[i]);
      bits := bits + 8;
      while bits >= 5
        invariant 5 * |digits| + bits == 8 * (i + 1)
        invariant Base32Digits(digits) && out == Text(digits)
        invariant Carries(Num(32, digits), value, bits, Num(256, buf[..i + 1]))
      {
        DigitOut(digits, value, bits, Num(256, buf[..i + 1]));
        var d := Rem(Quot(value, Pow2(bits - 5)), 32);
        TextSnoc(digits, d);
        out, digits := out + [Char(d)], digits + [d];
        bits := bits - 5;
      }
    }
    assert buf[..|buf|] == buf;
    if bits > 0 {
      var d := Rem(value * Pow2(5 - bits), 32);
      LastDigit(Num(32, digits), value, bits, Num(256, buf));
      NumSnoc(32, digits, d);
      TextSnoc(digits, d);
      out, digits := out + [Char(d)], digits + [d];
      EncodeDone(buf, digits, 5 - bits);
    } else {
      NothingCarried(Num(32, digits), value, Num(256, buf));
      EncodeDone(buf, digits, 0);
    }
  }

  lemma {:induction false} NoText()
    ensures Text([]) == ""
  {
  }

  lemma {:induction false} NothingCarried(done: nat, value: nat, read: nat)
    requires Carries(done, value, 0, read)
    ensures done == read * Pow2(0)
  {
  }

  lemma {:induction false} EncodeDone(buf: seq<Byte>, digits: seq<nat>, pad: nat)
    requires Base32Digits(digits) && pad < 5 && 5 * |digits| == 8 * |buf| + pad
    requires Num(32, digits) == Num(256, buf) * Pow2(pad)
    ensures digits == EncodedDigits(buf)
  {
    hide Pow2, Num, ToDigits;
    assert |digits| == TextLength(|buf|);
    DigitsOfNum(32, digits);
  }

  lemma {:induction false} TextSnoc(digits: seq<nat>, d: nat)
    requires d < 32 && forall j :: 0 <= j < |digits| ==> digits[j] < 32
    ensures Text(digits + [d]) == Text(digits) + [Char(d)]
  {
  }

  /** The last group is filled up with zero bits. */
  lemma {:induction false} LastDigit(done: nat, value: nat, bits: nat, read: nat)
    requires Carries(done, value, bits, read) && 0 < bits < 5
    ensures done * 32 + Rem(value * Pow2(5 - bits), 32) == read * Pow2(5 - bits)
  {
    SmallPowers();
    hide Quot, Rem, Pow2;
    var m, w := Pow2(bits), Pow2(5 - bits);
    Pow2Add(bits, 5 - bits);
    var x := value * w;
    DivModUnique(x, w, value, 0);
    SplitMod(x, w, m);
    Distribute(done, m, Rem(value, m), w);
  }

  /** Drop the padding at the end. */
  function StripPadding(s: string): string {
    if s != "" && s[|s| - 1] == '=' then StripPadding(s[..|s| - 1]) else s
  }

  predicate IsSpace(c: char) {
    || c == ' ' || '\t' <= c <= '\r' || c == '\U{00A0}' || c == '\U{1680}' || '\U{2000}' <= c <= '\U{200A}'
    || c == '\U{2028}' || c == '\U{2029}' || c == '\U{202F}' || c == '\U{205F}' || c == '\U{3000}' || c == '\U{FEFF}'
  }

  /** Upper case, without white space. */
  function Squeeze(s: string): string {
    if s == "" then "" else
    var c := s[|s| - 1];
    if IsSpace(c) then Squeeze(s[..|s| - 1]) else Squeeze(s[..|s| - 1]) + [Upper(c)]
  }

  lemma {:induction false} StrippingIsHarmless(s: string)
    ensures Values(StripPadding(s)) == Values(s)
  {
    if s != "" && s[|s| - 1] == '=' {
      StrippingIsHarmless(s[..|s| - 1]);
    }
  }

  lemma {:induction false} SqueezingIsHarmless(s: string)
    ensures Values(Squeeze(s)) == Values(s)
  {
    if s != "" {
      var c := s[|s| - 1];
      SqueezingIsHarmless(s[..|s| - 1]);
      if !IsSpace(c) {
        var front := Squeeze(s[..|s| - 1]);
        assert (front + [Upper(c)])[..|front|] == front;
        assert Upper(Upper(c)) == Upper(c);
      }
    }
  }

  lemma {:induction false} ValuesSnoc(s: string, i: nat)
    requires i < |s| && Upper(s[i]) == s[i]
    ensures Values(s[..i + 1]) == if Index(s[i]) == -1 then Values(s[..i]) else Values(s[..i]) + [Index(s[i])]
    ensures Index(s[i]) >= -1
  {
    assert s[..i + 1][..i] == s[..i];
  }

  method Base32Decode(input: string) returns (out: seq<Byte>)
    ensures out == Decode(input)
  {
    hide Pow2, ToDigits, Num, Quot, Rem, Values, Index, Squeeze, StripPadding, Carries, ShiftIn;
    SmallPowers();
    var clean := Squeeze(StripPadding(input));
    StrippingIsHarmless(input);
    SqueezingIsHarmless(StripPadding(input));
    var bits: nat, value: nat := 0, 0;
    out := [];
    ghost var digits: seq<nat> := [];
    StartCarries();
    assert clean[..0] == "";
    NoValues();
    for i := 0 to |clean|
      invariant bits < 8 && 8 * |out| + bits == 5 * |digits|
      invariant digits == Values(clean[..i])
      invariant Carries(Num(256, out), value, bits, Num(32, digits))
    {
      SqueezedIsUpper(StripPadding(input), i);
      ValuesSnoc(clean, i);
      var idx := Index(clean[i]);
      if idx == -1 {
        continue;
      }
      IndexBelow(clean[i]);
      ShiftInCarries(Num(256, out), value, bits, Num(32, digits), 5, idx);
      NumSnoc(32, digits, idx);
      digits := digits + [idx];
      value := ShiftIn(value, 5, idx);
      bits := bits + 5;
      if bits >= 8 {
        TakeOutCarries(Num(256, out), value, bits, Num(32, digits), 8);
        var b := Rem(Quot(value, Pow2(bits - 8)), 256);
        NumSnoc(256, out, b);
        out := out + [b];
        bits := bits - 8;
      }
    }
    assert clean[..|clean|] == clean;
    DecodeDone(digits, out, value, bits);
  }

  lemma {:induction false} StartCarries()
    ensures Carries(Num(256, []), 0, 0, Num(32, []))
    ensures Carries(Num(32, []), 0, 0, Num(256, []))
  {
  }

  lemma {:induction false} NoValues()
    ensures Values("") == []
  {
  }

  lemma {:induction false} IndexBelow(c: char)
    ensures Index(c) < 32
  {
  }

  lemma {:induction false} DecodeDone(digits: seq<nat>, out: seq<Byte>, value: nat, bits: nat)
    requires bits < 8 && 8 * |out| + bits == 5 * |digits|
    requires Carries(Num(256, out), value, bits, Num(32, digits))
    ensures out == DecodedDigits(digits)
  {
    hide Pow2, ToDigits, Num, Quot, Rem;
    assert 5 * |digits| / 8 == |out|;
    DivModUnique(Num(32, digits), Pow2(bits), Num(256, out), Rem(value, Pow2(bits)));
    DigitsOfNum(256, out);
  }

  lemma {:induction false} SqueezedIsUpper(s: string, i: nat)
    requires i < |Squeeze(s)|
    ensures Upper(Squeeze(s)[i]) == Squeeze(s)[i]
  {
    if s != "" && i < |Squeeze(s[..|s| - 1])| {
      SqueezedIsUpper(s[..|s| - 1], i);
    }
  }

  // ------------------------------------------------------------ round trips

  lemma {:induction false} IndexOfChar(d: nat)
    requires d < 32
    ensures Index(Upper(Char(d))) == d == Index(Char(d))
  {
    assert Char(d) == if d < 26 then ('A' as int + d) as char else ('2' as int + d - 26) as char;
  }

  lemma {:induction false} ValuesOfText(digits: seq<nat>)
    requires forall i :: 0 <= i < |digits| ==> digits[i] < 32
    ensures Values(Text(digits)) == digits
  {
    if digits != [] {
      var n := |digits| - 1;
      ValuesOfText(digits[..n]);
      assert Text(digits)[..n] == Text(digits[..n]);
      IndexOfChar(digits[n]);
    }
  }

  lemma {:induction false} EncodedNum(buf: seq<Byte>)
    ensures var k := TextLength(|buf|);
      Num(32, EncodedDigits(buf)) == Num(256, buf) * Pow2(5 * k - 8 * |buf|)
  {
    hide Pow2, Num, ToDigits, TextLength;
    var n, k := |buf|, TextLength(|buf|);
    var pad := 5 * k - 8 * n;
    LengthInverse(n);
    SmallPowers();
    NumBits(buf, 256, 8);
    ShiftedBelow(Num(256, buf), 8 * n, pad);
    PowerIsPow2(32, 5, k);
    NumOfDigits(Num(256, buf) * Pow2(pad), 32, k);
  }

  lemma {:induction false} LengthInverse(n: nat)
    ensures 5 * TextLength(n) / 8 == n && 5 * TextLength(n) >= 8 * n
  {
  }

  /** Undoing the shift of the reference. */
  lemma {:induction false} ShiftBack(x: nat, pad: nat)
    ensures Quot(x * Pow2(pad), Pow2(pad)) == x && Rem(x * Pow2(pad), Pow2(pad)) == 0
  {
    hide Pow2, Quot, Rem;
    DivModUnique(x * Pow2(pad), Pow2(pad), x, 0);
  }

  lemma {:induction false} DigitsRoundTrip(buf: seq<Byte>)
    ensures DecodedDigits(EncodedDigits(buf)) == buf
  {
    hide Pow2, ToDigits, Num, Quot, Rem, TextLength, EncodedDigits;
    LengthInverse(|buf|);
    EncodedNum(buf);
    ShiftBack(Num(256, buf), 5 * TextLength(|buf|) - 8 * |buf|);
    DigitsOfNum(256, buf);
  }

  /** Round trip, for every byte sequence. */
  lemma {:induction false} DecodeEncode(buf: seq<Byte>)
    ensures Decode(Encode(buf)) == buf
    ensures |Encode(buf)| == TextLength(|buf|)
  {
    hide DecodedDigits, EncodedDigits, Values, TextLength;
    ValuesOfText(EncodedDigits(buf));
    DigitsRoundTrip(buf);
  }

  lemma {:induction false} ValuesJoin(s: string, t: string)
    ensures Values(s + t) == Values(s) + Values(t)
  {
    if t == "" {
      assert s + t == s;
    } else {
      var n := |t| - 1;
      ValuesJoin(s, t[..n]);
      assert (s + t)[..|s + t| - 1] == s + t[..n];
    }
  }

  lemma {:induction false} ValuesOfOne(c: char)
    ensures Values([c]) == if Index(Upper(c)) >= 0 then [Index(Upper(c))] else []
  {
    assert [c][..0] == "";
  }

  /** Decoding ignores characters outside the alphabet, spaces and padding among them, wherever they stand. */
  lemma {:induction false} DecodeIgnores(s: string, c: char, t: string)
    requires Index(Upper(c)) < 0
    ensures Decode(s + [c] + t) == Decode(s + t)
  {
    hide Values, DecodedDigits;
    ValuesJoin(s + [c], t);
    ValuesJoin(s, [c]);
    ValuesOfOne(c);
    assert Values(s) + [] == Values(s);
    ValuesJoin(s, t);
  }

  lemma {:induction false} SpacesAreForeign(c: char)
    requires IsSpace(c) || c == '='
    ensures Index(Upper(c)) < 0
  {
  }

  /** The same character, or the same letter in either case. */
  predicate SameLetter(a: char, b: char) {
    || a == b
    || ('a' <= a <= 'z' && b as int == a as int - 32)
    || ('a' <= b <= 'z' && a as int == b as int - 32)
  }

  /** And it ignores case. */
  lemma {:induction false} DecodeIgnoresCase(s: string, t: string)
    requires |s| == |t| && forall i :: 0 <= i < |s| ==> SameLetter(s[i], t[i])
    ensures Decode(s) == Decode(t)
  {
    hide DecodedDigits;
    SameValues(s, t);
  }

  lemma {:induction false} SameValues(s: string, t: string)
    requires |s| == |t| && forall i :: 0 <= i < |s| ==> Upper(s[i]) == Upper(t[i])
    ensures Values(s) == Values(t)
  {
    if s != "" {
      SameValues(s[..|s| - 1], t[..|t| - 1]);
    }
  }

  /** A text as the encoder writes it: alphabet only, a length some byte count needs, no stray bits at the end. */
  predicate Canonical(s: string) {
    && (forall i :: 0 <= i < |s| ==> Index(s[i]) >= 0)
    && |s| % 8 in {0, 2, 4, 5, 7}
    && Rem(Num(32, Values(s)), Pow2(5 * |s| % 8)) == 0
  }

  /** The other way round: a text survives exactly when it is canonical. */
  lemma {:induction false} EncodeDecodeIff(s: string)
    ensures Encode(Decode(s)) == s <==> Canonical(s)
  {
    if Canonical(s) {
      CanonicalSurvives(s);
    }
    if Encode(Decode(s)) == s {
      EncodingIsCanonical(Decode(s));
    }
  }

  lemma {:induction false} AllIndexed(s: string)
    requires forall i :: 0 <= i < |s| ==> Index(s[i]) >= 0
    ensures Text(Values(s)) == s
  {
    if s != "" {
      var n := |s| - 1;
      AllIndexed(s[..n]);
      assert Upper(s[n]) == s[n];
      TextSnoc(Values(s[..n]), Index(s[n]));
      CharOfIndex(s[n]);
      assert s == s[..n] + [s[n]];
    }
  }

  lemma {:induction false} CharOfIndex(c: char)
    requires Index(c) >= 0
    ensures Char(Index(c)) == c
  {
  }

  lemma {:induction false} Lengths(k: nat)
    ensures var n := 5 * k / 8;
      TextLength(n) == k <==> k % 8 in {0, 2, 4, 5, 7}
    ensures 5 * k % 8 == 5 * k - 8 * (5 * k / 8)
  {
    var q, r := k / 8, k % 8;
    assert k == 8 * q + r && 5 * k / 8 == 5 * q + 5 * r / 8;
  }

  lemma {:induction false} NumBits(d: seq<nat>, base: nat, k: nat)
    requires base == Pow2(k) && forall i :: 0 <= i < |d| ==> d[i] < base
    ensures Num(base, d) < Pow2(k * |d|)
  {
    hide Pow2, Num;
    NumIsBelow(base, d);
    PowerIsPow2(base, k, |d|);
  }

  lemma {:induction false} ShiftedBelow(x: nat, bits: nat, pad: nat)
    ensures x < Pow2(bits) ==> x * Pow2(pad) < Pow2(bits + pad)
    ensures x < Pow2(bits + pad) ==> Quot(x, Pow2(pad)) < Pow2(bits)
  {
    hide Pow2, Quot;
    Pow2Add(bits, pad);
    if x < Pow2(bits) {
      ProductBelow(x, Pow2(bits), 0, Pow2(pad));
    }
    if x < Pow2(bits + pad) {
      QuotBelow(x, Pow2(pad), Pow2(bits));
    }
  }

  lemma {:induction false} DigitsSurvive(d: seq<nat>, n: nat, pad: nat)
    requires Base32Digits(d) && n == 5 * |d| / 8 && pad == 5 * |d| - 8 * n && TextLength(n) == |d|
    requires Rem(Num(32, d), Pow2(pad)) == 0
    ensures EncodedDigits(DecodedDigits(d)) == d
  {
    hide Pow2, ToDigits, Num, Quot, Rem, TextLength;
    SmallPowers();
    NumBits(d, 32, 5);
    var x := Num(32, d);
    ShiftedBelow(x, 8 * n, pad);
    PowerIsPow2(256, 8, n);
    NumOfDigits(Quot(x, Pow2(pad)), 256, n);
    Euclid(x, Pow2(pad));
    DigitsOfNum(32, d);
  }

  lemma {:induction false} CanonicalSurvives(s: string)
    requires Canonical(s)
    ensures Encode(Decode(s)) == s
  {
    hide Pow2, Num, Rem, TextLength, Values, EncodedDigits, DecodedDigits;
    AllIndexed(s);
    var d := Values(s);
    assert |Text(d)| == |d|;
    Lengths(|d|);
    DigitsSurvive(d, 5 * |d| / 8, 5 * |d| % 8);
  }

  lemma {:induction false} EncodingIsCanonical(buf: seq<Byte>)
    ensures Canonical(Encode(buf))
  {
    hide Pow2, ToDigits, Num, Quot, Rem, TextLength, EncodedDigits, Values, Index;
    var d := EncodedDigits(buf);
    ValuesOfText(d);
    EncodedNum(buf);
    Lengths(|d|);
    LengthInverse(|buf|);
    ShiftBack(Num(256, buf), 5 * |d| - 8 * |buf|);
    forall i | 0 <= i < |d| ensures Index(Encode(buf)[i]) >= 0 {
      IndexOfChar(d[i]);
    }
  }

  // ------------------------------------------------------------ by the standard's table and vectors

  /** The alphabet of table 3 of RFC 4648: the letters, then the digits from two. */
  lemma {:induction false} AlphabetIsTable3(d: nat)
    requires d < 32
    ensures Char(d) == if d < 26 then ('A' as int + d) as char else ('2' as int + d - 26) as char
  {
    IndexOfChar(d);
  }

  lemma {:induction false} SixBytes()
    ensures Num(256, [102, 111, 111, 98, 97, 114]) == 0x666F_6F62_6172
  {
    var s: seq<Byte> := [102, 111, 111, 98, 97, 114];
    hide Num;
    assert Num(256, []) == 0 by { NoNumber(); }
    NumStep(s, 0);
    NumStep(s, 1);
    NumStep(s, 2);
    NumStep(s, 3);
    NumStep(s, 4);
    NumStep(s, 5);
    assert s[..0] == [] && s[..6] == s;
  }

  lemma {:induction false} NoNumber()
    ensures Num(256, []) == 0
  {
  }

  lemma {:induction false} NumStep(s: seq<Byte>, i: nat)
    requires i < |s|
    ensures Num(256, s[..i + 1]) == Num(256, s[..i]) * 256 + s[i]
  {
    assert s[..i + 1][..i] == s[..i];
  }

  /** The test vector of section 10 of RFC 4648 for `foobar`, without its padding. */
  lemma {:induction false} TestVector()
    ensures Encode([102, 111, 111, 98, 97, 114]) == "MZXW6YTBOI"
  {
    hide Num, Pow2, ToDigits, Text, Char;
    SixBytes();
    PadOfSix();
    TenDigits();
    var d: seq<nat> := [12, 25, 23, 22, 30, 24, 19, 1, 14, 8];
    assert EncodedDigits([102, 111, 111, 98, 97, 114]) == d;
    LettersOfVector();
  }

  lemma {:induction false} PadOfSix()
    ensures TextLength(6) == 10 && Pow2(2) == 4
  {
  }

  lemma {:induction false} LettersOfVector()
    ensures Text([12, 25, 23, 22, 30, 24, 19, 1, 14, 8]) == "MZXW6YTBOI"
  {
  }

  lemma {:induction false} OneMoreDigit(q: nat, r: nat, front: seq<nat>)
    requires r < 32 && ToDigits(q, 32, |front|) == front
    ensures ToDigits(32 * q + r, 32, |front| + 1) == front + [r]
  {
    DivModUnique(32 * q + r, 32, q, r);
    hide Quot, Rem;
  }

  lemma {:induction false} NoDigits()
    ensures ToDigits(0, 32, 0) == []
  {
  }

  lemma {:induction false} TenDigits()
    ensures ToDigits(450515184485832, 32, 10) == [12, 25, 23, 22, 30, 24, 19, 1, 14, 8]
  {
    hide ToDigits;
    var d0: seq<nat> := [];
    NoDigits();
    OneMoreDigit(0, 12, d0);
    var d1 := d0 + [12];
    OneMoreDigit(12, 25, d1);
    var d2 := d1 + [25];
    OneMoreDigit(409, 23, d2);
    var d3 := d2 + [23];
    OneMoreDigit(13111, 22, d3);
    var d4 := d3 + [22];
    OneMoreDigit(419574, 30, d4);
    var d5 := d4 + [30];
    OneMoreDigit(13426398, 24, d5);
    var d6 := d5 + [24];
    OneMoreDigit(429644760, 19, d6);
    var d7 := d6 + [19];
    OneMoreDigit(13748632339, 1, d7);
    var d8 := d7 + [1];
    OneMoreDigit(439956234849, 14, d8);
    var d9 := d8 + [14];
    OneMoreDigit(14078599515182, 8, d9);
    var d10 := d9 + [8];
    assert d10 == [12, 25, 23, 22, 30, 24, 19, 1, 14, 8];
  }
}
