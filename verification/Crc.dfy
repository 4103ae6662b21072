/**
 The CRC-16 of EMVCo QR payloads (apps/api/src/providers/khqr.util.ts, crc16): polynomial 0x1021,
 initial value 0xFFFF, most significant bit first, over the low byte of each code unit.

 Strings are sequences of 16-bit code units, as in the source language. The source shifts a unit left
 by eight into a wider integer and masks after the first shift; the bits above sixteen never survive
 that mask, so sixteen-bit arithmetic computes the same.
 */
module Crc {

  /** A UTF-16 code unit. */
  type Unit = bv16

  type Str = seq<Unit>

  function ShiftOnce(x: bv16): bv16 {
    if x & 0x8000 != 0 then (x << 1) ^ 0x1021 else x << 1
  }

  function Shift(x: bv16, n: nat): bv16 {
    if n == 0 then x else ShiftOnce(Shift(x, n - 1))
  }

  function Shift2(x: bv16): bv16 {
    ShiftOnce(ShiftOnce(x))
  }

  function Shift4(x: bv16): bv16 {
    Shift2(Shift2(x))
  }

  function Shift8(x: bv16): bv16 {
    Shift4(Shift4(x))
  }

  function Feed(crc: bv16, c: Unit): bv16 {
    Shift8(crc ^ (c << 8))
  }

  function CrcFrom(crc: bv16, s: Str): bv16 {
    if s == [] then crc else Feed(CrcFrom(crc, s[..|s| - 1]), s[|s| - 1])
  }

  function HexDigit(d: bv16): Unit {
    if d < 10 then 48 + d else 55 + d
  }

  /** Four upper-case hexadecimal digits. */
  function Hex(x: bv16): (h: Str)
    ensures |h| == 4
  {
    [HexDigit(Nibble(x, 3)), HexDigit(Nibble(x, 2)), HexDigit(Nibble(x, 1)), HexDigit(Nibble(x, 0))]
  }

  function Nibble(x: bv16, i: nat): bv16 {
    if i == 0 then x & 0xF else if i == 1 then (x >> 4) & 0xF else if i == 2 then (x >> 8) & 0xF else x >> 12
  }

  function Checksum(s: Str): (h: Str)
    ensures |h| == 4
  {
    Hex(CrcFrom(0xFFFF, s))
  }

  lemma {:induction false} EightShifts(x: bv16)
    ensures Shift(x, 8) == Shift8(x)
  {
    hide ShiftOnce;
    assert Shift(x, 0) == x;
    assert Shift(x, 2) == Shift2(x);
    assert Shift(x, 4) == Shift2(Shift(x, 2));
    assert Shift(x, 6) == Shift2(Shift(x, 4));
    assert Shift(x, 8) == Shift2(Shift(x, 6));
  }

  /** The sixteen bits that survive the mask. */
  function Low(crc: bv32): bv16 {
    (crc & 0xFFFF) as bv16
  }

  lemma {:induction false} TurnIsShiftOnce(crc: bv32)
    ensures Low(if crc & 0x8000 != 0 then (crc << 1) ^ 0x1021 else crc << 1) == ShiftOnce(Low(crc))
  {
  }

  lemma {:induction false} LowOfMask(crc: bv32)
    ensures Low(crc & 0xFFFF) == Low(crc)
    ensures crc <= 0xFFFF ==> crc as bv16 == Low(crc)
  {
  }

  lemma {:induction false} MixIsNarrow(crc: bv32, c: Unit)
    ensures Low(crc ^ ((c as bv32) << 8)) == Low(crc) ^ (c << 8)
  {
  }

  /**
   One character of the source's loop. The accumulator is wider than the checksum: what a large unit
   leaves above bit sixteen is gone after the first turn.
   */
  method FeedWide(before: bv32, c: Unit) returns (crc: bv32)
    ensures crc <= 0xFFFF && Low(crc) == Feed(Low(before), c)
  {
    crc := before ^ ((c as bv32) << 8);
    MixIsNarrow(before, c);
    hide Low, ShiftOnce, Shift8;
    ghost var start := Low(crc);
    for j := 0 to 8
      invariant Low(crc) == Shift(start, j)
      invariant j > 0 ==> crc <= 0xFFFF
    {
      TurnIsShiftOnce(crc);
      crc := if crc & 0x8000 != 0 then (crc << 1) ^ 0x1021 else crc << 1;
      LowOfMask(crc);
      crc := crc & 0xFFFF;
    }
    EightShifts(start);
  }

  lemma {:induction false} CrcStep(s: Str, i: nat)
    requires i < |s|
    ensures CrcFrom(0xFFFF, s[..i + 1]) == Feed(CrcFrom(0xFFFF, s[..i]), s[i])
  {
    hide Feed;
    assert s[..i + 1][..i] == s[..i];
  }

  /** The bitwise checksum. */
  method Crc16(input: Str) returns (checksum: Str)
    ensures checksum == Checksum(input)
  {
    hide Low, Feed, Hex;
    var crc: bv32 := 0xFFFF;
    LowOfMask(crc);
    for i := 0 to |input|
      invariant crc <= 0xFFFF && Low(crc) == CrcFrom(0xFFFF, input[..i])
    {
      CrcStep(input, i);
      crc := FeedWide(crc, input[i]);
    }
    assert input[..|input|] == input;
    LowOfMask(crc);
    return Hex(crc as bv16);
  }

  // ------------------------------------------------------------ error detection

  function Xor(x: bv16, y: bv16): bv16 {
    x ^ y
  }

  lemma {:induction false} BothClear(x: bv16, y: bv16)
    requires x & 0x8000 == 0 && y & 0x8000 == 0
    ensures ShiftOnce(Xor(x, y)) == Xor(ShiftOnce(x), ShiftOnce(y))
  {
  }

  lemma {:induction false} FirstSet(x: bv16, y: bv16)
    requires x & 0x8000 != 0 && y & 0x8000 == 0
    ensures ShiftOnce(Xor(x, y)) == Xor(ShiftOnce(x), ShiftOnce(y))
  {
  }

  lemma {:induction false} SecondSet(x: bv16, y: bv16)
    requires x & 0x8000 == 0 && y & 0x8000 != 0
    ensures ShiftOnce(Xor(x, y)) == Xor(ShiftOnce(x), ShiftOnce(y))
  {
  }

  lemma {:induction false} BothSet(x: bv16, y: bv16)
    requires x & 0x8000 != 0 && y & 0x8000 != 0
    ensures ShiftOnce(Xor(x, y)) == Xor(ShiftOnce(x), ShiftOnce(y))
  {
  }

  lemma {:induction false} ShiftOnceLinear(x: bv16, y: bv16)
    ensures ShiftOnce(Xor(x, y)) == Xor(ShiftOnce(x), ShiftOnce(y))
  {
    hide ShiftOnce, Xor;
    if x & 0x8000 == 0 && y & 0x8000 == 0 {
      BothClear(x, y);
    } else if y & 0x8000 == 0 {
      FirstSet(x, y);
    } else if x & 0x8000 == 0 {
      SecondSet(x, y);
    } else {
      BothSet(x, y);
    }
  }

  /** Feeding is linear: the difference of two states depends on the differences only. */
  lemma {:induction false} Shift2Linear(x: bv16, y: bv16)
    ensures Shift2(Xor(x, y)) == Xor(Shift2(x), Shift2(y))
  {
    hide Xor, ShiftOnce;
    ShiftOnceLinear(x, y);
    ShiftOnceLinear(ShiftOnce(x), ShiftOnce(y));
  }

  lemma {:induction false} Shift4Linear(x: bv16, y: bv16)
    ensures Shift4(Xor(x, y)) == Xor(Shift4(x), Shift4(y))
  {
    hide Xor, Shift2;
    Shift2Linear(x, y);
    Shift2Linear(Shift2(x), Shift2(y));
  }

  lemma {:induction false} Shift8Linear(x: bv16, y: bv16)
    ensures Shift8(Xor(x, y)) == Xor(Shift8(x), Shift8(y))
  {
    hide Xor, Shift4;
    Shift4Linear(x, y);
    Shift4Linear(Shift4(x), Shift4(y));
  }

  lemma {:induction false} NonZeroStays(x: bv16)
    requires Shift8(x) == 0
    ensures x == 0
  {
  }

  lemma {:induction false} XorZero(x: bv16, y: bv16)
    ensures Xor(x, y) == 0 <==> x == y
  {
    hide Xor;
    XorSelf(x);
    XorTwice(x, y);
    XorWithZero(y);
  }

  lemma {:induction false} XorSelf(x: bv16)
    ensures Xor(x, x) == 0
  {
  }

  lemma {:induction false} XorTwice(x: bv16, y: bv16)
    ensures Xor(Xor(x, y), y) == x
  {
  }

  lemma {:induction false} XorWithZero(y: bv16)
    ensures Xor(0, y) == y
  {
  }

  /** A mask of the lowest bits of a byte. */
  predicate LowMask(mask: bv16) {
    mask in {0x00, 0x01, 0x03, 0x07, 0x0F, 0x1F, 0x3F, 0x7F, 0xFF}
  }

  /** A difference of at most sixteen consecutive bits, spread over three characters, cannot cancel out. */
  lemma {:induction false} BurstDoesNotCancel(a: bv16, b: bv16, c: bv16, mask: bv16)
    requires a <= 0xFF && b <= 0xFF && c <= 0xFF
    requires LowMask(mask) && a & mask == a && c & mask == 0
    requires Shift8(Shift8(Shift8(a << 8) ^ (b << 8)) ^ (c << 8)) == 0
    ensures a == 0 && b == 0 && c == 0
  {
  }

  // ------------------------------------------------------------ on strings

  /** The bits of the checked bytes in which two strings of one length differ. */
  function Difference(s: Str, t: Str): (d: Str)
    requires |s| == |t|
    ensures |d| == |s|
  {
    seq(|s|, i requires 0 <= i < |s| => Xor(s[i], t[i]) & 0xFF)
  }

  predicate AllZero(d: Str) {
    forall i :: 0 <= i < |d| ==> d[i] == 0
  }

  lemma {:induction false} MixLinear(a: bv16, b: bv16, c: Unit, e: Unit)
    ensures Xor(a ^ (c << 8), b ^ (e << 8)) == Xor(a, b) ^ ((Xor(c, e) & 0xFF) << 8)
  {
  }

  lemma {:induction false} FeedLinear(a: bv16, b: bv16, c: Unit, e: Unit)
    ensures Xor(Feed(a, c), Feed(b, e)) == Feed(Xor(a, b), Xor(c, e) & 0xFF)
  {
    hide Xor, Shift8;
    MixLinear(a, b, c, e);
    Shift8Linear(a ^ (c << 8), b ^ (e << 8));
  }

  /** Two checksums differ by the checksum, started at zero, of the difference. */
  lemma {:induction false} Superposition(a: bv16, b: bv16, s: Str, t: Str)
    requires |s| == |t|
    ensures Xor(CrcFrom(a, s), CrcFrom(b, t)) == CrcFrom(Xor(a, b), Difference(s, t))
  {
    hide Xor, Feed;
    if s != [] {
      var n := |s| - 1;
      Superposition(a, b, s[..n], t[..n]);
      assert Difference(s, t)[..n] == Difference(s[..n], t[..n]);
      FeedLinear(CrcFrom(a, s[..n]), CrcFrom(b, t[..n]), s[n], t[n]);
    }
  }

  lemma {:induction false} CrcJoins(crc: bv16, p: Str, q: Str)
    ensures CrcFrom(crc, p + q) == CrcFrom(CrcFrom(crc, p), q)
  {
    hide Feed;
    if q == [] {
      assert p + q == p;
    } else {
      var n := |q| - 1;
      CrcJoins(crc, p, q[..n]);
      assert (p + q)[..|p + q| - 1] == p + q[..n];
    }
  }

  lemma {:induction false} FeedZero(crc: bv16)
    ensures Feed(crc, 0) == 0 <==> crc == 0
  {
    if Feed(crc, 0) == 0 {
      FeedOfZeroUnit(crc);
      NonZeroStays(crc);
    }
  }

  lemma {:induction false} FeedOfZeroUnit(crc: bv16)
    ensures Feed(crc, 0) == Shift8(crc)
  {
    hide Shift8;
    assert crc ^ (0 << 8) == crc;
  }

  /** What agrees never restores a lost agreement. */
  lemma {:induction false} ZerosKeepTheVerdict(crc: bv16, d: Str)
    requires AllZero(d)
    ensures CrcFrom(crc, d) == 0 <==> crc == 0
  {
    hide Feed;
    if d != [] {
      var n := |d| - 1;
      ZerosKeepTheVerdict(crc, d[..n]);
      FeedZero(CrcFrom(crc, d[..n]));
    }
  }

  /**
   The differing bits lie within sixteen consecutive ones: the bits under `mask` of character k, the
   whole of the next, and of the one after that the bits outside the mask.
   */
  predicate Burst(d: Str, k: nat, mask: bv16) {
    && LowMask(mask)
    && (forall i :: 0 <= i < |d| && (i < k || k + 2 < i) ==> d[i] == 0)
    && (k < |d| ==> d[k] & mask == d[k])
    && (k + 2 < |d| ==> d[k + 2] & mask == 0)
  }

  predicate Bytes(d: Str) {
    forall i :: 0 <= i < |d| ==> d[i] <= 0xFF
  }

  lemma {:induction false} ThreeFeeds(a: bv16, b: bv16, c: bv16)
    ensures CrcFrom(0, [a, b, c]) == Feed(Feed(Feed(0, a), b), c)
  {
    hide Feed;
    assert [a, b, c][..2] == [a, b] && [a, b][..1] == [a] && [a][..0] == [];
    assert CrcFrom(0, [a]) == Feed(0, a);
  }

  lemma {:induction false} FirstFeed(a: bv16)
    ensures Feed(0, a) == Shift8(a << 8)
  {
    hide Shift8;
    assert 0 ^ (a << 8) == a << 8;
  }

  lemma {:induction false} ThreeUnits(a: bv16, b: bv16, c: bv16)
    ensures CrcFrom(0, [a, b, c]) == Shift8(Shift8(Shift8(a << 8) ^ (b << 8)) ^ (c << 8))
  {
    hide Shift8, CrcFrom;
    ThreeFeeds(a, b, c);
    FirstFeed(a);
  }

  lemma {:induction false} WholeBurst(d: Str, k: nat, mask: bv16)
    requires Bytes(d) && k + 2 < |d| && Burst(d, k, mask)
    ensures CrcFrom(0, d) == 0 <==> AllZero(d)
  {
    hide Shift8, CrcFrom;
    var a, b, c := d[k], d[k + 1], d[k + 2];
    assert d == d[..k] + [a, b, c] + d[k + 3..];
    assert AllZero(d[..k]) && AllZero(d[k + 3..]);
    CrcJoins(0, d[..k] + [a, b, c], d[k + 3..]);
    CrcJoins(0, d[..k], [a, b, c]);
    ZerosKeepTheVerdict(0, d[..k]);
    ZerosKeepTheVerdict(CrcFrom(0, [a, b, c]), d[k + 3..]);
    ThreeUnits(a, b, c);
    if CrcFrom(0, [a, b, c]) == 0 {
      BurstDoesNotCancel(a, b, c, mask);
    }
    if AllZero(d) {
      ZerosKeepTheVerdict(0, [a, b, c]);
    }
  }

  lemma {:induction false} BurstNeverVanishes(d: Str, k: nat, mask: bv16)
    requires Bytes(d) && Burst(d, k, mask)
    ensures CrcFrom(0, d) == 0 <==> AllZero(d)
  {
    hide CrcFrom;
    if k + 2 < |d| {
      WholeBurst(d, k, mask);
    } else {
      var pad := Zeros(k + 3);
      var e := d + pad;
      assert 0 & mask == 0;
      assert Burst(e, k, mask);
      WholeBurst(e, k, mask);
      CrcJoins(0, d, pad);
      ZerosKeepTheVerdict(CrcFrom(0, d), pad);
      assert forall i :: 0 <= i < |d| ==> d[i] == e[i];
    }
  }

  function Zeros(n: nat): (z: Str)
    ensures |z| == n && AllZero(z) && Bytes(z)
  {
    seq(n, i => 0)
  }

  lemma {:induction false} HexDigitInjective(a: bv16, b: bv16)
    requires a <= 15 && b <= 15 && HexDigit(a) == HexDigit(b)
    ensures a == b
  {
  }

  lemma {:induction false} HexInjective(x: bv16, y: bv16)
    requires Hex(x) == Hex(y)
    ensures x == y
  {
    hide HexDigit, Nibble;
    assert Hex(x)[0] == Hex(y)[0] && Hex(x)[1] == Hex(y)[1] && Hex(x)[2] == Hex(y)[2] && Hex(x)[3] == Hex(y)[3];
    forall i: nat | i < 4 ensures Nibble(x, i) == Nibble(y, i) {
      assert Hex(x)[3 - i] == HexDigit(Nibble(x, i)) && Hex(y)[3 - i] == HexDigit(Nibble(y, i));
      NibbleIsSmall(x, i);
      NibbleIsSmall(y, i);
      HexDigitInjective(Nibble(x, i), Nibble(y, i));
    }
    Nibbles(x, y);
  }

  lemma {:induction false} NibbleIsSmall(x: bv16, i: nat)
    ensures Nibble(x, i) <= 15
  {
  }

  lemma {:induction false} Nibbles(x: bv16, y: bv16)
    requires forall i: nat :: i < 4 ==> Nibble(x, i) == Nibble(y, i)
    ensures x == y
  {
    assert Nibble(x, 0) == Nibble(y, 0) && Nibble(x, 1) == Nibble(y, 1);
    assert Nibble(x, 2) == Nibble(y, 2) && Nibble(x, 3) == Nibble(y, 3);
  }

  lemma {:induction false} DifferenceIsBytes(s: Str, t: Str)
    requires |s| == |t|
    ensures Bytes(Difference(s, t))
  {
    forall i | 0 <= i < |s| ensures Difference(s, t)[i] <= 0xFF {
      MaskedIsByte(Xor(s[i], t[i]));
    }
  }

  lemma {:induction false} MaskedIsByte(x: bv16)
    ensures x & 0xFF <= 0xFF
  {
  }

  lemma {:induction false} SameChecksumIff(s: Str, t: Str)
    requires |s| == |t|
    ensures Checksum(s) == Checksum(t) <==> CrcFrom(0, Difference(s, t)) == 0
  {
    hide Xor, CrcFrom;
    Superposition(0xFFFF, 0xFFFF, s, t);
    XorZero(0xFFFF, 0xFFFF);
    XorZero(CrcFrom(0xFFFF, s), CrcFrom(0xFFFF, t));
    if Checksum(s) == Checksum(t) {
      HexInjective(CrcFrom(0xFFFF, s), CrcFrom(0xFFFF, t));
    }
  }

  /**
   Error detection. When two strings of one length differ in their checked bytes only within sixteen
   consecutive bits, they share a checksum exactly when they do not differ there at all.
   */
  lemma {:induction false} BurstIsDetected(s: Str, t: Str, k: nat, mask: bv16)
    requires |s| == |t| && Burst(Difference(s, t), k, mask)
    ensures Checksum(s) == Checksum(t) <==> AllZero(Difference(s, t))
  {
    hide CrcFrom, Burst, AllZero;
    SameChecksumIff(s, t);
    DifferenceIsBytes(s, t);
    BurstNeverVanishes(Difference(s, t), k, mask);
  }

  /** Two strings agree everywhere but at character k and the next one. */
  predicate AdjacentChange(s: Str, t: Str, k: nat) {
    && |s| == |t|
    && (forall i :: 0 <= i < |s| && i != k && i != k + 1 ==> s[i] == t[i])
  }

  /** So one retyped character, or two adjacent ones, always show, as long as characters fit a byte. */
  lemma {:induction false} AdjacentChangeIsDetected(s: Str, t: Str, k: nat)
    requires Bytes(s) && Bytes(t) && AdjacentChange(s, t, k)
    ensures Checksum(s) == Checksum(t) <==> s == t
  {
    hide Checksum;
    var d := Difference(s, t);
    forall i | 0 <= i < |s| ensures d[i] == 0 <==> s[i] == t[i] {
      ByteDifference(s[i], t[i]);
    }
    DifferenceIsBytes(s, t);
    forall i | 0 <= i < |d| ensures d[i] & 0xFF == d[i] {
      ByteMask(d[i]);
    }
    assert Burst(d, k, 0xFF);
    BurstIsDetected(s, t, k, 0xFF);
  }

  lemma {:induction false} ByteMask(x: bv16)
    requires x <= 0xFF
    ensures x & 0xFF == x
  {
  }

  lemma {:induction false} ByteDifference(x: bv16, y: bv16)
    requires x <= 0xFF && y <= 0xFF
    ensures Xor(x, y) & 0xFF == 0 <==> x == y
  {
  }

  // ------------------------------------------------------------ odd errors

  function Half(x: bv16): (h: bv16)
    ensures x != 0 ==> h < x
  {
    x >> 1
  }

  predicate LowBit(x: bv16) {
    x & 1 != 0
  }

  /** Whether an odd number of bits is set. */
  predicate Odd(x: bv16)
    decreases x
  {
    x != 0 && LowBit(x) != Odd(Half(x))
  }

  /** Whether the units of a string hold an odd number of set bits together. */
  function TotalOdd(d: Str): bool {
    if d == [] then false else TotalOdd(d[..|d| - 1]) != Odd(d[|d| - 1])
  }

  lemma {:induction false} HalfOfXor(x: bv16, y: bv16)
    ensures Half(Xor(x, y)) == Xor(Half(x), Half(y))
  {
  }

  lemma {:induction false} LowBitOfXor(x: bv16, y: bv16)
    ensures LowBit(Xor(x, y)) == (LowBit(x) != LowBit(y))
  {
    var a, b := x & 1, y & 1;
    assert Xor(x, y) & 1 == a ^ b;
    assert (a == 0 || a == 1) && (b == 0 || b == 1);
  }

  lemma {:induction false} OddUnfolds(x: bv16)
    ensures Odd(x) == (LowBit(x) != Odd(Half(x)))
  {
    if x == 0 {
      assert !LowBit(x) && Half(x) == 0;
    }
  }

  lemma {:induction false} OddOfXor(x: bv16, y: bv16)
    ensures Odd(Xor(x, y)) == (Odd(x) != Odd(y))
    decreases x
  {
    hide Xor, Half, LowBit;
    if x == 0 {
      XorWithZero(y);
    } else {
      HalfOfXor(x, y);
      LowBitOfXor(x, y);
      OddUnfolds(x);
      OddUnfolds(y);
      OddUnfolds(Xor(x, y));
      OddOfXor(Half(x), Half(y));
    }
  }

  lemma {:induction false} HalfOfDouble(x: bv16)
    requires x & 0x8000 == 0
    ensures Half(x << 1) == x && !LowBit(x << 1)
  {
  }

  lemma {:induction false} OddOfDouble(x: bv16)
    requires x & 0x8000 == 0
    ensures Odd(x << 1) == Odd(x)
  {
    hide Half, LowBit;
    OddUnfolds(x << 1);
    HalfOfDouble(x);
  }

  lemma {:induction false} OddConstants()
    ensures Odd(0x1021) && Odd(0x8000)
  {
    OddUnfolds(0x1021);
    OddOfDouble(0x0408);
    OddOfDouble(0x0204);
    OddOfDouble(0x0102);
    OddOfDouble(0x0081);
    OddUnfolds(0x0081);
    OddOfDouble(0x0020);
    OddOfDouble(0x0010);
    OddOfDouble(0x0008);
    OddOfDouble(0x0004);
    OddOfDouble(0x0002);
    OddOfDouble(0x0001);
    OddUnfolds(0x0001);
    OddOfDouble(0x0040);
    OddOfDouble(0x0080);
    OddOfDouble(0x0100);
    OddOfDouble(0x0200);
    OddOfDouble(0x0400);
    OddOfDouble(0x0800);
    OddOfDouble(0x1000);
    OddOfDouble(0x2000);
    OddOfDouble(0x4000);
  }

  lemma {:induction false} TopBit(x: bv16)
    requires x & 0x8000 != 0
    ensures x == Xor(x & 0x7FFF, 0x8000) && ShiftOnce(x) == Xor((x & 0x7FFF) << 1, 0x1021)
    ensures (x & 0x7FFF) & 0x8000 == 0
  {
  }

  lemma {:induction false} TopBitParity(x: bv16, low: bv16, double: bv16)
    requires x == Xor(low, 0x8000) && ShiftOnce(x) == Xor(double, 0x1021) && Odd(double) == Odd(low)
    ensures Odd(ShiftOnce(x)) == Odd(x)
  {
    hide Odd, Xor, ShiftOnce;
    OddConstants();
    OddOfXor(low, 0x8000);
    OddOfXor(double, 0x1021);
  }

  lemma {:induction false} ShiftKeepsParity(x: bv16)
    ensures Odd(ShiftOnce(x)) == Odd(x)
  {
    if x & 0x8000 == 0 {
      OddOfDouble(x);
      hide Odd;
    } else {
      hide Odd, Xor, ShiftOnce;
      TopBit(x);
      OddOfDouble(x & 0x7FFF);
      TopBitParity(x, x & 0x7FFF, (x & 0x7FFF) << 1);
    }
  }

  lemma {:induction false} Shift2KeepsParity(x: bv16)
    ensures Odd(Shift2(x)) == Odd(x)
  {
    hide ShiftOnce, Odd;
    ShiftKeepsParity(x);
    ShiftKeepsParity(ShiftOnce(x));
  }

  lemma {:induction false} Shift8KeepsParity(x: bv16)
    ensures Odd(Shift8(x)) == Odd(x)
  {
    hide Shift2, Odd;
    Shift2KeepsParity(x);
    Shift2KeepsParity(Shift2(x));
    Shift2KeepsParity(Shift2(Shift2(x)));
    Shift2KeepsParity(Shift2(Shift2(Shift2(x))));
  }

  lemma {:induction false} OddOfDouble2(x: bv16)
    requires x <= 0x3FFF
    ensures Odd(x << 2) == Odd(x)
  {
    hide Odd;
    assert x & 0x8000 == 0 && (x << 1) & 0x8000 == 0 && (x << 1) << 1 == x << 2;
    OddOfDouble(x);
    OddOfDouble(x << 1);
  }

  lemma {:induction false} ByteShifts(c: bv16)
    requires c <= 0xFF
    ensures c << 2 <= 0x3FFF && (c << 2) << 2 <= 0x3FFF && ((c << 2) << 2) << 2 <= 0x3FFF
    ensures (((c << 2) << 2) << 2) << 2 == c << 8
  {
  }

  lemma {:induction false} OddOfHighByte(c: bv16)
    requires c <= 0xFF
    ensures Odd(c << 8) == Odd(c)
  {
    ByteShifts(c);
    hide Odd;
    OddOfDouble2(c);
    OddOfDouble2(c << 2);
    OddOfDouble2((c << 2) << 2);
    OddOfDouble2(((c << 2) << 2) << 2);
  }

  lemma {:induction false} FeedAddsParity(crc: bv16, c: Unit)
    requires c <= 0xFF
    ensures Odd(Feed(crc, c)) == (Odd(crc) != Odd(c))
  {
    hide Shift8, Odd;
    Shift8KeepsParity(crc ^ (c << 8));
    assert crc ^ (c << 8) == Xor(crc, c << 8);
    OddOfXor(crc, c << 8);
    OddOfHighByte(c);
  }

  lemma {:induction false} CrcKeepsParity(d: Str)
    requires Bytes(d)
    ensures Odd(CrcFrom(0, d)) == TotalOdd(d)
  {
    hide Feed;
    if d != [] {
      var n := |d| - 1;
      CrcKeepsParity(d[..n]);
      FeedAddsParity(CrcFrom(0, d[..n]), d[n]);
    }
  }

  /** Any odd number of flipped bits, wherever they are, changes the checksum. */
  lemma {:induction false} OddErrorsAreDetected(s: Str, t: Str)
    requires |s| == |t| && TotalOdd(Difference(s, t))
    ensures Checksum(s) != Checksum(t)
  {
    hide Checksum, CrcFrom, TotalOdd;
    SameChecksumIff(s, t);
    DifferenceIsBytes(s, t);
    CrcKeepsParity(Difference(s, t));
  }
}
