/**
 The one exception of the KHQR round trip, exhibited: a code printed by the builder of module Khqr whose
 checksum reads like the header of a checksum field, and which the parser therefore refuses.
 */
module KhqrException {
  import opened Wrappers
  import opened Crc
  import opened Currencies
  import opened Tlv
  import opened Khqr

  /** Two digits fed to the checksum. */
  function FeedTwo(crc: bv16, n: nat): bv16
    requires n < 100
  {
    Feed(Feed(crc, Digit(n / 10)), Digit(n % 10))
  }

  lemma {:induction false} CrcOfPair(crc: bv16, a: Unit, b: Unit)
    ensures CrcFrom(crc, [a, b]) == Feed(Feed(crc, a), b)
  {
    hide Feed;
    assert [a, b][..1] == [a] && [a][..0] == [];
    assert CrcFrom(crc, [a]) == Feed(crc, a);
  }

  lemma {:induction false} CrcOfTwo(crc: bv16, n: nat)
    requires n < 100
    ensures CrcFrom(crc, Two(n)) == FeedTwo(crc, n)
  {
    hide Feed, Digit;
    CrcOfPair(crc, Digit(n / 10), Digit(n % 10));
  }

  lemma {:induction false} CrcOfField(crc: bv16, tag: nat, value: Str)
    requires tag < 100 && |value| < 100
    ensures CrcFrom(crc, TlvText(tag, value)) == CrcFrom(FeedTwo(FeedTwo(crc, tag), |value|), value)
  {
    hide CrcFrom, FeedTwo, Two, Padded;
    PaddedIsTwo(|value|);
    CrcJoins(crc, Two(tag) + Two(|value|), value);
    CrcJoins(crc, Two(tag), Two(|value|));
    CrcOfTwo(crc, tag);
    CrcOfTwo(FeedTwo(crc, tag), |value|);
  }

  lemma {:induction false} CrcNext(crc: bv16, s: Str, c: Unit)
    ensures CrcFrom(crc, s + [c]) == Feed(CrcFrom(crc, s), c)
  {
    hide Feed;
    assert (s + [c])[..|s|] == s;
  }

  /** The feeds of the check string, character by character. */
  lemma {:induction false} CheckFeeds()
    ensures Feed(0xFFFF, 49) == 0xC782
    ensures Feed(0xC782, 50) == 0x3DBA
    ensures Feed(0x3DBA, 51) == 0x5BCE
    ensures Feed(0x5BCE, 52) == 0x5349
    ensures Feed(0x5349, 53) == 0x4560
    ensures Feed(0x4560, 54) == 0x2EF4
    ensures Feed(0x2EF4, 55) == 0x7718
    ensures Feed(0x7718, 56) == 0xA12B
    ensures Feed(0xA12B, 57) == 0x29B1
  {
  }

  /** The check value of this checksum: of the text 123456789 it is 29B1. */
  lemma {:induction false} CheckValue()
    ensures Checksum([49, 50, 51, 52, 53, 54, 55, 56, 57]) == [50, 57, 66, 49]
  {
    hide Feed, Hex, CrcFrom;
    CheckFeeds();
    CrcOfNothing();
    var s: Str := [49, 50, 51, 52, 53, 54, 55, 56, 57];
    assert s[..0] == [] && s[..9] == s;
    CrcStep(s, 0);
    CrcStep(s, 1);
    CrcStep(s, 2);
    CrcStep(s, 3);
    CrcStep(s, 4);
    CrcStep(s, 5);
    CrcStep(s, 6);
    CrcStep(s, 7);
    CrcStep(s, 8);
    HexOf29B1();
  }

  lemma {:induction false} HexOf29B1()
    ensures Hex(0x29B1) == [50, 57, 66, 49]
  {
    assert Nibble(0x29B1, 3) == 2 && Nibble(0x29B1, 2) == 9 && Nibble(0x29B1, 1) == 11 && Nibble(0x29B1, 0) == 1;
  }

  /** A static code in dollars for the account bz@0, without a name or a city. */
  const UNLUCKY: Params := Params(
    [98, 122, 64, 48], [], [], None, USD, None, None, None, None, None, None, false, None)

  lemma {:induction false} CrcOfAdd(fs: seq<Field>, tag: nat, value: Str)
    requires tag < 100
    ensures CrcFrom(0xFFFF, Print(Add(fs, tag, value))) == CrcFrom(CrcFrom(0xFFFF, Print(fs)), TlvText(tag, value))
  {
    hide CrcFrom, TlvText, AddIf, Print;
    PrintAdd(fs, true, tag, value);
    CrcJoins(0xFFFF, Print(fs), TlvText(tag, value));
  }

  lemma {:induction false} DigitTable()
    ensures Digit(0) == 48 && Digit(1) == 49 && Digit(2) == 50 && Digit(3) == 51 && Digit(4) == 52
    ensures Digit(5) == 53 && Digit(6) == 54 && Digit(7) == 55 && Digit(8) == 56 && Digit(9) == 57
  {
  }

  lemma {:induction false} IndicatorsFeeds()
    ensures Feed(Feed(0xFFFF, 48), 48) == 0x2EC9 && Feed(Feed(0x2EC9, 48), 50) == 0x7E08
    ensures Feed(Feed(0x7E08, 48), 49) == 0x89B9 && Feed(Feed(0x89B9, 48), 49) == 0xB415
    ensures Feed(Feed(0xB415, 48), 50) == 0x83D9 && Feed(Feed(0x83D9, 49), 49) == 0x0449
  {
  }

  lemma {:induction false} UnluckyIndicators()
    ensures CrcFrom(0xFFFF, TlvText(0, Two(1))) == 0x89B9
    ensures CrcFrom(0x89B9, TlvText(1, Two(11))) == 0x0449
  {
    hide Feed, Digit;
    DigitTable();
    IndicatorsFeeds();
    CrcOfField(0xFFFF, 0, Two(1));
    CrcOfTwo(0x7E08, 1);
    CrcOfField(0x89B9, 1, Two(11));
    CrcOfTwo(0x83D9, 11);
  }

  lemma {:induction false} BlockFeeds()
    ensures Feed(Feed(0x0449, 50), 57) == 0xD1A4 && Feed(Feed(0xD1A4, 48), 56) == 0x61B6
    ensures Feed(Feed(0x61B6, 48), 48) == 0xCCC0 && Feed(Feed(0xCCC0, 48), 52) == 0xF937
    ensures Feed(0xF937, 98) == 0x05D2 && Feed(0x05D2, 122) == 0x5D78
    ensures Feed(0x5D78, 64) == 0xBB9C && Feed(0xBB9C, 48) == 0xBCE3
  {
  }

  lemma {:induction false} UnluckyId()
    ensures |TlvText(0, UNLUCKY.bakongAccountId)| == 8
    ensures UNLUCKY.bakongAccountId == [98, 122] + [64, 48]
  {
    PaddedIsTwo(4);
  }

  lemma {:induction false} UnluckyBlock()
    ensures |TlvText(0, UNLUCKY.bakongAccountId)| == 8
    ensures CrcFrom(0x0449, TlvText(29, TlvText(0, UNLUCKY.bakongAccountId))) == 0xBCE3
  {
    hide Feed, Digit, CrcFrom, TlvText, Two;
    DigitTable();
    BlockFeeds();
    UnluckyId();
    var id := UNLUCKY.bakongAccountId;
    CrcOfField(0x0449, 29, TlvText(0, id));
    CrcOfField(0x61B6, 0, id);
    CrcJoins(0xF937, [98, 122], [64, 48]);
    CrcOfPair(0xF937, 98, 122);
    CrcOfPair(0x5D78, 64, 48);
  }

  lemma {:induction false} CodesFeeds()
    ensures Feed(Feed(0xBCE3, 53), 50) == 0x7A5C && Feed(Feed(0x7A5C, 48), 52) == 0x0FA9
    ensures Feed(Feed(0x0FA9, 53), 57) == 0x69E7 && Feed(Feed(0x69E7, 57), 57) == 0x240C
    ensures Feed(Feed(0x240C, 53), 51) == 0xF7FE && Feed(Feed(0xF7FE, 48), 51) == 0x8722
    ensures Feed(Feed(0x8722, 56), 52) == 0x7CC4 && Feed(0x7CC4, 48) == 0x4D48
  {
  }

  lemma {:induction false} UnluckyCategory()
    ensures CrcFrom(0xBCE3, TlvText(52, Two(59) + Two(99))) == 0x240C
  {
    hide Feed, Digit, CrcFrom, TlvText;
    DigitTable();
    CodesFeeds();
    CrcOfField(0xBCE3, 52, Two(59) + Two(99));
    CrcJoins(0x0FA9, Two(59), Two(99));
    CrcOfTwo(0x0FA9, 59);
    CrcOfTwo(0x69E7, 99);
  }

  lemma {:induction false} UnluckyCurrency()
    ensures CrcFrom(0x240C, TlvText(53, CurrencyCode(USD))) == 0x4D48
  {
    hide Feed, Digit, CrcFrom, TlvText;
    DigitTable();
    CodesFeeds();
    CrcOfField(0x240C, 53, CurrencyCode(USD));
    assert CurrencyCode(USD) == Two(84) + [Digit(0)];
    CrcOfTwo(0x8722, 84);
    CrcNext(0x8722, Two(84), Digit(0));
  }

  lemma {:induction false} TailFeeds()
    ensures Feed(Feed(0x4D48, 53), 56) == 0xFF67 && Feed(Feed(0xFF67, 48), 50) == 0x0C3A
    ensures Feed(0x0C3A, 75) == 0x0223 && Feed(0x0223, 72) == 0xCA8E
    ensures Feed(Feed(0xCA8E, 53), 57) == 0xD4C3 && Feed(Feed(0xD4C3, 48), 48) == 0x030A
    ensures Feed(Feed(0x030A, 54), 48) == 0x6D79 && Feed(Feed(0x6D79, 48), 48) == 0xA10E
    ensures Feed(Feed(0xA10E, 54), 51) == 0x6682 && Feed(Feed(0x6682, 48), 52) == 0x6304
  {
  }

  lemma {:induction false} UnluckyCountry()
    ensures CrcFrom(0x4D48, TlvText(58, COUNTRY_CODE)) == 0xCA8E
  {
    hide Feed, Digit, CrcFrom, TlvText;
    DigitTable();
    TailFeeds();
    CrcOfField(0x4D48, 58, COUNTRY_CODE);
    CrcOfPair(0x0C3A, 75, 72);
  }

  lemma {:induction false} UnluckyNames()
    ensures CrcFrom(0xCA8E, TlvText(59, [])) == 0x030A
    ensures CrcFrom(0x030A, TlvText(60, [])) == 0xA10E
  {
    hide Feed, Digit, TlvText;
    DigitTable();
    TailFeeds();
    CrcOfField(0xCA8E, 59, []);
    CrcOfField(0x030A, 60, []);
  }

  lemma {:induction false} UnluckyHeader()
    ensures CrcFrom(0xA10E, CrcHeader()) == 0x6304
  {
    hide Feed, Digit, CrcFrom;
    DigitTable();
    TailFeeds();
    CrcJoins(0xA10E, Two(63), Two(4));
    CrcOfTwo(0xA10E, 63);
    CrcOfTwo(0x6682, 4);
  }

  lemma {:induction false} UnluckyHead()
    ensures Print(AccountFields(UNLUCKY)) == TlvText(0, UNLUCKY.bakongAccountId)
    ensures CrcFrom(0xFFFF, Print(HeadFields(UNLUCKY))) == 0x240C
  {
    hide CrcFrom, TlvText, Print, AddIf;
    var id := UNLUCKY.bakongAccountId;
    PrintNone();
    PrintAdd([], true, 0, id);
    PrintAdd(Add([], 0, id), false, 1, []);
    PrintAdd(Add([], 0, id), false, 2, []);
    assert [] + TlvText(0, id) == TlvText(0, id);
    assert Add([], 0, id) == AccountFields(UNLUCKY) by { UnluckyAccount(); }
    assert CrcFrom(0xFFFF, []) == 0xFFFF by { CrcOfNothing(); }
    var block := TlvText(0, id);
    var f1 := Add([], 0, Two(1));
    var f2 := Add(f1, 1, Two(11));
    var f3 := Add(f2, 29, block);
    CrcOfAdd([], 0, Two(1));
    CrcOfAdd(f1, 1, Two(11));
    CrcOfAdd(f2, 29, block);
    CrcOfAdd(f3, 52, Two(59) + Two(99));
    UnluckyIndicators();
    UnluckyBlock();
    UnluckyCategory();
  }

  lemma {:induction false} CrcOfNothing()
    ensures CrcFrom(0xFFFF, []) == 0xFFFF
  {
  }

  lemma {:induction false} UnluckyAccount()
    ensures AccountFields(UNLUCKY) == Add([], 0, UNLUCKY.bakongAccountId)
  {
  }

  lemma {:induction false} UnluckyTop()
    ensures TopFields(UNLUCKY) ==
      Add(Add(Add(Add(HeadFields(UNLUCKY), 53, CurrencyCode(USD)), 58, COUNTRY_CODE), 59, []), 60, [])
  {
    hide HeadFields, CurrencyCode;
  }

  /** A code for a well-formed account whose own checksum reads 6304. */
  lemma {:induction false} UnluckyChecksum()
    ensures Checksum(Print(TopFields(UNLUCKY)) + CrcHeader()) == CrcHeader()
  {
    hide CrcFrom, TlvText, Print, AddIf, HeadFields, TopFields, CurrencyCode, CrcHeader, Hex;
    var f3 := HeadFields(UNLUCKY);
    var f4 := Add(f3, 53, CurrencyCode(USD));
    var f5 := Add(f4, 58, COUNTRY_CODE);
    var f6 := Add(f5, 59, []);
    UnluckyTop();
    UnluckyHead();
    CrcOfAdd(f3, 53, CurrencyCode(USD));
    CrcOfAdd(f4, 58, COUNTRY_CODE);
    CrcOfAdd(f5, 59, []);
    CrcOfAdd(f6, 60, []);
    UnluckyCurrency();
    UnluckyCountry();
    UnluckyNames();
    UnluckyHeader();
    CrcJoins(0xFFFF, Print(TopFields(UNLUCKY)), CrcHeader());
    HexOf6304();
  }

  lemma {:induction false} HexOf6304()
    ensures Hex(0x6304) == CrcHeader()
  {
    assert Nibble(0x6304, 3) == 6 && Nibble(0x6304, 2) == 3 && Nibble(0x6304, 1) == 0 && Nibble(0x6304, 0) == 4;
  }

  /** So the exception is real: the gateway can print a valid code its own parser refuses. */
  lemma {:induction false} ChecksumExceptionIsReal()
    ensures FitsFormat(UNLUCKY) && NameAtBank(UNLUCKY.bakongAccountId)
    ensures ParseKhqr(BakongPayload(UNLUCKY)) == Err(MissingCrc)
  {
    hide ParseKhqr, BakongPayload, Checksum, Print, TopFields, CrcHeader, TlvText, AccountFields, CrcFrom;
    UnluckyHead();
    UnluckyBlock();
    var id := UNLUCKY.bakongAccountId;
    assert id[2] == AT && |id| == 4;
    UnluckyChecksum();
    RoundTrip(UNLUCKY);
  }
}
