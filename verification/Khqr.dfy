/**
 The KHQR codec (apps/api/src/providers/khqr.util.ts): buildBakongKhqr, buildMockKhqr and parseKhqr
 over the fields of module Tlv and the checksum of module Crc.
 */
module Khqr {
  import opened Wrappers
  import opened Crc
  import opened Numerals
  import opened Currencies
  import opened Tlv

  // ------------------------------------------------------------ text

  /** The characters that trimming removes and that an account id may not contain. */
  predicate IsSpace(u: Unit) {
    u in {
      0x09, 0x0A, 0x0B, 0x0C, 0x0D, 0x20, 0xA0, 0x1680, 0x2000, 0x2001, 0x2002, 0x2003, 0x2004, 0x2005,
      0x2006, 0x2007, 0x2008, 0x2009, 0x200A, 0x2028, 0x2029, 0x202F, 0x205F, 0x3000, 0xFEFF
    }
  }

  function TrimStart(s: Str): Str {
    if s != [] && IsSpace(s[0]) then TrimStart(s[1..]) else s
  }

  function TrimEnd(s: Str): Str {
    if s != [] && IsSpace(s[|s| - 1]) then TrimEnd(s[..|s| - 1]) else s
  }

  function Trim(s: Str): Str {
    TrimEnd(TrimStart(s))
  }

  /** Upper case of ASCII letters: no other character has `K`, `H` or a hexadecimal digit as its upper case. */
  function UpperUnit(u: Unit): Unit {
    if 97 <= u <= 122 then u - 32 else u
  }

  function Upper(s: Str): (r: Str)
    ensures |r| == |s|
  {
    seq(|s|, i requires 0 <= i < |s| => UpperUnit(s[i]))
  }

  /** The last place where a pattern starts, or minus one. */
  function LastIndexOf(s: Str, pattern: Str): int {
    if |s| < |pattern| then -1
    else if s[|s| - |pattern|..] == pattern then |s| - |pattern|
    else if s == [] then -1
    else LastIndexOf(s[..|s| - 1], pattern)
  }

  function Slice(s: Str, n: nat): Str {
    if |s| <= n then s else s[..n]
  }

  const AT: Unit := 64

  /** The shape name@bank: one `@`, something on both sides, no space. */
  predicate NameAtBank(s: Str) {
    exists k :: 0 < k < |s| - 1 && s[k] == AT
      && forall i :: 0 <= i < |s| && i != k ==> s[i] != AT && !IsSpace(s[i])
  }

  // ------------------------------------------------------------ parameters

  function CurrencyCode(c: PaymentCurrency): Str {
    if c == USD then [Digit(8), Digit(4), Digit(0)] else [Digit(1), Digit(1), Digit(6)]
  }

  function CodeToCurrency(code: Str): Option<PaymentCurrency> {
    if code == CurrencyCode(USD) then Some(USD) else if code == CurrencyCode(KHR) then Some(KHR) else None
  }

  /** A time in milliseconds, up to the largest the platform's dates can hold. */
  type Millis = t: nat | t <= 8_640_000_000_000_000

  /** The two times of a dynamic code. */
  datatype Stamps = Stamps(created: Millis, expires: Millis)

  datatype Params = Params(
    bakongAccountId: Str, merchantName: Str, merchantCity: Str, amount: Option<Str>, currency: PaymentCurrency,
    accountInformation: Option<Str>, merchantId: Option<Str>, acquiringBank: Option<Str>,
    billNumber: Option<Str>, mobileNumber: Option<Str>, storeLabel: Option<Str>,
    isMerchant: bool, expiry: Option<Stamps>)

  /** An optional text that is there and not empty. */
  predicate Given(o: Option<Str>) {
    o.Some? && o.value != []
  }

  function TextOf(o: Option<Str>): Str {
    match o
    case Some(s) => s
    case None => []
  }

  function NonEmpty(o: Option<Str>): Option<Str> {
    if Given(o) then o else None
  }

  /** `KH`. */
  const COUNTRY_CODE: Str := [75, 72]

  function CrcHeader(): Str {
    Two(63) + Two(4)
  }

  // ------------------------------------------------------------ field lists

  /** The value a map of fields holds under a numbered tag. */
  function Get(m: map<Str, Str>, tag: nat): Option<Str>
    requires tag < 100
  {
    if Two(tag) in m then Some(m[Two(tag)]) else None
  }

  function AddIf(fs: seq<Field>, c: bool, tag: nat, value: Str): seq<Field>
    requires tag < 100
  {
    if c then fs + [Field(Two(tag), value)] else fs
  }

  function Add(fs: seq<Field>, tag: nat, value: Str): seq<Field>
    requires tag < 100
  {
    AddIf(fs, true, tag, value)
  }

  function AccountFields(p: Params): seq<Field> {
    var sub := if p.isMerchant then p.merchantId else p.accountInformation;
    AddIf(AddIf(Add([], 0, p.bakongAccountId), Given(sub), 1, TextOf(sub)), Given(p.acquiringBank), 2,
      TextOf(p.acquiringBank))
  }

  function AdditionalFields(p: Params): seq<Field> {
    AddIf(AddIf(AddIf([],
      Given(p.billNumber), 1, Slice(TextOf(p.billNumber), 25)),
      Given(p.mobileNumber), 2, Slice(TextOf(p.mobileNumber), 25)),
      Given(p.storeLabel), 3, Slice(TextOf(p.storeLabel), 25))
  }

  predicate Dated(p: Params) {
    p.amount.Some? && p.expiry.Some?
  }

  function StampFields(p: Params): seq<Field> {
    if Dated(p) then Add(Add([], 0, Decimal(p.expiry.value.created)), 1, Decimal(p.expiry.value.expires)) else []
  }

  function AccountTag(p: Params): (tag: nat)
    ensures tag < 100
  {
    if p.isMerchant then 30 else 29
  }

  function HeadFields(p: Params): seq<Field> {
    var f1 := Add([], 0, Two(1));
    var f2 := Add(f1, 1, if p.amount.None? then Two(11) else Two(12));
    var f3 := Add(f2, AccountTag(p), Print(AccountFields(p)));
    Add(f3, 52, Two(59) + Two(99))
  }

  function MidFields(p: Params): seq<Field> {
    var f1 := Add(HeadFields(p), 53, CurrencyCode(p.currency));
    var f2 := AddIf(f1, p.amount.Some?, 54, TextOf(p.amount));
    Add(f2, 58, COUNTRY_CODE)
  }

  function NamedFields(p: Params): seq<Field> {
    Add(Add(MidFields(p), 59, Slice(p.merchantName, 25)), 60, Slice(p.merchantCity, 15))
  }

  function TopFields(p: Params): seq<Field> {
    var f5 := NamedFields(p);
    var f6 := AddIf(f5, AdditionalFields(p) != [], 62, Print(AdditionalFields(p)));
    AddIf(f6, Dated(p), 99, Print(StampFields(p)))
  }

  /** A body closed by its checksum. */
  function Seal(body: Str): Str {
    body + CrcHeader() + Checksum(body + CrcHeader())
  }

  function BakongPayload(p: Params): Str {
    Seal(Print(TopFields(p)))
  }

  // ------------------------------------------------------------ building

  /** Encode one field. */
  function TlvText(tag: nat, value: Str): Str
    requires tag < 100
  {
    Print1(Field(Two(tag), value))
  }

  lemma {:induction false} PrintAdd(fs: seq<Field>, c: bool, tag: nat, value: Str)
    requires tag < 100
    ensures Print(AddIf(fs, c, tag, value)) == Print(fs) + if c then TlvText(tag, value) else []
  {
    hide Print, Print1;
    if c {
      PrintJoin(fs, [Field(Two(tag), value)]);
      PrintOne(Field(Two(tag), value));
    }
  }

  lemma {:induction false} PrintNone()
    ensures Print([]) == []
  {
  }

  method AccountText(p: Params) returns (s: Str)
    ensures s == Print(AccountFields(p))
  {
    hide Print, TlvText, Two;
    PrintNone();
    ghost var sub := if p.isMerchant then p.merchantId else p.accountInformation;
    ghost var f1 := Add([], 0, p.bakongAccountId);
    PrintAdd([], true, 0, p.bakongAccountId);
    PrintAdd(f1, Given(sub), 1, TextOf(sub));
    PrintAdd(AddIf(f1, Given(sub), 1, TextOf(sub)), Given(p.acquiringBank), 2, TextOf(p.acquiringBank));
    s := TlvText(0, p.bakongAccountId);
    if p.isMerchant {
      if Given(p.merchantId) {
        s := s + TlvText(1, p.merchantId.value);
      }
    } else {
      if Given(p.accountInformation) {
        s := s + TlvText(1, p.accountInformation.value);
      }
    }
    if Given(p.acquiringBank) {
      s := s + TlvText(2, p.acquiringBank.value);
    }
  }

  method AdditionalText(p: Params) returns (s: Str)
    ensures s == Print(AdditionalFields(p))
    ensures s == [] <==> AdditionalFields(p) == []
  {
    hide Two;
    PrintNone();
    ghost var f1 := AddIf([], Given(p.billNumber), 1, Slice(TextOf(p.billNumber), 25));
    ghost var f2 := AddIf(f1, Given(p.mobileNumber), 2, Slice(TextOf(p.mobileNumber), 25));
    PrintAdd([], Given(p.billNumber), 1, Slice(TextOf(p.billNumber), 25));
    PrintAdd(f1, Given(p.mobileNumber), 2, Slice(TextOf(p.mobileNumber), 25));
    PrintAdd(f2, Given(p.storeLabel), 3, Slice(TextOf(p.storeLabel), 25));
    hide Print, TlvText, Slice;
    s := [];
    if Given(p.billNumber) {
      s := s + TlvText(1, Slice(p.billNumber.value, 25));
    }
    if Given(p.mobileNumber) {
      s := s + TlvText(2, Slice(p.mobileNumber.value, 25));
    }
    if Given(p.storeLabel) {
      s := s + TlvText(3, Slice(p.storeLabel.value, 25));
    }
    PrintEmptyIff(AdditionalFields(p));
  }

  lemma {:induction false} PrintEmptyIff(fs: seq<Field>)
    ensures Print(fs) == [] <==> fs == []
  {
    if fs != [] {
      assert |Print1(fs[0])| > 0;
    }
  }

  method StampText(p: Params) returns (s: Str)
    requires Dated(p)
    ensures s == Print(StampFields(p))
  {
    hide Print, TlvText, Two;
    PrintNone();
    var created, expires := Decimal(p.expiry.value.created), Decimal(p.expiry.value.expires);
    PrintAdd([], true, 0, created);
    PrintAdd(Add([], 0, created), true, 1, expires);
    s := TlvText(0, created) + TlvText(1, expires);
  }

  lemma {:induction false} HeadText(p: Params)
    ensures Print(HeadFields(p)) ==
      TlvText(0, Two(1)) + TlvText(1, if p.amount.None? then Two(11) else Two(12))
      + TlvText(AccountTag(p), Print(AccountFields(p))) + TlvText(52, Two(59) + Two(99))
  {
    hide Print, TlvText, Two, AddIf, AccountFields;
    var initiation := if p.amount.None? then Two(11) else Two(12);
    var f1 := Add([], 0, Two(1));
    var f2 := Add(f1, 1, initiation);
    var f3 := Add(f2, AccountTag(p), Print(AccountFields(p)));
    PrintNone();
    PrintAdd([], true, 0, Two(1));
    PrintAdd(f1, true, 1, initiation);
    PrintAdd(f2, true, AccountTag(p), Print(AccountFields(p)));
    PrintAdd(f3, true, 52, Two(59) + Two(99));
  }

  /** A field that is left out. */
  function Optional(c: bool, tag: nat, value: Str): (s: Str)
    requires tag < 100
  {
    if c then TlvText(tag, value) else []
  }

  lemma {:induction false} MidText(p: Params)
    ensures Print(MidFields(p)) ==
      Print(HeadFields(p)) + TlvText(53, CurrencyCode(p.currency))
      + Optional(p.amount.Some?, 54, TextOf(p.amount)) + TlvText(58, COUNTRY_CODE)
  {
    hide Print, TlvText, HeadFields, CurrencyCode, AddIf;
    var f1 := Add(HeadFields(p), 53, CurrencyCode(p.currency));
    PrintAdd(HeadFields(p), true, 53, CurrencyCode(p.currency));
    PrintAdd(f1, p.amount.Some?, 54, TextOf(p.amount));
    PrintAdd(AddIf(f1, p.amount.Some?, 54, TextOf(p.amount)), true, 58, COUNTRY_CODE);
  }

  lemma {:induction false} TopText(p: Params)
    ensures Print(TopFields(p)) ==
      Print(MidFields(p)) + TlvText(59, Slice(p.merchantName, 25)) + TlvText(60, Slice(p.merchantCity, 15))
      + Optional(AdditionalFields(p) != [], 62, Print(AdditionalFields(p)))
        + Optional(Dated(p), 99, Print(StampFields(p)))
  {
    hide Print, TlvText, MidFields, AddIf, Slice, AdditionalFields, StampFields;
    var f4 := Add(MidFields(p), 59, Slice(p.merchantName, 25));
    var f5 := Add(f4, 60, Slice(p.merchantCity, 15));
    PrintAdd(MidFields(p), true, 59, Slice(p.merchantName, 25));
    PrintAdd(f4, true, 60, Slice(p.merchantCity, 15));
    PrintAdd(f5, AdditionalFields(p) != [], 62, Print(AdditionalFields(p)));
    PrintAdd(AddIf(f5, AdditionalFields(p) != [], 62, Print(AdditionalFields(p))), Dated(p), 99, Print(StampFields(p)));
  }

  /** Build a payload field by field. */
  method BuildBakongKhqr(p: Params) returns (qrString: Str)
    ensures qrString == BakongPayload(p)
  {
    hide Print, TlvText, Slice, Two, AccountFields, AdditionalFields, StampFields, Checksum, CurrencyCode;
    hide HeadFields, MidFields, TopFields, CrcHeader;
    HeadText(p);
    MidText(p);
    TopText(p);
    var accountInfo := AccountText(p);
    var payload := TlvText(0, Two(1));
    payload := payload + TlvText(1, if p.amount.None? then Two(11) else Two(12));
    payload := payload + TlvText(if p.isMerchant then 30 else 29, accountInfo);
    payload := payload + TlvText(52, Two(59) + Two(99));
    assert payload == Print(HeadFields(p));
    payload := payload + TlvText(53, CurrencyCode(p.currency));
    if p.amount.Some? {
      payload := payload + TlvText(54, p.amount.value);
    }
    payload := payload + TlvText(58, COUNTRY_CODE);
    assert payload == Print(MidFields(p));
    payload := payload + TlvText(59, Slice(p.merchantName, 25));
    payload := payload + TlvText(60, Slice(p.merchantCity, 15));
    var additional := AdditionalText(p);
    if additional != [] {
      payload := payload + TlvText(62, additional);
    }
    if Dated(p) {
      var stamps := StampText(p);
      payload := payload + TlvText(99, stamps);
    }
    assert payload == Print(TopFields(p));
    payload := payload + CrcHeader();
    var checksum := Crc16(payload);
    return payload + checksum;
  }

  // ------------------------------------------------------------ parsing

  datatype ParsedKhqr = ParsedKhqr(
    isStatic: bool, isMerchant: bool, bakongAccountId: Str, accountInformation: Option<Str>,
    merchantId: Option<Str>, acquiringBank: Option<Str>, merchantName: Option<Str>,
    merchantCity: Option<Str>, currency: Option<PaymentCurrency>, amount: Option<Str>)

  datatype KhqrError =
    | TooShort
    | MissingCrc
    | ChecksumMismatch(expected: Str, actual: Str)
    | Malformed(cause: TlvError)
    | BadFormatIndicator
    | BadInitiation(initiation: Option<Str>)
    | NoAccountBlock
    | NoAccountId
    | BadAccountId(id: Str)
    | BadCountry(country: Str)

  function ParseKhqr(raw: Str): Result<ParsedKhqr, KhqrError> {
    var qr := Trim(raw);
    if |qr| < 12 then Err(TooShort) else
    var crcIdx := LastIndexOf(qr, CrcHeader());
    if crcIdx == -1 || crcIdx != |qr| - 8 then Err(MissingCrc) else
    var expected := Checksum(qr[..crcIdx + 4]);
    var actual := Upper(qr[|qr| - 4..]);
    if expected != actual then Err(ChecksumMismatch(expected, actual)) else
    match Parsed(qr[..crcIdx])
    case Err(e) => Err(Malformed(e))
    case Ok(top) => Interpret(top)
  }

  /** The checks on the top-level fields. */
  function Interpret(top: map<Str, Str>): Result<ParsedKhqr, KhqrError> {
    if Get(top, 0) != Some(Two(1)) then Err(BadFormatIndicator) else
    var initiation := Get(top, 1);
    if initiation != Some(Two(11)) && initiation != Some(Two(12)) then Err(BadInitiation(initiation)) else
    var block := if Get(top, 30).Some? then Get(top, 30) else Get(top, 29);
    if !Given(block) then Err(NoAccountBlock) else
    match Parsed(block.value)
    case Err(e) => Err(Malformed(e))
    case Ok(acct) => InterpretAccount(top, acct)
  }

  function InterpretAccount(top: map<Str, Str>, acct: map<Str, Str>): Result<ParsedKhqr, KhqrError> {
    var id := Get(acct, 0);
    if !Given(id) then Err(NoAccountId) else
    if !NameAtBank(id.value) then Err(BadAccountId(id.value)) else
    var country := Get(top, 58);
    if Given(country) && Upper(country.value) != COUNTRY_CODE then Err(BadCountry(country.value)) else
    var isMerchant := Get(top, 30).Some?;
    Ok(ParsedKhqr(
      Get(top, 1) == Some(Two(11)), isMerchant, id.value, Get(acct, 1),
      if isMerchant then Get(acct, 1) else None, Get(acct, 2), Get(top, 59), Get(top, 60),
      if Given(Get(top, 53)) then CodeToCurrency(Get(top, 53).value) else None, Get(top, 54)))
  }

  // ------------------------------------------------------------ the seal

  predicate OccursAt(s: Str, pattern: Str, j: nat) {
    j + |pattern| <= |s| && s[j..j + |pattern|] == pattern
  }

  lemma {:induction false} LastIndexSpec(s: Str, pattern: Str)
    requires pattern != []
    ensures var r := LastIndexOf(s, pattern);
      r == -1 || (r >= 0 && OccursAt(s, pattern, r))
    ensures forall j: nat :: OccursAt(s, pattern, j) ==> j <= LastIndexOf(s, pattern)
    decreases |s|
  {
    forall j: nat { OccursInFront(s, pattern, j); }
    hide OccursAt;
    if |s| >= |pattern| && s[|s| - |pattern|..] != pattern {
      LastIndexSpec(s[..|s| - 1], pattern);
    }
  }

  lemma {:induction false} OccursInFront(s: Str, pattern: Str, j: nat)
    requires pattern != []
    ensures OccursAt(s, pattern, j) ==> j + |pattern| <= |s|
    ensures j + |pattern| == |s| ==> (OccursAt(s, pattern, j) <==> s[j..] == pattern)
    ensures j + |pattern| < |s| ==> (OccursAt(s, pattern, j) <==> OccursAt(s[..|s| - 1], pattern, j))
    ensures s != [] && j + |pattern| >= |s| ==> !OccursAt(s[..|s| - 1], pattern, j)
  {
    if j + |pattern| == |s| {
      assert s[j..j + |pattern|] == s[j..];
    } else if j + |pattern| < |s| {
      assert s[j..j + |pattern|] == s[..|s| - 1][j..j + |pattern|];
    }
  }

  lemma {:induction false} HeaderIs6304()
    ensures CrcHeader() == [54, 51, 48, 52]
  {
  }

  /** In a sealed body the last header is the right one, unless the checksum is itself a header. */
  lemma {:induction false} LastHeader(body: Str, h: Str)
    requires |h| == 4
    ensures LastIndexOf(body + CrcHeader() + h, CrcHeader())
         == if h == CrcHeader() then |body| + 4 else |body|
  {
    hide CrcHeader, LastIndexOf;
    HeaderIs6304();
    var head := CrcHeader();
    var qr := body + head + h;
    var n := |body|;
    LastIndexSpec(qr, head);
    assert qr[n..n + 4] == head && qr[n + 4..n + 8] == h;
    assert OccursAt(qr, head, n);
    assert OccursAt(qr, head, n + 4) <==> h == head;
    assert qr[n + 1] == 51 && qr[n + 2] == 48 && qr[n + 3] == 52;
    assert head[0] == 54;
    forall j: nat | n < j < n + 4 ensures !OccursAt(qr, head, j) {
      assert qr[j..j + 4][0] == qr[j];
    }
  }

  predicate IsHex(u: Unit) {
    48 <= u <= 57 || 65 <= u <= 70
  }

  lemma {:induction false} HexDigitIsHex(d: bv16)
    requires d <= 15
    ensures IsHex(HexDigit(d))
  {
  }

  lemma {:induction false} HexIsPlain(u: Unit)
    requires IsHex(u)
    ensures !IsSpace(u) && UpperUnit(u) == u
  {
  }

  lemma {:induction false} ChecksumIsPlain(s: Str)
    ensures Upper(Checksum(s)) == Checksum(s)
    ensures !IsSpace(Checksum(s)[3])
  {
    var x := CrcFrom(0xFFFF, s);
    hide CrcFrom, HexDigit, Nibble, UpperUnit, IsSpace, IsHex;
    forall i | 0 <= i < 4 ensures UpperUnit(Checksum(s)[i]) == Checksum(s)[i] && !IsSpace(Checksum(s)[i]) {
      assert Hex(x)[i] == HexDigit(Nibble(x, 3 - i));
      NibbleIsSmall(x, 3 - i);
      HexDigitIsHex(Nibble(x, 3 - i));
      HexIsPlain(Hex(x)[i]);
    }
  }

  lemma {:induction false} NothingToTrim(s: Str)
    requires s != [] && !IsSpace(s[0]) && !IsSpace(s[|s| - 1])
    ensures Trim(s) == s
  {
  }

  /** What the parser makes of any sealed body. */
  lemma {:induction false} ParseSealed(body: Str)
    requires |body| >= 4 && !IsSpace(body[0])
    ensures ParseKhqr(Seal(body)) ==
      if Checksum(body + CrcHeader()) == CrcHeader() then Err(MissingCrc) else
      match Parsed(body)
      case Err(e) => Err(Malformed(e))
      case Ok(top) => Interpret(top)
  {
    hide Checksum, LastIndexOf, Parsed, Interpret, Upper, IsSpace, Trim;
    var covered := body + CrcHeader();
    var h := Checksum(covered);
    var qr := covered + h;
    ChecksumIsPlain(covered);
    NothingToTrim(qr);
    LastHeader(body, h);
    assert |CrcHeader()| == 4 by { HeaderIs6304(); }
    assert qr[..|body|] == body && qr[..|body| + 4] == covered && qr[|qr| - 4..] == h;
  }

  // ------------------------------------------------------------ round trip

  lemma {:induction false} TwoInjective(a: nat, b: nat)
    requires a < 100 && b < 100 && a != b
    ensures Two(a) != Two(b)
  {
    hide Two, TwoValue;
    TwoRoundTrip(a);
    TwoRoundTrip(b);
  }

  lemma {:induction false} GetAdd(fs: seq<Field>, c: bool, tag: nat, value: Str, n: nat)
    requires tag < 100 && n < 100
    ensures Get(AsMap(AddIf(fs, c, tag, value)), n) == if c && tag == n then Some(value) else Get(AsMap(fs), n)
  {
    hide Two;
    if c {
      var longer := AddIf(fs, c, tag, value);
      assert longer[..|longer| - 1] == fs;
      if tag != n {
        TwoInjective(tag, n);
      }
    }
  }

  lemma {:induction false} GetNone(n: nat)
    requires n < 100
    ensures Get(AsMap([]), n) == None
  {
  }

  lemma {:induction false} FitAdd(fs: seq<Field>, c: bool, tag: nat, value: Str)
    requires tag < 100
    ensures AllFit(AddIf(fs, c, tag, value)) <==> AllFit(fs) && (c ==> |value| <= 99)
    ensures |value| <= 99 ==> |Print(AddIf(fs, c, tag, value))| == |Print(fs)| + if c then 4 + |value| else 0
    ensures |Print(AddIf(fs, c, tag, value))| >= |Print(fs)| + if c then 3 + |value| else 0
  {
    hide Print, Two;
    PrintAdd(fs, c, tag, value);
    if c {
      var longer := AddIf(fs, c, tag, value);
      assert longer[|fs|] == Field(Two(tag), value);
      assert forall i :: 0 <= i < |fs| ==> fs[i] == longer[i];
      if |value| <= 99 {
        PaddedIsTwo(|value|);
      }
    }
  }

  function HeadValue(p: Params, n: nat): Option<Str>
    requires n < 100
  {
    if n == 0 then Some(Two(1))
    else if n == 1 then Some(if p.amount.None? then Two(11) else Two(12))
    else if n == AccountTag(p) then Some(Print(AccountFields(p)))
    else if n == 52 then Some(Two(59) + Two(99))
    else None
  }

  function MidValue(p: Params, n: nat): Option<Str>
    requires n < 100
  {
    if n == 53 then Some(CurrencyCode(p.currency))
    else if n == 54 then p.amount
    else if n == 58 then Some(COUNTRY_CODE)
    else HeadValue(p, n)
  }

  /** The value the built payload holds under each tag. */
  function TopValue(p: Params, n: nat): Option<Str>
    requires n < 100
  {
    if n == 59 then Some(Slice(p.merchantName, 25))
    else if n == 60 then Some(Slice(p.merchantCity, 15))
    else if n == 62 && AdditionalFields(p) != [] then Some(Print(AdditionalFields(p)))
    else if n == 99 && Dated(p) then Some(Print(StampFields(p)))
    else MidValue(p, n)
  }

  lemma {:induction false} HeadGet(p: Params, n: nat)
    requires n < 100
    ensures Get(AsMap(HeadFields(p)), n) == HeadValue(p, n)
  {
    hide Get, AsMap, AddIf, Two, Print;
    var f1 := Add([], 0, Two(1));
    var v2 := if p.amount.None? then Two(11) else Two(12);
    var f2 := Add(f1, 1, v2);
    var f3 := Add(f2, AccountTag(p), Print(AccountFields(p)));
    GetNone(n);
    GetAdd([], true, 0, Two(1), n);
    GetAdd(f1, true, 1, v2, n);
    GetAdd(f2, true, AccountTag(p), Print(AccountFields(p)), n);
    GetAdd(f3, true, 52, Two(59) + Two(99), n);
  }

  lemma {:induction false} MidGet(p: Params, n: nat)
    requires n < 100
    ensures Get(AsMap(MidFields(p)), n) == MidValue(p, n)
  {
    HeadGet(p, n);
    OnlyOwnTags(p);
    hide Get, AsMap, AddIf, Two, Print, HeadFields, CurrencyCode, HeadValue;
    var f1 := Add(HeadFields(p), 53, CurrencyCode(p.currency));
    var f2 := AddIf(f1, p.amount.Some?, 54, TextOf(p.amount));
    GetAdd(HeadFields(p), true, 53, CurrencyCode(p.currency), n);
    GetAdd(f1, p.amount.Some?, 54, TextOf(p.amount), n);
    GetAdd(f2, true, 58, COUNTRY_CODE, n);
  }

  /** Tags the later fields fill are empty before. */
  lemma {:induction false} OnlyOwnTags(p: Params)
    ensures HeadValue(p, 54) == None
    ensures MidValue(p, 62) == None && MidValue(p, 99) == None
  {
  }

  lemma {:induction false} TopGet(p: Params, n: nat)
    requires n < 100
    ensures Get(AsMap(TopFields(p)), n) == TopValue(p, n)
  {
    MidGet(p, n);
    OnlyOwnTags(p);
    hide Get, AsMap, AddIf, Two, Print, MidFields, MidValue, HeadValue, Slice, AdditionalFields, StampFields;
    var name, city := Slice(p.merchantName, 25), Slice(p.merchantCity, 15);
    var f4 := Add(MidFields(p), 59, name);
    var f5 := Add(f4, 60, city);
    var f6 := AddIf(f5, AdditionalFields(p) != [], 62, Print(AdditionalFields(p)));
    GetAdd(MidFields(p), true, 59, name, n);
    GetAdd(f4, true, 60, city, n);
    GetAdd(f5, AdditionalFields(p) != [], 62, Print(AdditionalFields(p)), n);
    GetAdd(f6, Dated(p), 99, Print(StampFields(p)), n);
  }

  lemma {:induction false} AccountGet(p: Params)
    ensures var m, sub := AsMap(AccountFields(p)), if p.isMerchant then p.merchantId else p.accountInformation;
      && Get(m, 0) == Some(p.bakongAccountId)
      && Get(m, 1) == NonEmpty(sub)
      && Get(m, 2) == NonEmpty(p.acquiringBank)
  {
    hide Get, AsMap, AddIf, Two;
    var sub := if p.isMerchant then p.merchantId else p.accountInformation;
    var f1 := Add([], 0, p.bakongAccountId);
    var f2 := AddIf(f1, Given(sub), 1, TextOf(sub));
    forall n: nat | n < 3
      ensures Get(AsMap(AccountFields(p)), n) ==
        if n == 0 then Some(p.bakongAccountId) else if n == 1 then NonEmpty(sub) else NonEmpty(p.acquiringBank)
    {
      GetNone(n);
      GetAdd([], true, 0, p.bakongAccountId, n);
      GetAdd(f1, Given(sub), 1, TextOf(sub), n);
      GetAdd(f2, Given(p.acquiringBank), 2, TextOf(p.acquiringBank), n);
    }
  }

  /** The lengths a caller has to keep: the account block and the amount fit two digits. */
  predicate FitsFormat(p: Params) {
    |Print(AccountFields(p))| <= 99 && |TextOf(p.amount)| <= 99
  }

  lemma {:induction false} AccountFits(p: Params)
    requires |Print(AccountFields(p))| <= 99
    ensures AllFit(AccountFields(p))
  {
    hide AddIf, Print, AllFit;
    var sub := if p.isMerchant then p.merchantId else p.accountInformation;
    var f1 := Add([], 0, p.bakongAccountId);
    assert AllFit([]) by { NoneFit(); }
    FitAdd([], true, 0, p.bakongAccountId);
    FitAdd(f1, Given(sub), 1, TextOf(sub));
    FitAdd(AddIf(f1, Given(sub), 1, TextOf(sub)), Given(p.acquiringBank), 2, TextOf(p.acquiringBank));
  }

  lemma {:induction false} NoneFit()
    ensures AllFit([])
  {
  }

  lemma {:induction false} AdditionalFits(p: Params)
    ensures |Print(AdditionalFields(p))| <= 87
  {
    hide AddIf, Print, AllFit;
    PrintNone();
    var b, m, l := Slice(TextOf(p.billNumber), 25), Slice(TextOf(p.mobileNumber), 25), Slice(TextOf(p.storeLabel), 25);
    var f1 := AddIf([], Given(p.billNumber), 1, b);
    var f2 := AddIf(f1, Given(p.mobileNumber), 2, m);
    FitAdd([], Given(p.billNumber), 1, b);
    FitAdd(f1, Given(p.mobileNumber), 2, m);
    FitAdd(f2, Given(p.storeLabel), 3, l);
  }

  lemma {:induction false} MillisWidth(t: Millis)
    ensures |Decimal(t)| <= 16
  {
    assert Power10(4) == 1_0000;
    assert Power10(8) == 1_0000_0000;
    assert Power10(12) == 1_0000_0000_0000;
    assert Power10(16) == 1_0000_0000_0000_0000;
    DecimalWidth(t, 16);
  }

  lemma {:induction false} StampsFit(p: Params)
    ensures |Print(StampFields(p))| <= 40
  {
    hide AddIf, Print, AllFit, Decimal;
    PrintNone();
    if Dated(p) {
      var created, expires := Decimal(p.expiry.value.created), Decimal(p.expiry.value.expires);
      MillisWidth(p.expiry.value.created);
      MillisWidth(p.expiry.value.expires);
      FitAdd([], true, 0, created);
      FitAdd(Add([], 0, created), true, 1, expires);
    }
  }

  lemma {:induction false} HeadFits(p: Params)
    ensures AllFit(HeadFields(p)) <==> |Print(AccountFields(p))| <= 99
  {
    hide AddIf, Print, AllFit;
    var f1 := Add([], 0, Two(1));
    var v2 := if p.amount.None? then Two(11) else Two(12);
    var f2 := Add(f1, 1, v2);
    var f3 := Add(f2, AccountTag(p), Print(AccountFields(p)));
    NoneFit();
    FitAdd([], true, 0, Two(1));
    FitAdd(f1, true, 1, v2);
    FitAdd(f2, true, AccountTag(p), Print(AccountFields(p)));
    FitAdd(f3, true, 52, Two(59) + Two(99));
  }

  lemma {:induction false} TopFits(p: Params)
    ensures AllFit(TopFields(p)) <==> FitsFormat(p)
  {
    hide AddIf, Print, AllFit, HeadFields;
    var f1 := Add(HeadFields(p), 53, CurrencyCode(p.currency));
    var f2 := AddIf(f1, p.amount.Some?, 54, TextOf(p.amount));
    var f4 := Add(MidFields(p), 59, Slice(p.merchantName, 25));
    var f5 := Add(f4, 60, Slice(p.merchantCity, 15));
    var f6 := AddIf(f5, AdditionalFields(p) != [], 62, Print(AdditionalFields(p)));
    HeadFits(p);
    AdditionalFits(p);
    StampsFit(p);
    FitAdd(HeadFields(p), true, 53, CurrencyCode(p.currency));
    FitAdd(f1, p.amount.Some?, 54, TextOf(p.amount));
    FitAdd(f2, true, 58, COUNTRY_CODE);
    FitAdd(MidFields(p), true, 59, Slice(p.merchantName, 25));
    FitAdd(f4, true, 60, Slice(p.merchantCity, 15));
    FitAdd(f5, AdditionalFields(p) != [], 62, Print(AdditionalFields(p)));
    FitAdd(f6, Dated(p), 99, Print(StampFields(p)));
  }

  /** The printed fields read back as themselves exactly when the lengths fit. */
  lemma {:induction false} FieldsReadBackIff(p: Params)
    ensures ParseFields(Print(TopFields(p))) == Ok(TopFields(p)) <==> FitsFormat(p)
  {
    hide ParseFields, Print, TopFields, AllFit, FitsFormat;
    TopFits(p);
    ParsesToIff(Print(TopFields(p)), TopFields(p));
  }

  /** What a scan of the built payload should give back. */
  function Expected(p: Params): ParsedKhqr {
    var sub := if p.isMerchant then p.merchantId else p.accountInformation;
    ParsedKhqr(
      p.amount.None?, p.isMerchant, p.bakongAccountId, NonEmpty(sub),
      if p.isMerchant then NonEmpty(sub) else None, NonEmpty(p.acquiringBank),
      Some(Slice(p.merchantName, 25)), Some(Slice(p.merchantCity, 15)), Some(p.currency), p.amount)
  }

  lemma {:induction false} Constants(c: PaymentCurrency)
    ensures Two(11) != Two(12)
    ensures Upper(COUNTRY_CODE) == COUNTRY_CODE
    ensures CurrencyCode(c) != [] && CodeToCurrency(CurrencyCode(c)) == Some(c)
  {
    TwoInjective(11, 12);
    assert UpperUnit(75) == 75 && UpperUnit(72) == 72;
    assert Upper(COUNTRY_CODE) == COUNTRY_CODE;
    assert CurrencyCode(USD)[0] == Digit(8) && CurrencyCode(KHR)[0] == Digit(1);
  }

  lemma {:induction false} InterpretBuilt(p: Params)
    requires FitsFormat(p)
    ensures Interpret(AsMap(TopFields(p))) ==
      if p.bakongAccountId == [] then Err(NoAccountId)
      else if !NameAtBank(p.bakongAccountId) then Err(BadAccountId(p.bakongAccountId))
      else Ok(Expected(p))
  {
    hide AsMap, TopFields, Get, NameAtBank, Print, Two, Upper, CurrencyCode, CodeToCurrency, ParseFields, AccountFields;
    var top := AsMap(TopFields(p));
    TopGet(p, 0);
    TopGet(p, 1);
    TopGet(p, 29);
    TopGet(p, 30);
    TopGet(p, 53);
    TopGet(p, 54);
    TopGet(p, 58);
    TopGet(p, 59);
    TopGet(p, 60);
    Constants(p.currency);
    AccountGet(p);
    AccountFits(p);
    ParsePrint(AccountFields(p));
    AccountNotEmpty(p);
    assert Parsed(Print(AccountFields(p))) == Ok(AsMap(AccountFields(p)));
  }

  lemma {:induction false} AccountNotEmpty(p: Params)
    ensures Print(AccountFields(p)) != []
  {
    PrintEmptyIff(AccountFields(p));
  }

  lemma {:induction false} StartsPlain(p: Params)
    ensures |Print(TopFields(p))| >= 4 && !IsSpace(Print(TopFields(p))[0])
  {
    var fs := TopFields(p);
    StartsWithIndicator(p);
    var f := Field(Two(0), Two(1));
    PaddedIsTwo(2);
    assert Print1(f)[0] == 48;
    assert Print(fs) == Print1(f) + Print(fs[1..]);
    assert !IsSpace(48);
  }

  lemma {:induction false} StartsWithIndicator(p: Params)
    ensures TopFields(p) != [] && TopFields(p)[0] == Field(Two(0), Two(1))
  {
    hide Two, Print, AccountFields, AdditionalFields, StampFields;
  }

  /**
   Round trip. A built payload whose account block and amount fit parses back to exactly what went in,
   unless the account id is not name@bank or the checksum happens to be the text "6304".
   */
  lemma {:induction false} RoundTrip(p: Params)
    requires FitsFormat(p)
    ensures ParseKhqr(BakongPayload(p)) ==
      if Checksum(Print(TopFields(p)) + CrcHeader()) == CrcHeader() then Err(MissingCrc)
      else if p.bakongAccountId == [] then Err(NoAccountId)
      else if !NameAtBank(p.bakongAccountId) then Err(BadAccountId(p.bakongAccountId))
      else Ok(Expected(p))
  {
    hide ParseKhqr, ParseFields, Print, TopFields, AsMap, Checksum, Seal, CrcHeader, Interpret, NameAtBank, IsSpace,
      AllFit;
    hide FitsFormat;
    StartsPlain(p);
    ParseSealed(Print(TopFields(p)));
    TopFits(p);
    ParsePrint(TopFields(p));
    InterpretBuilt(p);
  }

  /** Hence acceptance, exactly. */
  lemma {:induction false} AcceptedIff(p: Params)
    requires FitsFormat(p)
    ensures ParseKhqr(BakongPayload(p)) == Ok(Expected(p)) <==>
      NameAtBank(p.bakongAccountId) && Checksum(Print(TopFields(p)) + CrcHeader()) != CrcHeader()
  {
    hide ParseKhqr, BakongPayload, Checksum, Print, TopFields, CrcHeader, FitsFormat;
    RoundTrip(p);
  }

  // ------------------------------------------------------------ tampering

  /** An accepted payload, trimmed, ends in the checksum of what precedes it. */
  lemma {:induction false} AcceptedIsChecked(raw: Str)
    requires ParseKhqr(raw).Ok?
    ensures var qr := Trim(raw);
      |qr| >= 12 && Checksum(qr[..|qr| - 4]) == Upper(qr[|qr| - 4..])
  {
    hide Checksum, LastIndexOf, Parsed, Interpret, Upper, IsSpace, Trim, CrcHeader;
  }

  lemma {:induction false} TrimStartSkips(lead: Str, t: Str)
    requires forall i :: 0 <= i < |lead| ==> IsSpace(lead[i])
    requires t != [] && !IsSpace(t[0])
    ensures TrimStart(lead + t) == t
  {
    hide IsSpace;
    if lead == [] {
      assert lead + t == t;
    } else {
      TrimStartSkips(lead[1..], t);
      assert (lead + t)[1..] == lead[1..] + t;
    }
  }

  lemma {:induction false} TrimEndSkips(t: Str, trail: Str)
    requires forall i :: 0 <= i < |trail| ==> IsSpace(trail[i])
    requires t != [] && !IsSpace(t[|t| - 1])
    ensures TrimEnd(t + trail) == t
  {
    hide IsSpace;
    if trail == [] {
      assert t + trail == t;
    } else {
      var n := |trail| - 1;
      TrimEndSkips(t, trail[..n]);
      assert (t + trail)[..|t + trail| - 1] == t + trail[..n];
    }
  }

  predicate Blank(s: Str) {
    forall i :: 0 <= i < |s| ==> IsSpace(s[i])
  }

  /** A text between optional blanks. */
  predicate Framed(t: Str) {
    t != [] && !IsSpace(t[0]) && !IsSpace(t[|t| - 1])
  }

  lemma {:induction false} TrimFramed(lead: Str, t: Str, trail: Str)
    requires Blank(lead) && Blank(trail) && Framed(t)
    ensures Trim(lead + t + trail) == t
  {
    hide IsSpace;
    assert lead + t + trail == lead + (t + trail);
    TrimStartSkips(lead, t + trail);
    TrimEndSkips(t, trail);
  }

  /**
   Two accepted payloads of one length with the same checksum digits cannot differ, before those digits,
   within a burst of sixteen bits only.
   */
  lemma {:induction false} AcceptedAreFarApart(raw1: Str, raw2: Str, k: nat, mask: bv16)
    requires ParseKhqr(raw1).Ok? && ParseKhqr(raw2).Ok?
    requires var t, u, n := Trim(raw1), Trim(raw2), |Trim(raw1)| - 4;
      n >= 0 && |u| == |t| && t[n..] == u[n..] && Burst(Difference(t[..n], u[..n]), k, mask)
    ensures var t, u, n := Trim(raw1), Trim(raw2), |Trim(raw1)| - 4;
      AllZero(Difference(t[..n], u[..n]))
  {
    hide ParseKhqr, Checksum, Burst, AllZero, Trim, Upper;
    var t, u, n := Trim(raw1), Trim(raw2), |Trim(raw1)| - 4;
    AcceptedIsChecked(raw1);
    AcceptedIsChecked(raw2);
    BurstIsDetected(t[..n], u[..n], k, mask);
  }

  /**
   Retyping one character, or two adjacent ones, anywhere before the four checksum digits makes an
   accepted payload be rejected. The change must show in the low bytes, as it always does between
   characters that fit a byte, and must not bring in spaces that trimming would take for padding.
   */
  lemma {:induction false} RetypedIsRejected(lead: Str, t: Str, u: Str, trail: Str, k: nat)
    requires Blank(lead) && Blank(trail) && Framed(t) && Framed(u)
    requires ParseKhqr(lead + t + trail).Ok?
    requires AdjacentChange(t, u, k) && k + 1 < |t| - 4
    requires Xor(t[k], u[k]) & 0xFF != 0 || Xor(t[k + 1], u[k + 1]) & 0xFF != 0
    ensures ParseKhqr(lead + u + trail).Err?
  {
    hide ParseKhqr, Trim, IsSpace, Xor, Blank;
    TrimFramed(lead, t, trail);
    TrimFramed(lead, u, trail);
    AcceptedIsChecked(lead + t + trail);
    var n := |t| - 4;
    var d := Difference(t[..n], u[..n]);
    assert t[n..] == u[n..];
    LowChangeIsBurst(t[..n], u[..n], k);
    assert d[k] != 0 || d[k + 1] != 0;
    if ParseKhqr(lead + u + trail).Ok? {
      AcceptedAreFarApart(lead + t + trail, lead + u + trail, k, 0xFF);
    }
  }

  lemma {:induction false} LowChangeIsBurst(s: Str, t: Str, k: nat)
    requires AdjacentChange(s, t, k)
    ensures Burst(Difference(s, t), k, 0xFF)
  {
    var d := Difference(s, t);
    DifferenceIsBytes(s, t);
    forall i | 0 <= i < |d| ensures d[i] & 0xFF == d[i] && (s[i] == t[i] ==> d[i] == 0) {
      ByteMask(d[i]);
      XorZero(s[i], t[i]);
    }
  }
}
