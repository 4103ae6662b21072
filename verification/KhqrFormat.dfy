/**
 The KHQR format itself (apps/api/src/providers/khqr.util.ts), in the digits that stand in the code: which tag holds
 what in a built payload, and exactly which texts the parser accepts as what. The builder's field lists and the
 parser's lookups are compared with it and not with each other.
 */
module KhqrFormat {
  import opened Wrappers
  import opened Crc
  import opened Numerals
  import opened Currencies
  import opened Tlv
  import opened Khqr

  // ------------------------------------------------------------ the digits of the format

  function Code(c: char): Unit {
    match c
    case '0' => 48
    case '1' => 49
    case '2' => 50
    case '3' => 51
    case '4' => 52
    case '5' => 53
    case '6' => 54
    case '7' => 55
    case '8' => 56
    case '9' => 57
    case _ => 0
  }

  /** A number in its decimal digits. */
  function Digits(n: nat): Str {
    seq(|Numeral(n)|, i requires 0 <= i < |Numeral(n)| => Code(Numeral(n)[i]))
  }

  /** A tag, and every two-digit value: a leading zero below ten. */
  function Tag(n: nat): Str {
    if n < 10 then Digits(0) + Digits(n) else Digits(n)
  }

  /** A block holds this value under a tag, or nothing. */
  predicate Holds(m: map<Str, Str>, tag: nat, value: Option<Str>) {
    match value
    case None => Tag(tag) !in m
    case Some(v) => Tag(tag) in m && m[Tag(tag)] == v
  }

  /** An optional text that is there and not empty. */
  predicate HoldsGiven(m: map<Str, Str>, tag: nat, text: Option<Str>) {
    Holds(m, tag, if text == Some([]) then None else text)
  }

  /** The first `limit` characters of a text. */
  predicate CutTo(v: Str, text: Str, limit: nat) {
    v <= text && |v| == if |text| < limit then |text| else limit
  }

  /** A text that is there and not empty, cut. */
  predicate HoldsCut(m: map<Str, Str>, tag: nat, text: Option<Str>, limit: nat) {
    if text.None? || text.value == [] then Tag(tag) !in m
    else Tag(tag) in m && CutTo(m[Tag(tag)], text.value, limit)
  }

  predicate OnlyTags(m: map<Str, Str>, tags: seq<nat>) {
    forall k :: k in m ==> exists i :: 0 <= i < |tags| && k == Tag(tags[i])
  }

  /** The number of a two-digit tag. */
  function TagNumber(tag: Str): int {
    if |tag| == 2 && TwoValue(tag).Some? then TwoValue(tag).value else -1
  }

  /** Two-digit tags, each greater than the one before. */
  predicate Ascending(fs: seq<Field>) {
    && (forall i :: 0 <= i < |fs| ==> TagNumber(fs[i].tag) >= 0)
    && (forall i, k :: 0 <= i < k < |fs| ==> TagNumber(fs[i].tag) < TagNumber(fs[k].tag))
  }

  /** A text that reads as a block: its fields in ascending order, and the map of them. */
  predicate ReadsAs(block: Str, m: map<Str, Str>) {
    ParseFields(block).Ok? && Ascending(ParseFields(block).value) && m == AsMap(ParseFields(block).value)
  }

  // ------------------------------------------------------------ what is built

  /** Tag 29 or 30: who is paid. */
  predicate IsAccountBlock(p: Params, block: Str, m: map<Str, Str>) {
    && ReadsAs(block, m) && OnlyTags(m, [0, 1, 2])
    && Holds(m, 0, Some(p.bakongAccountId))
    && HoldsGiven(m, 1, if p.isMerchant then p.merchantId else p.accountInformation)
    && HoldsGiven(m, 2, p.acquiringBank)
  }

  /** Tag 62: bill number, mobile number, store label. */
  predicate IsAdditionalBlock(p: Params, block: Str, m: map<Str, Str>) {
    && ReadsAs(block, m) && OnlyTags(m, [1, 2, 3])
    && HoldsCut(m, 1, p.billNumber, 25)
    && HoldsCut(m, 2, p.mobileNumber, 25)
    && HoldsCut(m, 3, p.storeLabel, 25)
  }

  /** Tag 99: when the code was made and when it expires, in milliseconds. */
  predicate IsStampBlock(stamps: Stamps, block: Str, m: map<Str, Str>) {
    && ReadsAs(block, m) && OnlyTags(m, [0, 1])
    && Holds(m, 0, Some(Digits(stamps.created)))
    && Holds(m, 1, Some(Digits(stamps.expires)))
  }

  predicate NothingGiven(p: Params) {
    && (p.billNumber.None? || p.billNumber.value == [])
    && (p.mobileNumber.None? || p.mobileNumber.value == [])
    && (p.storeLabel.None? || p.storeLabel.value == [])
  }

  ghost predicate IsTopBlock(p: Params, body: Str, m: map<Str, Str>) {
    var account := if p.isMerchant then 30 else 29;
    && ReadsAs(body, m)
    && OnlyTags(m, [0, 1, account, 52, 53, 54, 58, 59, 60, 62, 99])
    && Holds(m, 0, Some(Tag(1)))
    && Holds(m, 1, Some(if p.amount.None? then Tag(11) else Tag(12)))
    && Tag(account) in m && (exists a :: IsAccountBlock(p, m[Tag(account)], a))
    && Holds(m, 52, Some(Digits(5999)))
    && Holds(m, 53, Some(if p.currency == USD then Digits(840) else Digits(116)))
    && Holds(m, 54, p.amount)
    && Holds(m, 58, Some([75, 72]))
    && Tag(59) in m && CutTo(m[Tag(59)], p.merchantName, 25)
    && Tag(60) in m && CutTo(m[Tag(60)], p.merchantCity, 15)
    && (Tag(62) in m <==> !NothingGiven(p))
    && (Tag(62) in m ==> exists a :: IsAdditionalBlock(p, m[Tag(62)], a))
    && (Tag(99) in m <==> p.amount.Some? && p.expiry.Some?)
    && (Tag(99) in m ==> exists a :: IsStampBlock(p.expiry.value, m[Tag(99)], a))
  }

  /** A payload: the top fields, and field 63 with the checksum of everything before its value. */
  ghost predicate IsPayload(p: Params, qr: Str) {
    exists body, m :: IsTopBlock(p, body, m) && qr == body + Digits(6304) + Checksum(body + Digits(6304))
  }

  // ------------------------------------------------------------ tags

  lemma {:induction false} CodeOfDigit(d: nat)
    requires d < 10
    ensures Code(DigitChar(d)) == Digit(d)
  {
    if d < 5 {
    } else {
    }
  }

  lemma {:induction false} DecimalIsDigits(n: nat)
    ensures Decimal(n) == Digits(n)
  {
    hide Code, Digit;
    forall i | 0 <= i < |DecimalDigits(n)| ensures Decimal(n)[i] == Digits(n)[i] {
      CodeOfDigit(DecimalDigits(n)[i]);
    }
  }

  lemma {:induction false} TagIsTwo(n: nat)
    requires n < 100
    ensures Tag(n) == Two(n)
  {
    DecimalIsDigits(n);
    DecimalIsDigits(0);
    PaddedIsTwo(n);
    assert n >= 10 ==> |DecimalDigits(n)| == 2;
    assert n < 10 ==> |DecimalDigits(n)| == 1;
    assert Decimal(0) == [Digit(0)];
    hide Digits, Digit, Two;
  }

  lemma {:induction false} ThreeDigits(a: nat, b: nat, c: nat)
    requires 0 < a < 10 && b < 10 && c < 10
    ensures DecimalDigits(100 * a + 10 * b + c) == [a, b, c]
  {
    var n := 100 * a + 10 * b + c;
    assert n / 10 == 10 * a + b && n % 10 == c;
    assert n / 10 / 10 == a && n / 10 % 10 == b;
    assert DecimalDigits(a) == [a];
    assert DecimalDigits(n / 10) == [a] + [b];
  }

  lemma {:induction false} FourDigits(a: nat, b: nat, c: nat, d: nat)
    requires 0 < a < 10 && b < 10 && c < 10 && d < 10
    ensures DecimalDigits(1000 * a + 100 * b + 10 * c + d) == [a, b, c, d]
  {
    var n := 1000 * a + 100 * b + 10 * c + d;
    ThreeDigits(a, b, c);
    assert n / 10 == 100 * a + 10 * b + c && n % 10 == d;
  }

  lemma {:induction false} FourDigitTexts()
    ensures Digits(5999) == Two(59) + Two(99) && Digits(6304) == CrcHeader()
  {
    DecimalIsDigits(5999);
    DecimalIsDigits(6304);
    FourDigits(5, 9, 9, 9);
    FourDigits(6, 3, 0, 4);
    hide Digits, Digit, DecimalDigits;
  }

  lemma {:induction false} CurrencyTexts()
    ensures Digits(840) == CurrencyCode(USD) && Digits(116) == CurrencyCode(KHR)
  {
    DecimalIsDigits(840);
    DecimalIsDigits(116);
    ThreeDigits(8, 4, 0);
    ThreeDigits(1, 1, 6);
    hide Digits, Digit, DecimalDigits;
  }

  lemma {:induction false} Texts()
    ensures Digits(5999) == Two(59) + Two(99) && Digits(6304) == CrcHeader()
    ensures Digits(840) == CurrencyCode(USD) && Digits(116) == CurrencyCode(KHR)
  {
    hide *;
    FourDigitTexts();
    CurrencyTexts();
  }

  lemma {:induction false} HoldsIff(m: map<Str, Str>, tag: nat, value: Option<Str>)
    requires tag < 100
    ensures Holds(m, tag, value) <==> Get(m, tag) == value
  {
    TagIsTwo(tag);
    hide Tag, Two;
  }

  // ------------------------------------------------------------ fields in order

  /** Fields in ascending order, with tags below n. */
  predicate Below(fs: seq<Field>, n: nat) {
    Ascending(fs) && forall i :: 0 <= i < |fs| ==> TagNumber(fs[i].tag) < n
  }

  lemma {:induction false} NumberOfTwo(tag: nat)
    requires tag < 100
    ensures TagNumber(Two(tag)) == tag
  {
    TwoRoundTrip(tag);
  }

  lemma {:induction false} AddAscends(fs: seq<Field>, c: bool, tag: nat, value: Str)
    requires tag < 100 && Below(fs, tag)
    ensures Below(AddIf(fs, c, tag, value), tag + 1)
  {
    hide Two, TwoValue, TagNumber;
    NumberOfTwo(tag);
  }

  lemma {:induction false} Rises(fs: seq<Field>, n: nat, m: nat)
    requires Below(fs, n) && n <= m
    ensures Below(fs, m)
  {
    hide TagNumber;
  }

  lemma {:induction false} NoFieldsInOrder()
    ensures Below([], 0) && Below([], 1) && Within([], [])
  {
  }

  /** All fields have one of these tags. */
  predicate Within(fs: seq<Field>, tags: seq<nat>) {
    forall i :: 0 <= i < |fs| ==> Among(fs[i].tag, tags)
  }

  predicate Among(tag: Str, tags: seq<nat>) {
    exists i :: 0 <= i < |tags| && tag == Tag(tags[i])
  }

  lemma {:induction false} AddWithin(fs: seq<Field>, tags: seq<nat>, c: bool, tag: nat, value: Str, more: seq<nat>)
    requires tag < 100 && Within(fs, tags) && more == tags + [tag]
    ensures Within(AddIf(fs, c, tag, value), more)
  {
    TagIsTwo(tag);
    hide Two, Tag;
    assert more[|tags|] == tag;
    forall k | Among(k, tags) ensures Among(k, more) {
      var i :| 0 <= i < |tags| && k == Tag(tags[i]);
      assert more[i] == tags[i];
    }
  }

  lemma {:induction false} KeysAreTags(fs: seq<Field>, k: Str)
    requires k in AsMap(fs)
    ensures exists i :: 0 <= i < |fs| && fs[i].tag == k
  {
    var n := |fs| - 1;
    if fs[n].tag != k {
      KeysAreTags(fs[..n], k);
      var i :| 0 <= i < n && fs[..n][i].tag == k;
      assert fs[i].tag == k;
    }
  }

  /** Fields that fit, in order, read as their map. */
  lemma {:induction false} ReadsBack(fs: seq<Field>, tags: seq<nat>)
    requires AllFit(fs) && Ascending(fs) && Within(fs, tags)
    ensures ReadsAs(Print(fs), AsMap(fs)) && OnlyTags(AsMap(fs), tags)
  {
    hide Tag, Ascending, AllFit, ParseFields, Print, AsMap;
    ParsePrint(fs);
    forall k | k in AsMap(fs) ensures exists i :: 0 <= i < |tags| && k == Tag(tags[i]) {
      KeysAreTags(fs, k);
      var j :| 0 <= j < |fs| && fs[j].tag == k;
      assert Among(fs[j].tag, tags);
    }
  }

  // ------------------------------------------------------------ the inner blocks

  lemma {:induction false} AccountOrder(p: Params)
    ensures Ascending(AccountFields(p)) && Within(AccountFields(p), [0, 1, 2])
  {
    hide AddIf, Within, Ascending;
    var sub := if p.isMerchant then p.merchantId else p.accountInformation;
    var f1 := Add([], 0, p.bakongAccountId);
    var f2 := AddIf(f1, Given(sub), 1, TextOf(sub));
    NoFieldsInOrder();
    AddAscends([], true, 0, p.bakongAccountId);
    AddAscends(f1, Given(sub), 1, TextOf(sub));
    AddAscends(f2, Given(p.acquiringBank), 2, TextOf(p.acquiringBank));
    AddWithin([], [], true, 0, p.bakongAccountId, [0]);
    AddWithin(f1, [0], Given(sub), 1, TextOf(sub), [0, 1]);
    AddWithin(f2, [0, 1], Given(p.acquiringBank), 2, TextOf(p.acquiringBank), [0, 1, 2]);
  }

  lemma {:induction false} AccountBlock(p: Params)
    requires |Print(AccountFields(p))| <= 99
    ensures IsAccountBlock(p, Print(AccountFields(p)), AsMap(AccountFields(p)))
  {
    hide AccountFields, Print, AsMap, Ascending, Within, AllFit, Tag, Two, Get, Holds, ReadsAs, OnlyTags, ParseFields;
    var m := AsMap(AccountFields(p));
    var sub := if p.isMerchant then p.merchantId else p.accountInformation;
    AccountGet(p);
    AccountFits(p);
    AccountOrder(p);
    ReadsBack(AccountFields(p), [0, 1, 2]);
    HoldsIff(m, 0, Some(p.bakongAccountId));
    HoldsIff(m, 1, NonEmpty(sub));
    HoldsIff(m, 2, NonEmpty(p.acquiringBank));
  }

  lemma {:induction false} AdditionalOrder(p: Params)
    ensures Ascending(AdditionalFields(p)) && Within(AdditionalFields(p), [1, 2, 3]) && AllFit(AdditionalFields(p))
  {
    hide AddIf, Within, Ascending, AllFit;
    var b, m, l := Slice(TextOf(p.billNumber), 25), Slice(TextOf(p.mobileNumber), 25), Slice(TextOf(p.storeLabel), 25);
    var f1 := AddIf([], Given(p.billNumber), 1, b);
    var f2 := AddIf(f1, Given(p.mobileNumber), 2, m);
    NoFieldsInOrder();
    NoneFit();
    AddAscends([], Given(p.billNumber), 1, b);
    Rises(f1, 2, 2);
    AddAscends(f1, Given(p.mobileNumber), 2, m);
    AddAscends(f2, Given(p.storeLabel), 3, l);
    AddWithin([], [], Given(p.billNumber), 1, b, [1]);
    AddWithin(f1, [1], Given(p.mobileNumber), 2, m, [1, 2]);
    AddWithin(f2, [1, 2], Given(p.storeLabel), 3, l, [1, 2, 3]);
    FitAdd([], Given(p.billNumber), 1, b);
    FitAdd(f1, Given(p.mobileNumber), 2, m);
    FitAdd(f2, Given(p.storeLabel), 3, l);
  }

  lemma {:induction false} AdditionalIffGiven(p: Params)
    ensures AdditionalFields(p) == [] <==> NothingGiven(p)
  {
    hide Slice;
  }

  lemma {:induction false} AdditionalGet(p: Params, n: nat)
    requires n < 100
    ensures Get(AsMap(AdditionalFields(p)), n) ==
      if n == 1 && Given(p.billNumber) then Some(Slice(TextOf(p.billNumber), 25))
      else if n == 2 && Given(p.mobileNumber) then Some(Slice(TextOf(p.mobileNumber), 25))
      else if n == 3 && Given(p.storeLabel) then Some(Slice(TextOf(p.storeLabel), 25))
      else None
  {
    hide Get, AsMap, AddIf, Two, Slice;
    var b, m, l := Slice(TextOf(p.billNumber), 25), Slice(TextOf(p.mobileNumber), 25), Slice(TextOf(p.storeLabel), 25);
    var f1 := AddIf([], Given(p.billNumber), 1, b);
    var f2 := AddIf(f1, Given(p.mobileNumber), 2, m);
    GetNone(n);
    GetAdd([], Given(p.billNumber), 1, b, n);
    GetAdd(f1, Given(p.mobileNumber), 2, m, n);
    GetAdd(f2, Given(p.storeLabel), 3, l, n);
  }

  lemma {:induction false} SliceCuts(text: Str, n: nat)
    ensures CutTo(Slice(text, n), text, n)
  {
  }

  lemma {:induction false} CutHolds(m: map<Str, Str>, tag: nat, text: Option<Str>, limit: nat)
    requires tag < 100 && Get(m, tag) == if Given(text) then Some(Slice(TextOf(text), limit)) else None
    ensures HoldsCut(m, tag, text, limit)
  {
    TagIsTwo(tag);
    SliceCuts(TextOf(text), limit);
    hide Tag, Two, Slice, CutTo;
  }

  lemma {:induction false} AdditionalBlock(p: Params)
    ensures IsAdditionalBlock(p, Print(AdditionalFields(p)), AsMap(AdditionalFields(p)))
  {
    var m := AsMap(AdditionalFields(p));
    AdditionalOrder(p);
    AdditionalGet(p, 1);
    AdditionalGet(p, 2);
    AdditionalGet(p, 3);
    hide AdditionalFields, Print, AsMap, Ascending, Within, AllFit, Tag, Get, HoldsCut, ReadsAs, OnlyTags, Slice;
    ReadsBack(AdditionalFields(p), [1, 2, 3]);
    CutHolds(m, 1, p.billNumber, 25);
    CutHolds(m, 2, p.mobileNumber, 25);
    CutHolds(m, 3, p.storeLabel, 25);
  }

  lemma {:induction false} StampOrder(p: Params)
    requires Dated(p)
    ensures Ascending(StampFields(p)) && Within(StampFields(p), [0, 1]) && AllFit(StampFields(p))
  {
    hide AddIf, Within, Ascending, AllFit, Decimal;
    var created, expires := Decimal(p.expiry.value.created), Decimal(p.expiry.value.expires);
    var f1 := Add([], 0, created);
    NoFieldsInOrder();
    NoneFit();
    MillisWidth(p.expiry.value.created);
    MillisWidth(p.expiry.value.expires);
    AddAscends([], true, 0, created);
    AddAscends(f1, true, 1, expires);
    AddWithin([], [], true, 0, created, [0]);
    AddWithin(f1, [0], true, 1, expires, [0, 1]);
    FitAdd([], true, 0, created);
    FitAdd(f1, true, 1, expires);
  }

  lemma {:induction false} StampGet(p: Params, n: nat)
    requires Dated(p) && n < 2
    ensures Get(AsMap(StampFields(p)), n)
      == Some(Decimal(if n == 0 then p.expiry.value.created else p.expiry.value.expires))
  {
    hide Get, AsMap, AddIf, Two, Decimal;
    var created, expires := Decimal(p.expiry.value.created), Decimal(p.expiry.value.expires);
    GetNone(n);
    GetAdd([], true, 0, created, n);
    GetAdd(Add([], 0, created), true, 1, expires, n);
  }

  lemma {:induction false} StampBlock(p: Params)
    requires Dated(p)
    ensures IsStampBlock(p.expiry.value, Print(StampFields(p)), AsMap(StampFields(p)))
  {
    var m := AsMap(StampFields(p));
    StampOrder(p);
    StampGet(p, 0);
    StampGet(p, 1);
    DecimalIsDigits(p.expiry.value.created);
    DecimalIsDigits(p.expiry.value.expires);
    hide StampFields, Print, AsMap, Ascending, Within, AllFit, Tag, Get, Holds, ReadsAs, OnlyTags, Digits, Decimal;
    ReadsBack(StampFields(p), [0, 1]);
    HoldsIff(m, 0, Some(Digits(p.expiry.value.created)));
    HoldsIff(m, 1, Some(Digits(p.expiry.value.expires)));
  }

  // ------------------------------------------------------------ the payload

  lemma {:induction false} HeadOrder(p: Params)
    ensures Below(HeadFields(p), 53) && Within(HeadFields(p), [0, 1, AccountTag(p), 52])
  {
    hide AddIf, Within, Below, Two, Print, AccountFields;
    var t := AccountTag(p);
    var f1 := Add([], 0, Two(1));
    var v2 := if p.amount.None? then Two(11) else Two(12);
    var f2 := Add(f1, 1, v2);
    var f3 := Add(f2, t, Print(AccountFields(p)));
    NoFieldsInOrder();
    AddAscends([], true, 0, Two(1));
    AddAscends(f1, true, 1, v2);
    Rises(f2, 2, t);
    AddAscends(f2, true, t, Print(AccountFields(p)));
    Rises(f3, t + 1, 52);
    AddAscends(f3, true, 52, Two(59) + Two(99));
    AddWithin([], [], true, 0, Two(1), [0]);
    AddWithin(f1, [0], true, 1, v2, [0, 1]);
    AddWithin(f2, [0, 1], true, t, Print(AccountFields(p)), [0, 1, t]);
    AddWithin(f3, [0, 1, t], true, 52, Two(59) + Two(99), [0, 1, t, 52]);
  }

  lemma {:induction false} MidOrder(p: Params)
    ensures Below(MidFields(p), 59) && Within(MidFields(p), [0, 1, AccountTag(p), 52, 53, 54, 58])
  {
    HeadOrder(p);
    hide AddIf, Within, Below, HeadFields, CurrencyCode;
    var t := AccountTag(p);
    var f1 := Add(HeadFields(p), 53, CurrencyCode(p.currency));
    var f2 := AddIf(f1, p.amount.Some?, 54, TextOf(p.amount));
    AddAscends(HeadFields(p), true, 53, CurrencyCode(p.currency));
    AddAscends(f1, p.amount.Some?, 54, TextOf(p.amount));
    Rises(f2, 55, 58);
    AddAscends(f2, true, 58, COUNTRY_CODE);
    AddWithin(HeadFields(p), [0, 1, t, 52], true, 53, CurrencyCode(p.currency), [0, 1, t, 52, 53]);
    AddWithin(f1, [0, 1, t, 52, 53], p.amount.Some?, 54, TextOf(p.amount), [0, 1, t, 52, 53, 54]);
    AddWithin(f2, [0, 1, t, 52, 53, 54], true, 58, COUNTRY_CODE, [0, 1, t, 52, 53, 54, 58]);
  }

  lemma {:induction false} TopOrder(p: Params)
    ensures Ascending(TopFields(p)) && Within(TopFields(p), [0, 1, AccountTag(p), 52, 53, 54, 58, 59, 60, 62, 99])
  {
    MidOrder(p);
    hide AddIf, Within, Ascending, MidFields, Slice, AdditionalFields, StampFields, Print;
    var name, city := Slice(p.merchantName, 25), Slice(p.merchantCity, 15);
    var f4 := Add(MidFields(p), 59, name);
    var f5 := Add(f4, 60, city);
    var f6 := AddIf(f5, AdditionalFields(p) != [], 62, Print(AdditionalFields(p)));
    AddAscends(MidFields(p), true, 59, name);
    AddAscends(f4, true, 60, city);
    Rises(f5, 61, 62);
    AddAscends(f5, AdditionalFields(p) != [], 62, Print(AdditionalFields(p)));
    Rises(f6, 63, 99);
    AddAscends(f6, Dated(p), 99, Print(StampFields(p)));
    var t := [0, 1, AccountTag(p), 52, 53, 54, 58];
    AddWithin(MidFields(p), t, true, 59, name, t + [59]);
    AddWithin(f4, t + [59], true, 60, city, t + [59, 60]);
    AddWithin(f5, t + [59, 60], AdditionalFields(p) != [], 62, Print(AdditionalFields(p)), t + [59, 60, 62]);
    AddWithin(f6, t + [59, 60, 62], Dated(p), 99, Print(StampFields(p)), t + [59, 60, 62, 99]);
    assert t + [59, 60, 62, 99] == [0, 1, AccountTag(p), 52, 53, 54, 58, 59, 60, 62, 99];
  }

  /** Under any tag the top fields hold what `TopValue` says. */
  lemma {:induction false} TopHolds(p: Params, tag: nat, value: Option<Str>)
    requires tag < 100 && value == TopValue(p, tag)
    ensures Holds(AsMap(TopFields(p)), tag, value)
  {
    TopGet(p, tag);
    hide TopValue, TopFields, AsMap, Get, Holds;
    HoldsIff(AsMap(TopFields(p)), tag, value);
  }

  lemma {:induction false} PlainValues(p: Params)
    ensures var m := AsMap(TopFields(p));
      && Holds(m, 0, Some(Tag(1)))
      && Holds(m, 1, Some(if p.amount.None? then Tag(11) else Tag(12)))
      && Holds(m, AccountTag(p), Some(Print(AccountFields(p))))
      && Holds(m, 52, Some(Digits(5999)))
      && Holds(m, 53, Some(if p.currency == USD then Digits(840) else Digits(116)))
      && Holds(m, 54, p.amount)
      && Holds(m, 58, Some([75, 72]))
  {
    hide TopFields, Print, AsMap, Two, Tag, Digits, Holds, AdditionalFields, AccountFields, StampFields, CurrencyCode,
      CrcHeader, Slice, Get, Decimal;
    Texts();
    TagIsTwo(1);
    TagIsTwo(11);
    TagIsTwo(12);
    TopHolds(p, 0, Some(Tag(1)));
    TopHolds(p, 1, Some(if p.amount.None? then Tag(11) else Tag(12)));
    TopHolds(p, AccountTag(p), Some(Print(AccountFields(p))));
    TopHolds(p, 52, Some(Digits(5999)));
    TopHolds(p, 53, Some(if p.currency == USD then Digits(840) else Digits(116)));
    TopHolds(p, 54, p.amount);
    TopHolds(p, 58, Some([75, 72]));
  }

  lemma {:induction false} TextValues(p: Params)
    ensures var m := AsMap(TopFields(p));
      && Holds(m, 59, Some(Slice(p.merchantName, 25)))
      && Holds(m, 60, Some(Slice(p.merchantCity, 15)))
      && Holds(m, 62, if AdditionalFields(p) == [] then None else Some(Print(AdditionalFields(p))))
      && Holds(m, 99, if Dated(p) then Some(Print(StampFields(p))) else None)
  {
    OnlyOwnTags(p);
    hide TopFields, Print, AsMap, Two, Holds, AdditionalFields, AccountFields, StampFields, MidValue, Slice;
    TopHolds(p, 59, Some(Slice(p.merchantName, 25)));
    TopHolds(p, 60, Some(Slice(p.merchantCity, 15)));
    TopHolds(p, 62, if AdditionalFields(p) == [] then None else Some(Print(AdditionalFields(p))));
    TopHolds(p, 99, if Dated(p) then Some(Print(StampFields(p))) else None);
  }

  /**
   What is built is a payload of the format: every tag holds what the format says, in ascending order and nothing
   besides, the blocks within 29 or 30, 62 and 99 included, and the checksum closes it.
   */
  lemma {:induction false} BuiltIsPayload(p: Params)
    requires FitsFormat(p)
    ensures IsPayload(p, BakongPayload(p))
  {
    hide TopFields, Print, AsMap, Ascending, Within, AllFit, Tag, Two, Digits, Slice, CutTo, AdditionalFields, ReadsAs,
      OnlyTags, AccountFields, StampFields, IsAccountBlock, IsAdditionalBlock, IsStampBlock, NothingGiven, Checksum,
      CrcHeader;
    var body, m := Print(TopFields(p)), AsMap(TopFields(p));
    TopFits(p);
    TopOrder(p);
    PlainValues(p);
    TextValues(p);
    Texts();
    AccountBlock(p);
    AdditionalBlock(p);
    AdditionalIffGiven(p);
    if Dated(p) {
      StampBlock(p);
    }
    SliceCuts(p.merchantName, 25);
    SliceCuts(p.merchantCity, 15);
    ReadsBack(TopFields(p), [0, 1, AccountTag(p), 52, 53, 54, 58, 59, 60, 62, 99]);
    assert IsTopBlock(p, body, m);
  }

  /** The lengths a caller has to keep, in characters. */
  lemma {:induction false} FitsFormatIff(p: Params)
    ensures var sub := if p.isMerchant then p.merchantId else p.accountInformation;
      FitsFormat(p) <==>
        && 4 + |p.bakongAccountId|
             + (if sub.None? || sub.value == [] then 0 else 4 + |sub.value|)
             + (if p.acquiringBank.None? || p.acquiringBank.value == [] then 0 else 4 + |p.acquiringBank.value|) <= 99
        && (p.amount.Some? ==> |p.amount.value| <= 99)
  {
    var sub := if p.isMerchant then p.merchantId else p.accountInformation;
    var f1 := Add([], 0, p.bakongAccountId);
    var f2 := AddIf(f1, Given(sub), 1, TextOf(sub));
    PrintNone();
    hide Print, AddIf, AllFit;
    FitAdd([], true, 0, p.bakongAccountId);
    FitAdd(f1, Given(sub), 1, TextOf(sub));
    FitAdd(f2, Given(p.acquiringBank), 2, TextOf(p.acquiringBank));
  }

  // ------------------------------------------------------------ what is accepted

  /** White space and line ends, as the platform counts them. */
  predicate IsBlank(u: Unit) {
    || 9 <= u <= 13 || u == 32 || u == 160 || u == 5760 || 8192 <= u <= 8202 || u == 8232 || u == 8233 || u == 8239
    || u == 8287 || u == 12288 || u == 65279
  }

  lemma {:induction false} BlankIsSpace(u: Unit)
    ensures IsBlank(u) <==> IsSpace(u)
  {
  }

  /** A name and a bank with one `@` between them, and no `@` or blank in either. */
  ghost predicate IsNameAtBank(id: Str) {
    exists name, bank :: name != [] && bank != [] && Plain(name) && Plain(bank) && id == name + [64] + bank
  }

  predicate Plain(s: Str) {
    forall i :: 0 <= i < |s| ==> s[i] != 64 && !IsBlank(s[i])
  }

  lemma {:induction false} NameAtBankIff(id: Str)
    ensures NameAtBank(id) <==> IsNameAtBank(id)
  {
    hide IsSpace, IsBlank;
    forall u { BlankIsSpace(u); }
    if NameAtBank(id) {
      var k :| 0 < k < |id| - 1 && id[k] == AT
        && forall i :: 0 <= i < |id| && i != k ==> id[i] != AT && !IsSpace(id[i]);
      assert Plain(id[..k]) && Plain(id[k + 1..]) && id == id[..k] + [64] + id[k + 1..];
    }
    forall name, bank | name != [] && bank != [] && Plain(name) && Plain(bank) && id == name + [64] + bank
      ensures NameAtBank(id)
    {
      var k := |name|;
      assert id[k] == AT;
      forall i | 0 <= i < |id| && i != k ensures id[i] != AT && !IsSpace(id[i]) {
        assert id[i] == if i < k then name[i] else bank[i - k - 1];
      }
    }
  }

  /** Blanks around a text are not read. */
  lemma {:induction false} BlanksAreTrimmed(lead: Str, t: Str, trail: Str)
    requires forall i :: 0 <= i < |lead| ==> IsBlank(lead[i])
    requires forall i :: 0 <= i < |trail| ==> IsBlank(trail[i])
    requires t != [] && !IsBlank(t[0]) && !IsBlank(t[|t| - 1])
    ensures Trim(lead + t + trail) == t
  {
    hide IsSpace, IsBlank, Trim;
    forall u { BlankIsSpace(u); }
    TrimFramed(lead, t, trail);
  }

  /** The same text with its small letters made capital. */
  predicate IsUpperOf(upper: Str, s: Str) {
    && |upper| == |s|
    && forall i :: 0 <= i < |s| ==> upper[i] == if 97 <= s[i] <= 122 then s[i] - 32 else s[i]
  }

  lemma {:induction false} UpperIff(upper: Str, s: Str)
    ensures Upper(s) == upper <==> IsUpperOf(upper, s)
  {
  }

  /** What the tags of a body say, when they say enough: an indicator, a point of initiation, a payee in Cambodia. */
  ghost predicate SaysIn(body: Str, r: ParsedKhqr, m: map<Str, Str>, a: map<Str, Str>) {
    var account := if r.isMerchant then 30 else 29;
    && Parsed(body) == Ok(m)
    && Holds(m, 0, Some(Tag(1)))
    && Holds(m, 1, Some(if r.isStatic then Tag(11) else Tag(12)))
    && (r.isMerchant <==> Tag(30) in m)
    && Tag(account) in m && m[Tag(account)] != [] && Parsed(m[Tag(account)]) == Ok(a)
    && Holds(a, 0, Some(r.bakongAccountId)) && IsNameAtBank(r.bakongAccountId)
    && Holds(a, 1, r.accountInformation)
    && r.merchantId == (if r.isMerchant then r.accountInformation else None)
    && Holds(a, 2, r.acquiringBank)
    && (Tag(58) in m && m[Tag(58)] != [] ==> IsUpperOf([75, 72], m[Tag(58)]))
    && Holds(m, 54, r.amount) && Holds(m, 59, r.merchantName) && Holds(m, 60, r.merchantCity)
    && r.currency == (if Holds(m, 53, Some(Digits(840))) then Some(USD)
                      else if Holds(m, 53, Some(Digits(116))) then Some(KHR) else None)
  }

  ghost predicate Says(body: Str, r: ParsedKhqr) {
    exists m, a :: SaysIn(body, r, m, a)
  }

  lemma {:induction false} CurrencyIff(m: map<Str, Str>)
    ensures (if Given(Get(m, 53)) then CodeToCurrency(Get(m, 53).value) else None) ==
      if Holds(m, 53, Some(Digits(840))) then Some(USD)
      else if Holds(m, 53, Some(Digits(116))) then Some(KHR) else None
  {
    Texts();
    Constants(USD);
    Constants(KHR);
    HoldsIff(m, 53, Some(Digits(840)));
    HoldsIff(m, 53, Some(Digits(116)));
    hide Digits, CurrencyCode, Get, Holds;
  }

  lemma {:induction false} TopLookups(m: map<Str, Str>, r: ParsedKhqr)
    ensures Holds(m, 0, Some(Tag(1))) <==> Get(m, 0) == Some(Two(1))
    ensures Holds(m, 1, Some(Tag(11))) <==> Get(m, 1) == Some(Two(11))
    ensures Holds(m, 1, Some(Tag(12))) <==> Get(m, 1) == Some(Two(12))
    ensures Two(11) != Two(12)
    ensures Holds(m, 54, r.amount) <==> Get(m, 54) == r.amount
    ensures Holds(m, 59, r.merchantName) <==> Get(m, 59) == r.merchantName
    ensures Holds(m, 60, r.merchantCity) <==> Get(m, 60) == r.merchantCity
  {
    TagIsTwo(1);
    TagIsTwo(11);
    TagIsTwo(12);
    TwoInjective(11, 12);
    HoldsIff(m, 0, Some(Tag(1)));
    HoldsIff(m, 1, Some(Tag(11)));
    HoldsIff(m, 1, Some(Tag(12)));
    HoldsIff(m, 54, r.amount);
    HoldsIff(m, 59, r.merchantName);
    HoldsIff(m, 60, r.merchantCity);
    hide Two, Tag, Get, Holds;
  }

  lemma {:induction false} Presence(m: map<Str, Str>, tag: nat)
    requires tag < 100
    ensures Get(m, tag) == if Tag(tag) in m then Some(m[Tag(tag)]) else None
  {
    TagIsTwo(tag);
    hide Two, Tag;
  }

  lemma {:induction false} CountryIff(m: map<Str, Str>)
    ensures Given(Get(m, 58)) && Upper(Get(m, 58).value) != COUNTRY_CODE <==>
      !(Tag(58) in m && m[Tag(58)] != [] ==> IsUpperOf([75, 72], m[Tag(58)]))
  {
    hide Two, Tag, Get, Upper, IsUpperOf;
    Presence(m, 58);
    if Tag(58) in m {
      UpperIff([75, 72], m[Tag(58)]);
    }
  }

  lemma {:induction false} AccountIff(m: map<Str, Str>, a: map<Str, Str>, r: ParsedKhqr)
    requires Get(m, 0) == Some(Two(1)) && (Get(m, 1) == Some(Two(11)) || Get(m, 1) == Some(Two(12)))
    ensures InterpretAccount(m, a) == Ok(r) <==>
      && r.isStatic == (Get(m, 1) == Some(Two(11)))
      && (r.isMerchant <==> Tag(30) in m)
      && Holds(a, 0, Some(r.bakongAccountId)) && IsNameAtBank(r.bakongAccountId)
      && Holds(a, 1, r.accountInformation)
      && r.merchantId == (if r.isMerchant then r.accountInformation else None)
      && Holds(a, 2, r.acquiringBank)
      && (Tag(58) in m && m[Tag(58)] != [] ==> IsUpperOf([75, 72], m[Tag(58)]))
      && Holds(m, 54, r.amount) && Holds(m, 59, r.merchantName) && Holds(m, 60, r.merchantCity)
      && r.currency == (if Holds(m, 53, Some(Digits(840))) then Some(USD)
                        else if Holds(m, 53, Some(Digits(116))) then Some(KHR) else None)
  {
    hide Two, Tag, Digits, Get, Holds, NameAtBank, IsNameAtBank, Upper, IsUpperOf, CodeToCurrency, IsSpace,
      CurrencyCode, TwoValue;
    CurrencyIff(m);
    TopLookups(m, r);
    Presence(m, 30);
    HoldsIff(a, 0, Some(r.bakongAccountId));
    HoldsIff(a, 1, r.accountInformation);
    HoldsIff(a, 2, r.acquiringBank);
    NameAtBankIff(r.bakongAccountId);
    NamesAreNotEmpty(r.bakongAccountId);
    CountryIff(m);
  }

  lemma {:induction false} NamesAreNotEmpty(s: Str)
    ensures NameAtBank(s) ==> s != []
  {
  }

  /** The checks on the fields accept exactly the bodies that say enough, and read what they say. */
  lemma {:induction false} InterpretIff(body: Str, r: ParsedKhqr)
    ensures Parsed(body).Ok? && Interpret(Parsed(body).value) == Ok(r) <==> Says(body, r)
  {
    hide Two, Tag, Digits, Get, Holds, NameAtBank, IsNameAtBank, Upper, IsUpperOf, Parsed, InterpretAccount;
    if Parsed(body).Ok? {
      var m := Parsed(body).value;
      TopLookups(m, r);
      Presence(m, 29);
      Presence(m, 30);
      if Get(m, 0) == Some(Two(1)) && (Get(m, 1) == Some(Two(11)) || Get(m, 1) == Some(Two(12))) {
        var block := if Tag(30) in m then Get(m, 30) else Get(m, 29);
        if block.Some? && Parsed(block.value).Ok? {
          AccountIff(m, Parsed(block.value).value, r);
          if Interpret(m) == Ok(r) {
            assert SaysIn(body, r, m, Parsed(block.value).value);
          }
        }
      }
    }
  }

  /** A text, between blanks, of a body, the header of field 63, and its checksum in upper or lower case. */
  predicate Sealed(raw: Str, body: Str, h: Str) {
    && |h| == 4 && Trim(raw) == body + Digits(6304) + h && h != Digits(6304)
    && IsUpperOf(Checksum(body + Digits(6304)), h)
  }

  lemma {:induction false} LongEnough(body: Str, r: ParsedKhqr)
    requires Says(body, r)
    ensures |body| >= 4
  {
    var m, a :| SaysIn(body, r, m, a);
    assert Parsed([]) == Ok(map[]);
  }

  /**
   Acceptance, exactly, for any text: it is accepted as `r` if and only if it is a body that says so, closed by its
   own checksum, and those four digits are not the header over again.
   */
  lemma {:induction false} ParsesIff(raw: Str, r: ParsedKhqr)
    ensures ParseKhqr(raw) == Ok(r) <==> exists body, h :: Sealed(raw, body, h) && Says(body, r)
  {
    var qr := Trim(raw);
    Texts();
    HeaderIs6304();
    hide Trim, Checksum, Upper, IsUpperOf, Says, Digits, CrcHeader, LastIndexOf, Parsed, Interpret;
    if ParseKhqr(raw) == Ok(r) {
      var n := |qr| - 8;
      var body, h := qr[..n], qr[n + 4..];
      LastIndexSpec(qr, CrcHeader());
      assert qr[..n + 4] == body + CrcHeader();
      assert qr == body + CrcHeader() + h;
      LastHeader(body, h);
      InterpretIff(body, r);
      UpperIff(Checksum(body + CrcHeader()), h);
      assert Sealed(raw, body, h);
    }
    forall body, h | Sealed(raw, body, h) && Says(body, r) ensures ParseKhqr(raw) == Ok(r) {
      LongEnough(body, r);
      LastHeader(body, h);
      UpperIff(Checksum(body + CrcHeader()), h);
      assert qr[..|qr| - 4] == body + CrcHeader() && qr[..|qr| - 8] == body && qr[|qr| - 4..] == h;
      InterpretIff(body, r);
    }
  }
}
