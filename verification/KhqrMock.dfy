/**
 The mock provider's codes (apps/api/src/providers/khqr.util.ts, buildMockKhqr): an instance of the
 format that the real builder prints.
 */
module KhqrMock {
  import opened Wrappers
  import opened Crc
  import opened Currencies
  import opened Tlv
  import opened Khqr
  import opened KhqrFormat

  datatype MockParams = MockParams(
    merchantName: Str, merchantCity: Str, amount: Str, currency: PaymentCurrency,
    billNumber: Option<Str>, storeLabel: Option<Str>)

  /** `mock@paykh` */
  function MockAccount(): Str {
    [109, 111, 99, 107, 64, 112, 97, 121, 107, 104]
  }

  /** `PayKH Mock Acquirer` */
  function MockAcquirer(): Str {
    [80, 97, 121, 75, 72, 32, 77, 111, 99, 107, 32, 65, 99, 113, 117, 105, 114, 101, 114]
  }

  /** The mock provider prints what the real builder prints for this individual account. */
  function MockAs(m: MockParams): Params {
    Params(
      MockAccount(), m.merchantName, m.merchantCity, Some(m.amount), m.currency, Some(MockAcquirer()), None, None,
      m.billNumber, None, m.storeLabel, false, None)
  }

  method BuildMockKhqr(m: MockParams) returns (qrString: Str)
    ensures qrString == BakongPayload(MockAs(m))
  {
    hide Print, TlvText, Slice, Two, Checksum, CurrencyCode, MockAccount, MockAcquirer;
    hide AccountFields, AdditionalFields, HeadFields, MidFields, TopFields, CrcHeader;
    var p := MockAs(m);
    MockAccountText(m);
    HeadText(p);
    MidText(p);
    TopText(p);
    var merchantAccount := TlvText(0, MockAccount()) + TlvText(1, MockAcquirer());
    var payload := TlvText(0, Two(1));
    payload := payload + TlvText(1, Two(12));
    payload := payload + TlvText(29, merchantAccount);
    payload := payload + TlvText(52, Two(59) + Two(99));
    assert payload == Print(HeadFields(p));
    payload := payload + TlvText(53, CurrencyCode(m.currency));
    payload := payload + TlvText(54, m.amount);
    payload := payload + TlvText(58, COUNTRY_CODE);
    assert payload == Print(MidFields(p));
    payload := payload + TlvText(59, Slice(m.merchantName, 25));
    payload := payload + TlvText(60, Slice(m.merchantCity, 15));
    var additional := AdditionalText(p);
    if additional != [] {
      payload := payload + TlvText(62, additional);
    }
    assert payload == Print(TopFields(p));
    payload := payload + CrcHeader();
    var checksum := Crc16(payload);
    return payload + checksum;
  }

  lemma {:induction false} MockBlockLength()
    ensures |TlvText(0, MockAccount()) + TlvText(1, MockAcquirer())| == 37
    ensures MockAccount() != [] && MockAcquirer() != []
  {
    TextLength(0, MockAccount());
    TextLength(1, MockAcquirer());
    hide TlvText;
  }

  lemma {:induction false} TextLength(tag: nat, value: Str)
    requires tag < 100 && |value| < 100
    ensures |TlvText(tag, value)| == 4 + |value|
  {
    PaddedIsTwo(|value|);
    hide Padded;
  }

  lemma {:induction false} MockAccountText(m: MockParams)
    ensures Print(AccountFields(MockAs(m))) == TlvText(0, MockAccount()) + TlvText(1, MockAcquirer())
  {
    MockBlockLength();
    hide Print, TlvText, Two, MockAccount, MockAcquirer;
    PrintNone();
    var f1 := Add([], 0, MockAccount());
    PrintAdd([], true, 0, MockAccount());
    PrintAdd(f1, true, 1, MockAcquirer());
    PrintAdd(AddIf(f1, true, 1, MockAcquirer()), false, 2, []);
  }

  lemma {:induction false} MockIsNameAtBank()
    ensures NameAtBank(MockAccount())
  {
    hide IsSpace;
    var s := MockAccount();
    assert s[4] == AT;
    forall i | 0 <= i < |s| && i != 4 ensures s[i] != AT && !IsSpace(s[i]) {
      MockLetter(s[i]);
    }
  }

  lemma {:induction false} MockLetter(u: Unit)
    requires 97 <= u <= 122
    ensures u != AT && !IsSpace(u)
  {
  }

  /** Every mock code parses back, up to the checksum exception. */
  lemma {:induction false} MockRoundTrip(m: MockParams)
    requires |m.amount| <= 99
    ensures ParseKhqr(BakongPayload(MockAs(m))) ==
      if Checksum(Print(TopFields(MockAs(m))) + CrcHeader()) == CrcHeader() then Err(MissingCrc)
      else Ok(Expected(MockAs(m)))
  {
    hide ParseKhqr, BakongPayload, Checksum, Print, TopFields, CrcHeader, TlvText, AccountFields, Expected;
    hide MockAccount, MockAcquirer, NameAtBank;
    MockAccountText(m);
    MockBlockLength();
    MockIsNameAtBank();
    RoundTrip(MockAs(m));
  }

  /**
   What a mock code holds, tag by tag: a dynamic code for the individual account mock@paykh with the acquirer's name
   in sub-tag 01, the amount, bill number and store label as given, and no mobile number and no times.
   */
  lemma {:induction false} MockIsPayload(m: MockParams)
    requires |m.amount| <= 99
    ensures var p := Params(
      [109, 111, 99, 107, 64, 112, 97, 121, 107, 104], m.merchantName, m.merchantCity, Some(m.amount), m.currency,
      Some([80, 97, 121, 75, 72, 32, 77, 111, 99, 107, 32, 65, 99, 113, 117, 105, 114, 101, 114]), None, None,
      m.billNumber, None, m.storeLabel, false, None);
      IsPayload(p, BakongPayload(MockAs(m)))
  {
    hide IsPayload, BakongPayload, Print, TlvText, AccountFields;
    MockAccountText(m);
    MockBlockLength();
    BuiltIsPayload(MockAs(m));
  }
}
