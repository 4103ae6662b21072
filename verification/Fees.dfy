/**
 Captured payments and refunds in the ledger (ledger.service.ts, postPaymentCaptured and postRefund).

 A gross amount is split into a fee and a net part at a rate in basis points; both parts are rounded
 to units of 10^-4 by `post`. Amounts here are whole units (the payment columns carry four decimals).
 */
module Fees {
  import opened Wrappers
  import opened Ledger
  import opened Currencies

  function Money(units: int): real {
    units as real / 10000.0
  }

  function Fee(amount: real, bps: nat): real {
    amount * bps as real / 10000.0
  }

  function CaptureLines(gross: real, bps: nat): seq<Line> {
    var fee := Fee(gross, bps);
    [ Line(SettlementClearing, Debit, gross, None),
      Line(MerchantPayable, Credit, gross - fee, None),
      Line(FeeRevenue, Credit, fee, None) ]
  }

  function RefundLines(amount: real, bps: nat): seq<Line> {
    var fee := Fee(amount, bps);
    [ Line(MerchantPayable, Debit, amount - fee, None),
      Line(FeeRevenue, Debit, fee, None),
      Line(SettlementClearing, Credit, amount, None) ]
  }

  function PostCaptured(journals: seq<Journal>, payment: Id, store: Id, currency: Currency, units: int,
      bps: nat): (seq<Journal>, Outcome) {
    PostTo(journals, PaymentCaptured, Some(One(payment)), Some(store), currency, CaptureLines(Money(units), bps))
  }

  function PostRefund(journals: seq<Journal>, payment: Id, refund: Id, store: Id, currency: Currency, units: int,
      bps: nat): (seq<Journal>, Outcome) {
    PostTo(journals, PaymentRefunded, Some(Two(payment, refund)), Some(store), currency, RefundLines(Money(units), bps))
  }

  // ------------------------------------------------------------------- rounding

  /** The rounded fee and net of a slice. */
  function FeeUnits(units: int, bps: nat): int {
    Round4(Fee(Money(units), bps))
  }

  function NetUnits(units: int, bps: nat): int {
    Round4(Money(units) - Fee(Money(units), bps))
  }

  /** The slices whose fee falls exactly between two units. */
  predicate TieAt(units: nat, bps: nat) {
    units * bps % 10000 == 5000
  }

  lemma {:induction false} FeeIsRatio(units: nat, bps: nat)
    ensures Fee(Money(units), bps) * 10000.0 == (units * bps) as real / 10000.0
  {
    var u, b := units as real, bps as real;
    assert (units * bps) as real == u * b;
    assert u / 10000.0 * b / 10000.0 * 10000.0 == u * b / 10000.0;
  }

  lemma {:induction false} FloorOfRatio(n: nat)
    ensures (n as real / 10000.0).Floor == n / 10000
    ensures n as real / 10000.0 - (n / 10000) as real == (n % 10000) as real / 10000.0
  {
    assert n == n / 10000 * 10000 + n % 10000;
    assert n as real / 10000.0 == (n / 10000) as real + (n % 10000) as real / 10000.0;
  }

  lemma {:induction false} FeeWithin(units: nat, bps: nat)
    requires bps <= 10000
    ensures 0.0 <= Fee(Money(units), bps) <= Money(units)
  {
    assert bps as real / 10000.0 <= 1.0;
    var m, b := Money(units), bps as real / 10000.0;
    assert Fee(m, bps) == m * b;
    assert 0.0 <= m * b <= m * 1.0;
  }

  /** The rounded fee and net add up to the slice, except on a tie, where both round up. */
  lemma {:induction false} SplitUnits(units: nat, bps: nat)
    requires bps <= 10000
    ensures FeeUnits(units, bps) + NetUnits(units, bps) == if TieAt(units, bps) then units + 1 else units
    ensures 0 <= FeeUnits(units, bps) && 0 <= NetUnits(units, bps)
  {
    var fee := Fee(Money(units), bps);
    FeeWithin(units, bps);
    RoundSplit(units, fee);
    FeeIsRatio(units, bps);
    FloorOfRatio(units * bps);
    assert IsTie(fee) <==> TieAt(units, bps);
  }

  /** Off a tie the rounding error of a fee is strictly below half a unit. */
  lemma {:induction false} OffTieError(units: nat, bps: nat)
    requires bps <= 10000 && !TieAt(units, bps)
    ensures -0.5 < FeeUnits(units, bps) as real - Fee(Money(units), bps) * 10000.0 < 0.5
  {
    FeeWithin(units, bps);
    FeeIsRatio(units, bps);
    FloorOfRatio(units * bps);
    hide Fee, Money;
  }

  lemma {:induction false} RoundMoney(units: int)
    ensures Round4(Money(units)) == units
  {
    assert Money(units) * 10000.0 == units as real;
  }

  // ---------------------------------------------------------- what is accepted

  /** The rounded journal of a capture. */
  function CaptureEntries(units: int, bps: nat): seq<Entry> {
    [ Entry(SettlementClearing, Debit, units, None),
      Entry(MerchantPayable, Credit, NetUnits(units, bps), None),
      Entry(FeeRevenue, Credit, FeeUnits(units, bps), None) ]
  }

  function RefundEntries(units: int, bps: nat): seq<Entry> {
    [ Entry(MerchantPayable, Debit, NetUnits(units, bps), None),
      Entry(FeeRevenue, Debit, FeeUnits(units, bps), None),
      Entry(SettlementClearing, Credit, units, None) ]
  }

  lemma {:induction false} CaptureSides(units: int, bps: nat, w: Where)
    ensures Rounded(CaptureLines(Money(units), bps)) == CaptureEntries(units, bps)
    ensures Side(CaptureEntries(units, bps), Debit) == units
    ensures Side(CaptureEntries(units, bps), Credit) == NetUnits(units, bps) + FeeUnits(units, bps)
    ensures var e := CaptureEntries(units, bps);
      Effect(e, w) == EffectOf(e[0], w) + EffectOf(e[1], w) + EffectOf(e[2], w)
  {
    RoundMoney(units);
    var e := CaptureEntries(units, bps);
    ThreeLines(e[0], e[1], e[2], w);
  }

  lemma {:induction false} RefundSides(units: int, bps: nat, w: Where)
    ensures Rounded(RefundLines(Money(units), bps)) == RefundEntries(units, bps)
    ensures Side(RefundEntries(units, bps), Debit) == NetUnits(units, bps) + FeeUnits(units, bps)
    ensures Side(RefundEntries(units, bps), Credit) == units
    ensures var e := RefundEntries(units, bps);
      Effect(e, w) == EffectOf(e[0], w) + EffectOf(e[1], w) + EffectOf(e[2], w)
  {
    RoundMoney(units);
    var e := RefundEntries(units, bps);
    ThreeLines(e[0], e[1], e[2], w);
  }

  /** A capture is refused exactly when its fee is a tie, booked exactly when it is positive, off a tie and new. */
  lemma {:induction false} CaptureOutcome(journals: seq<Journal>, payment: Id, store: Id, currency: Currency,
      units: nat, bps: nat)
    requires bps <= 10000
    ensures var outcome := PostCaptured(journals, payment, store, currency, units, bps).1;
      && (outcome == Unbalanced <==> TieAt(units, bps))
      && (outcome == NothingToPost <==> units == 0)
      && (outcome == Posted <==>
           units > 0 && !TieAt(units, bps) && !HasKey(journals, PaymentCaptured, Some(One(payment))))
  {
    CaptureSides(units, bps, Where(currency, FeeRevenue, None, None));
    SplitUnits(units, bps);
    if units == 0 {
      assert units * bps == 0;
    }
  }

  /**
   A whole-riel capture is never refused; a capture of `cents` US cents is refused exactly when cents * bps
   leaves 50 modulo 100.
   */
  lemma {:induction false} CaptureAcceptedPerCurrency(payment: Id, store: Id, riel: nat, cents: nat, bps: nat)
    requires bps <= 10000 && riel > 0 && cents > 0
    ensures PostCaptured([], payment, store, KHR, riel * 10000, bps).1 == Posted
    ensures PostCaptured([], payment, store, USD, cents * 100, bps).1 == if cents * bps % 100 == 50 then Unbalanced
      else Posted
  {
    CaptureOutcome([], payment, store, KHR, riel * 10000, bps);
    CaptureOutcome([], payment, store, USD, cents * 100, bps);
    assert riel * 10000 * bps == riel * bps * 10000;
    assert cents * 100 * bps == cents * bps * 100;
    ScaledMod(cents * bps);
  }

  lemma {:induction false} ScaledMod(n: nat)
    ensures n * 100 % 10000 == n % 100 * 100
  {
    assert n == n / 100 * 100 + n % 100;
    assert n * 100 == n / 100 * 10000 + n % 100 * 100;
  }

  /** One US cent at half a percent: a capture the ledger refuses, so it has no journal. */
  lemma {:induction false} CaptureCanBeRefused()
    ensures PostCaptured([], 1, 1, USD, 100, 50) == ([], Unbalanced)
  {
    CaptureOutcome([], 1, 1, USD, 100, 50);
  }

  // ------------------------------------------------------------------- refunds

  /** A refund slice goes through the same posting: it too is refused exactly when its fee is a tie. */
  lemma {:induction false} RefundOutcome(journals: seq<Journal>, payment: Id, refund: Id, store: Id,
      currency: Currency, units: nat, bps: nat)
    requires bps <= 10000
    ensures var outcome := PostRefund(journals, payment, refund, store, currency, units, bps).1;
      && (outcome == Unbalanced <==> TieAt(units, bps))
      && (outcome == NothingToPost <==> units == 0)
      && (outcome == Posted <==>
           units > 0 && !TieAt(units, bps) && !HasKey(journals, PaymentRefunded, Some(Two(payment, refund))))
  {
    RefundSides(units, bps, Where(currency, FeeRevenue, None, None));
    SplitUnits(units, bps);
    if units == 0 {
      assert units * bps == 0;
    }
  }

  function Balance(journals: seq<Journal>, store: Id, currency: Currency, account: Account): int {
    Position(journals, Where(currency, account, Some(store), None))
  }

  /** The units a new capture or refund moves in the books: none when it is refused. */
  function Moved(units: nat, bps: nat): nat {
    if TieAt(units, bps) then 0 else units
  }

  function MovedFee(units: nat, bps: nat): int {
    if TieAt(units, bps) then 0 else FeeUnits(units, bps)
  }

  /** What moving `units` with the rounded fee `fee` into the books adds to a balance (credits minus debits). */
  function CaptureDelta(account: Account, units: int, fee: int): int {
    match account
    case SettlementClearing => -units
    case MerchantPayable => units - fee
    case FeeRevenue => fee
    case _ => 0
  }

  lemma {:induction false} NothingMoves(bps: nat)
    requires bps <= 10000
    ensures FeeUnits(0, bps) == 0
  {
    SplitUnits(0, bps);
  }

  /** What a new capture does to any balance of the store; a refused one does nothing. */
  lemma {:induction false} CaptureEffect(journals: seq<Journal>, payment: Id, store: Id, currency: Currency,
      units: nat, bps: nat, account: Account)
    requires bps <= 10000 && !HasKey(journals, PaymentCaptured, Some(One(payment)))
    ensures var js := PostCaptured(journals, payment, store, currency, units, bps).0;
      Balance(js, store, currency, account)
      == Balance(journals, store, currency, account) + CaptureDelta(account, Moved(units, bps), MovedFee(units, bps))
  {
    var w := Where(currency, account, Some(store), None);
    CaptureOutcome(journals, payment, store, currency, units, bps);
    NothingMoves(bps);
    if units > 0 && !TieAt(units, bps) {
      CaptureSides(units, bps, w);
      PositionAppend(journals,
        Journal(PaymentCaptured, Some(One(payment)), Some(store), currency, CaptureEntries(units, bps)), w);
    }
  }

  /** What a new refund slice does: it takes back what the capture of the slice would have moved. */
  lemma {:induction false} RefundEffect(journals: seq<Journal>, payment: Id, refund: Id, store: Id,
      currency: Currency, units: nat, bps: nat, account: Account)
    requires bps <= 10000 && !HasKey(journals, PaymentRefunded, Some(Two(payment, refund)))
    ensures var js := PostRefund(journals, payment, refund, store, currency, units, bps).0;
      Balance(js, store, currency, account)
      == Balance(journals, store, currency, account) - CaptureDelta(account, Moved(units, bps), MovedFee(units, bps))
  {
    var w := Where(currency, account, Some(store), None);
    RefundOutcome(journals, payment, refund, store, currency, units, bps);
    NothingMoves(bps);
    if units > 0 && !TieAt(units, bps) {
      RefundSides(units, bps, w);
      PositionAppend(journals,
        Journal(PaymentRefunded, Some(Two(payment, refund)), Some(store), currency, RefundEntries(units, bps)), w);
    }
  }

  // ------------------------------------------------------- partial-refund dust

  datatype Slice = Slice(refund: Id, units: nat)

  function RefundAll(journals: seq<Journal>, payment: Id, store: Id, currency: Currency, bps: nat,
      slices: seq<Slice>): seq<Journal> {
    if slices == [] then journals
    else
      var last := slices[|slices| - 1];
      PostRefund(RefundAll(journals, payment, store, currency, bps, slices[..|slices| - 1]),
                 payment, last.refund, store, currency, last.units, bps).0
  }

  function SliceTotal(slices: seq<Slice>): nat {
    if slices == [] then 0 else SliceTotal(slices[..|slices| - 1]) + slices[|slices| - 1].units
  }

  function MovedTotal(slices: seq<Slice>, bps: nat): nat {
    if slices == [] then 0 else MovedTotal(slices[..|slices| - 1], bps) + Moved(slices[|slices| - 1].units, bps)
  }

  function MovedFees(slices: seq<Slice>, bps: nat): int {
    if slices == [] then 0 else MovedFees(slices[..|slices| - 1], bps) + MovedFee(slices[|slices| - 1].units, bps)
  }

  /** Different refunds, none of them booked for this payment yet. */
  predicate Unbooked(journals: seq<Journal>, payment: Id, slices: seq<Slice>) {
    && (forall i :: 0 <= i < |slices| ==> !HasKey(journals, PaymentRefunded, Some(Two(payment, slices[i].refund))))
    && (forall i, k :: 0 <= i < k < |slices| ==> slices[i].refund != slices[k].refund)
  }

  lemma {:induction false} RefundKeys(js: seq<Journal>, payment: Id, refund: Id, store: Id, currency: Currency,
      units: nat, bps: nat, r: Id)
    requires var js' := PostRefund(js, payment, refund, store, currency, units, bps).0;
      HasKey(js', PaymentRefunded, Some(Two(payment, r)))
    ensures HasKey(js, PaymentRefunded, Some(Two(payment, r))) || r == refund
  {
    hide Rounded, Side, RefundLines;
    var js' := PostRefund(js, payment, refund, store, currency, units, bps).0;
    var k :| 0 <= k < |js'| && js'[k].event == PaymentRefunded && js'[k].reference == Some(Two(payment, r));
    if k < |js| {
      assert js[k] == js'[k];
    }
  }

  lemma {:induction false} StillUnbooked(journals: seq<Journal>, payment: Id, store: Id, currency: Currency,
      bps: nat, slices: seq<Slice>, r: Id)
    requires !HasKey(journals, PaymentRefunded, Some(Two(payment, r)))
    requires forall i :: 0 <= i < |slices| ==> slices[i].refund != r
    ensures !HasKey(RefundAll(journals, payment, store, currency, bps, slices), PaymentRefunded, Some(Two(payment, r)))
  {
    hide PostRefund, HasKey;
    if slices != [] {
      var before, last := slices[..|slices| - 1], slices[|slices| - 1];
      StillUnbooked(journals, payment, store, currency, bps, before, r);
      var js := RefundAll(journals, payment, store, currency, bps, before);
      if HasKey(RefundAll(journals, payment, store, currency, bps, slices), PaymentRefunded, Some(Two(payment, r))) {
        RefundKeys(js, payment, last.refund, store, currency, last.units, bps, r);
      }
    }
  }

  /** Any number of refund slices moves the sum of those that are not refused. */
  lemma {:induction false} RefundAllEffect(journals: seq<Journal>, payment: Id, store: Id, currency: Currency,
      bps: nat, slices: seq<Slice>, account: Account)
    requires bps <= 10000 && Unbooked(journals, payment, slices)
    ensures Balance(RefundAll(journals, payment, store, currency, bps, slices), store, currency, account)
      == Balance(journals, store, currency, account) - CaptureDelta(account, MovedTotal(slices, bps),
        MovedFees(slices, bps))
  {
    hide PostRefund, HasKey, Balance, Moved, MovedFee;
    if slices != [] {
      var before, last := slices[..|slices| - 1], slices[|slices| - 1];
      RefundAllEffect(journals, payment, store, currency, bps, before, account);
      StillUnbooked(journals, payment, store, currency, bps, before, last.refund);
      var js := RefundAll(journals, payment, store, currency, bps, before);
      RefundEffect(js, payment, last.refund, store, currency, last.units, bps, account);
    }
  }

  lemma {:induction false} FeeAdds(a: nat, b: nat, bps: nat)
    ensures Fee(Money(a + b), bps) == Fee(Money(a), bps) + Fee(Money(b), bps)
  {
    var x, y, r := Money(a), Money(b), bps as real;
    assert Money(a + b) == x + y;
    assert (x + y) * r == x * r + y * r;
  }

  /** The rounding error of one booked fee, in units. */
  function FeeError(units: nat, bps: nat): real {
    MovedFee(units, bps) as real - Fee(Money(Moved(units, bps)), bps) * 10000.0
  }

  /** It is strictly below half a unit, refused or not. */
  lemma {:induction false} FeeErrorBound(units: nat, bps: nat)
    requires bps <= 10000
    ensures -0.5 < FeeError(units, bps) < 0.5
  {
    if TieAt(units, bps) {
      assert Fee(Money(0), bps) == 0.0;
    } else {
      OffTieError(units, bps);
    }
  }

  /** The accumulated rounding error of n fees stays within n half-units, strictly as soon as there is one. */
  lemma {:induction false} FeesError(slices: seq<Slice>, bps: nat)
    requires bps <= 10000
    ensures var error := MovedFees(slices, bps) as real - Fee(Money(MovedTotal(slices, bps)), bps) * 10000.0;
      && -(|slices| as real) / 2.0 <= error <= |slices| as real / 2.0
      && (slices != [] ==> -(|slices| as real) / 2.0 < error < |slices| as real / 2.0)
  {
    if slices != [] {
      var before, last := slices[..|slices| - 1], slices[|slices| - 1];
      FeesError(before, bps);
      FeeErrorBound(last.units, bps);
      FeeAdds(MovedTotal(before, bps), Moved(last.units, bps), bps);
      hide Fee, Money, Moved, MovedFee;
    }
  }

  /** A slice that is refused when refunded. */
  predicate Tied(slices: seq<Slice>, bps: nat, i: nat) {
    i < |slices| && TieAt(slices[i].units, bps)
  }

  /** Everything is moved exactly when nothing is tied; nothing is moved exactly when every positive slice is. */
  lemma {:induction false} MovedIff(slices: seq<Slice>, bps: nat)
    ensures MovedTotal(slices, bps) <= SliceTotal(slices)
    ensures MovedTotal(slices, bps) == SliceTotal(slices) <==> forall i: nat :: !Tied(slices, bps, i)
    ensures MovedTotal(slices, bps) == 0 <==> forall i: nat :: i < |slices| ==>
      slices[i].units == 0 || Tied(slices, bps, i)
  {
    if slices != [] {
      var n := |slices| - 1;
      var before := slices[..n];
      MovedIff(before, bps);
      assert forall i: nat :: i < n ==> before[i] == slices[i] && (Tied(before, bps, i) <==> Tied(slices, bps, i));
      assert Tied(slices, bps, n) <==> TieAt(slices[n].units, bps);
      if Tied(slices, bps, n) {
        assert slices[n].units > 0;
      }
    }
  }

  /** What is left on an account of the store after a capture and refunds of it. */
  function Residue(journals: seq<Journal>, payment: Id, store: Id, currency: Currency, units: nat, bps: nat,
      slices: seq<Slice>, account: Account): int {
    Balance(RefundAll(PostCaptured(journals, payment, store, currency, units, bps).0, payment, store, currency, bps,
      slices), store, currency, account)
    - Balance(journals, store, currency, account)
  }

  lemma {:induction false} ResidueIs(journals: seq<Journal>, payment: Id, store: Id, currency: Currency, units: nat,
      bps: nat, slices: seq<Slice>, account: Account)
    requires bps <= 10000 && !HasKey(journals, PaymentCaptured, Some(One(payment)))
      && Unbooked(journals, payment, slices)
    ensures Residue(journals, payment, store, currency, units, bps, slices, account)
      == CaptureDelta(account, Moved(units, bps) - MovedTotal(slices, bps),
        MovedFee(units, bps) - MovedFees(slices, bps))
  {
    var captured := PostCaptured(journals, payment, store, currency, units, bps).0;
    CaptureEffect(journals, payment, store, currency, units, bps, account);
    forall i | 0 <= i < |slices| ensures !HasKey(captured, PaymentRefunded, Some(Two(payment, slices[i].refund))) {
      CaptureAddsNoRefund(journals, payment, store, currency, units, bps, slices[i].refund);
    }
    RefundAllEffect(captured, payment, store, currency, bps, slices, account);
  }

  lemma {:induction false} CaptureAddsNoRefund(journals: seq<Journal>, payment: Id, store: Id, currency: Currency,
      units: nat, bps: nat, r: Id)
    requires !HasKey(journals, PaymentRefunded, Some(Two(payment, r)))
    ensures !HasKey(PostCaptured(journals, payment, store, currency, units, bps).0, PaymentRefunded,
      Some(Two(payment, r)))
  {
    hide Rounded, Side, CaptureLines;
    var captured := PostCaptured(journals, payment, store, currency, units, bps).0;
    forall k | 0 <= k < |captured|
      ensures !(captured[k].event == PaymentRefunded && captured[k].reference == Some(Two(payment, r)))
    {
      if k < |journals| {
        assert captured[k] == journals[k];
      }
    }
  }

  /**
   Refunding a payment completely, in any slices at the capture's rate. The three residues cancel out;
   settlement_clearing nets to zero exactly when no slice is a tie (when the capture itself was refused as
   a tie: exactly when every slice is). Whatever was refused, the fee account keeps the exact fee of the amount
   that stayed booked, up to less than half a unit per journal involved; when clearing nets to zero that is the
   whole residue, and the merchant's is opposite.
   */
  lemma {:induction false} RefundDustBounded(journals: seq<Journal>, payment: Id, store: Id, currency: Currency,
      units: nat, bps: nat, slices: seq<Slice>)
    requires bps <= 10000 && !HasKey(journals, PaymentCaptured, Some(One(payment)))
    requires Unbooked(journals, payment, slices) && SliceTotal(slices) == units
    ensures var clearing := Residue(journals, payment, store, currency, units, bps, slices, SettlementClearing);
      var payable := Residue(journals, payment, store, currency, units, bps, slices, MerchantPayable);
      var fees := Residue(journals, payment, store, currency, units, bps, slices, FeeRevenue);
      && clearing + payable + fees == 0
      && (clearing == 0 <==>
            if TieAt(units, bps) then forall i: nat :: i < |slices| ==> slices[i].units == 0 || Tied(slices, bps, i)
            else forall i: nat :: !Tied(slices, bps, i))
      && (clearing == 0 ==> -(|slices| + 1) < 2 * fees < |slices| + 1)
      && -(|slices| as real + 1.0) / 2.0 < fees as real - ExactFee(-clearing, bps) < (|slices| as real + 1.0) / 2.0
  {
    hide Residue;
    ResidueIs(journals, payment, store, currency, units, bps, slices, SettlementClearing);
    ResidueIs(journals, payment, store, currency, units, bps, slices, MerchantPayable);
    ResidueIs(journals, payment, store, currency, units, bps, slices, FeeRevenue);
    MovedIff(slices, bps);
    FeesError(slices, bps);
    FeeErrorBound(units, bps);
    FeeDifference(Moved(units, bps), MovedTotal(slices, bps), bps);
    hide Fee, Money, Moved, MovedFee, MovedTotal, MovedFees;
  }

  /** The fee of an amount in ledger units, before rounding. */
  function ExactFee(units: int, bps: nat): real {
    Fee(Money(units), bps) * 10000.0
  }

  lemma {:induction false} FeeDifference(a: nat, b: nat, bps: nat)
    ensures ExactFee(a - b, bps) == Fee(Money(a), bps) * 10000.0 - Fee(Money(b), bps) * 10000.0
    ensures a == b ==> ExactFee(a - b, bps) == 0.0
  {
    var x, y, r := Money(a), Money(b), bps as real;
    assert Money(a - b) == x - y;
    assert (x - y) * r == x * r - y * r;
  }

  /** What the refunds of a posted capture leave in clearing is exactly what was refused. */
  lemma {:induction false} ClearingKeepsTiedSlices(journals: seq<Journal>, payment: Id, store: Id,
      currency: Currency, units: nat, bps: nat, slices: seq<Slice>)
    requires bps <= 10000 && !TieAt(units, bps) && !HasKey(journals, PaymentCaptured, Some(One(payment)))
    requires Unbooked(journals, payment, slices) && SliceTotal(slices) == units
    ensures Residue(journals, payment, store, currency, units, bps, slices, SettlementClearing)
      == -TiedTotal(slices, bps)
  {
    hide Residue;
    ResidueIs(journals, payment, store, currency, units, bps, slices, SettlementClearing);
    TiedAndMoved(slices, bps);
  }

  function TiedTotal(slices: seq<Slice>, bps: nat): int {
    if slices == [] then 0
    else
      var last := slices[|slices| - 1];
      TiedTotal(slices[..|slices| - 1], bps) + if TieAt(last.units, bps) then last.units else 0
  }

  lemma {:induction false} TiedAndMoved(slices: seq<Slice>, bps: nat)
    ensures TiedTotal(slices, bps) + MovedTotal(slices, bps) == SliceTotal(slices)
  {
    if slices != [] {
      TiedAndMoved(slices[..|slices| - 1], bps);
    }
  }

  /**
   Two cents at half a percent are captured; refunding them cent by cent is refused twice, and the clearing
   account stays off.
   */
  lemma {:induction false} RefundCanBeRefused()
    ensures PostCaptured([], 1, 1, USD, 200, 50).1 == Posted
    ensures PostRefund([], 1, 1, 1, USD, 100, 50) == ([], Unbalanced)
    ensures Residue([], 1, 1, USD, 200, 50, [Slice(1, 100), Slice(2, 100)], SettlementClearing) == -200
  {
    var slices := [Slice(1, 100), Slice(2, 100)];
    CaptureOutcome([], 1, 1, USD, 200, 50);
    RefundOutcome([], 1, 1, 1, USD, 100, 50);
    assert slices[..1] == [Slice(1, 100)] && slices[..1][..0] == [];
    assert SliceTotal(slices[..1]) == 100 && TiedTotal(slices[..1], 50) == 100;
    ClearingKeepsTiedSlices([], 1, 1, USD, 200, 50, slices);
  }

  lemma {:induction false} RielFee(riel: nat, bps: nat)
    ensures FeeUnits(riel * 10000, bps) == riel * bps && !TieAt(riel * 10000, bps)
  {
    FeeIsRatio(riel * 10000, bps);
    assert riel * 10000 * bps == riel * bps * 10000;
    assert Fee(Money(riel * 10000), bps) * 10000.0 == (riel * bps) as real;
    assert riel * bps >= 0;
  }

  lemma {:induction false} Spread(a: nat, b: nat, bps: nat)
    ensures (a + b) * bps == a * bps + b * bps
  {
  }

  lemma {:induction false} RielFees(slices: seq<Slice>, bps: nat)
    requires forall i :: 0 <= i < |slices| ==> slices[i].units % 10000 == 0
    ensures MovedTotal(slices, bps) == SliceTotal(slices) && SliceTotal(slices) % 10000 == 0
    ensures MovedFees(slices, bps) == SliceTotal(slices) / 10000 * bps
  {
    if slices != [] {
      var before, riel := slices[..|slices| - 1], slices[|slices| - 1].units / 10000;
      RielFees(before, bps);
      RielFee(riel, bps);
      assert slices[|slices| - 1].units == riel * 10000;
      var whole := SliceTotal(before) / 10000;
      assert SliceTotal(slices) / 10000 == whole + riel;
      Spread(whole, riel, bps);
      hide TieAt, FeeUnits;
    }
  }

  /** In whole riel nothing is ever refused and every fee is exact: a complete refund leaves no dust on any account. */
  lemma {:induction false} WholeRielLeavesNoDust(journals: seq<Journal>, payment: Id, store: Id, currency: Currency,
      units: nat, bps: nat, slices: seq<Slice>, account: Account)
    requires bps <= 10000 && !HasKey(journals, PaymentCaptured, Some(One(payment)))
    requires Unbooked(journals, payment, slices) && SliceTotal(slices) == units
    requires forall i :: 0 <= i < |slices| ==> slices[i].units % 10000 == 0
    ensures Residue(journals, payment, store, currency, units, bps, slices, account) == 0
  {
    hide Residue;
    ResidueIs(journals, payment, store, currency, units, bps, slices, account);
    RielFees(slices, bps);
    RielFee(units / 10000, bps);
    assert units == units / 10000 * 10000;
  }
}
