/**
 Manual merchant payouts (apps/api/src/admin/payout.service.ts).

 A payout may exceed what the books say is owed by half a cent. The whole critical section runs under
 an advisory lock, so a payout is one atomic step; captures and refunds of any store come in between.
 */
module Payouts {
  import opened Wrappers
  import opened Ledger
  import opened Currencies
  import opened Fees

  /** Half a cent. */
  const TOL := 0.005

  datatype Failure = NotPositive | Exceeds | Internal

  function Payable(store: Id, currency: Currency): Where {
    Where(currency, MerchantPayable, Some(store), None)
  }

  function PayoutLines(amount: real): seq<Line> {
    [ Line(MerchantPayable, Debit, amount, None), Line(SettlementClearing, Credit, amount, None) ]
  }

  function PostPayout(journals: seq<Journal>, store: Id, currency: Currency, amount: real,
      payout: Id): (seq<Journal>, Outcome) {
    PostTo(journals, PayoutSettled, Some(Two(store, payout)), Some(store), currency, PayoutLines(amount))
  }

  /** The manual branch of `pay` on the stored journals. */
  function Pay(journals: seq<Journal>, store: Id, currency: Currency, value: real, payout: Id): (seq<Journal>,
      Result<Id, Failure>) {
    if value <= 0.0 then (journals, Err(NotPositive))
    else if value - Money(Position(journals, Payable(store, currency))) > TOL then (journals, Err(Exceeds))
    else
      var (js, outcome) := PostPayout(journals, store, currency, value, payout);
      if outcome == Unbalanced then (journals, Err(Internal)) else (js, Ok(payout))
  }

  /**
   A payout is accepted exactly when it is positive and at most half a cent above what the books owe the store in
   that currency; what it books, if anything, is one journal from the store's balance to clearing.
   */
  lemma {:induction false} PayDoes(journals: seq<Journal>, store: Id, currency: Currency, value: real, payout: Id)
    ensures var (js, answer) := Pay(journals, store, currency, value, payout);
      var owed := Position(journals, Where(currency, MerchantPayable, Some(store), None));
      && (answer.Ok? <==> 0.0 < value <= owed as real / 10000.0 + 0.005)
      && (answer == Err(NotPositive) <==> value <= 0.0)
      && (answer.Err? ==> js == journals && answer != Err(Internal))
      && (answer.Ok? ==> answer == Ok(payout))
      && (js != journals ==>
            js == journals + [Journal(PayoutSettled, Some(Two(store, payout)), Some(store), currency,
              [Entry(MerchantPayable, Debit, Round4(value), None),
               Entry(SettlementClearing, Credit, Round4(value), None)])])
  {
    var lines := Rounded(PayoutLines(value));
    assert lines == [Entry(MerchantPayable, Debit, Round4(value), None),
      Entry(SettlementClearing, Credit, Round4(value), None)];
    TwoLines(lines[0], lines[1], Payable(store, currency));
  }

  // -------------------------------------------------------------- the service

  datatype Status = Pending | Paid

  datatype PayoutRow = PayoutRow(store: Id, currency: Currency, amount: real, status: Status)

  class PayoutService {
    const ledger: LedgerStore
    var payouts: map<Id, PayoutRow>

    constructor (ledger: LedgerStore)
      ensures this.ledger == ledger && payouts == map[]
    {
      this.ledger := ledger;
      payouts := map[];
    }

    /** What the books owe a store: the sums of the two directions, as the grouped query returns them. */
    method Owed(store: Id, currency: Currency) returns (owed: int)
      ensures owed == Position(ledger.journals, Payable(store, currency))
    {
      var w := Payable(store, currency);
      var grouped := GroupByDirection(ledger.journals, w);
      var credit, debit := 0, 0;
      for i := 0 to |grouped|
        invariant credit == if exists k ::
          0 <= k < i && grouped[k].0 == Credit then DirectionTotal(ledger.journals, w, Credit) else 0
        invariant debit == if exists k ::
          0 <= k < i && grouped[k].0 == Debit then DirectionTotal(ledger.journals, w, Debit) else 0
      {
        if grouped[i].0 == Credit {
          credit := grouped[i].1;
        } else {
          debit := grouped[i].1;
        }
      }
      assert DirectionTotal(ledger.journals, w, Credit) != 0 ==> grouped[0].0 == Credit;
      assert DirectionTotal(ledger.journals, w, Debit) != 0 ==> grouped[|grouped| - 1].0 == Debit;
      PositionByDirection(ledger.journals, w);
      return credit - debit;
    }

    /**
     The row is PAID exactly when the payout was accepted, and the books move exactly as `Pay` says; a payout id
     that is taken fails the insert and rolls everything back.
     */
    method PayManual(store: Id, currency: Currency, value: real, payout: Id) returns (result: Result<Id, Failure>)
      modifies this, ledger
      ensures (ledger.journals, result) ==
        var (js, answer) := Pay(old(ledger.journals), store, currency, value, payout);
        if payout in old(payouts) && answer != Err(NotPositive) && answer != Err(Exceeds)
        then (old(ledger.journals), Err(Internal)) else (js, answer)
      ensures payouts == if result.Ok? then old(payouts)[payout := PayoutRow(store, currency, value, Paid)]
        else old(payouts)
    {
      if value <= 0.0 {
        return Err(NotPositive);
      }
      var owed := Owed(store, currency);
      if value - Money(owed) > TOL {
        return Err(Exceeds);
      }
      if payout in payouts {
        return Err(Internal);
      }
      var before := payouts;
      payouts := payouts[payout := PayoutRow(store, currency, value, Pending)];
      var outcome := ledger.Post(PayoutSettled, Some(Two(store, payout)), Some(store), currency, PayoutLines(value));
      if outcome == Unbalanced {
        payouts := before;  // the transaction rolls back
        return Err(Internal);
      }
      payouts := payouts[payout := payouts[payout].(status := Paid)];
      return Ok(payout);
    }
  }

  /** The rows of a sum grouped by direction; a direction that sums to nothing has no row. */
  function GroupByDirection(journals: seq<Journal>, w: Where): seq<(Direction, int)> {
    (if DirectionTotal(journals, w, Credit) == 0 then [] else [(Credit, DirectionTotal(journals, w, Credit))])
    + (if DirectionTotal(journals, w, Debit) == 0 then [] else [(Debit, DirectionTotal(journals, w, Debit))])
  }

  // ------------------------------------------------ the tolerance never adds up

  /** A step of the money ledger: a capture, a refund or a manual payout, of any store in any currency. */
  datatype Step =
    | Capture(payment: Id, store: Id, currency: Currency, units: nat, bps: nat)
    | Refund(payment: Id, refund: Id, store: Id, currency: Currency, units: nat, bps: nat)
    | ManualPayout(store: Id, currency: Currency, value: real, payout: Id)

  function Apply(journals: seq<Journal>, step: Step): seq<Journal> {
    match step
    case Capture(p, s, c, units, bps) => PostCaptured(journals, p, s, c, units, bps).0
    case Refund(p, r, s, c, units, bps) => PostRefund(journals, p, r, s, c, units, bps).0
    case ManualPayout(s, c, value, id) => Pay(journals, s, c, value, id).0
  }

  function Run(steps: seq<Step>): seq<Journal> {
    if steps == [] then [] else Apply(Run(steps[..|steps| - 1]), steps[|steps| - 1])
  }

  /** A store's fee is set between 0 and 100 percent; captures and refunds at such rates only. */
  predicate RatesInRange(steps: seq<Step>) {
    forall i :: 0 <= i < |steps| && !steps[i].ManualPayout? ==> steps[i].bps <= 10000
  }

  /** The net amount handed back to payers, out of the store's balance. */
  function RefundedNet(journals: seq<Journal>, w: Where): int {
    if journals == [] then 0
    else
      var j := journals[|journals| - 1];
      RefundedNet(journals[..|journals| - 1], w) - if j.event == PaymentRefunded then JournalEffect(j, w) else 0
  }

  lemma {:induction false} AppendBoth(journals: seq<Journal>, j: Journal, w: Where)
    ensures Position(journals + [j], w) == Position(journals, w) + JournalEffect(j, w)
    ensures RefundedNet(journals + [j], w) == RefundedNet(journals, w) - if j.event
      == PaymentRefunded then JournalEffect(j, w) else 0
  {
    PositionAppend(journals, j, w);
    assert (journals + [j])[..|journals|] == journals;
  }

  lemma {:induction false} RoundIsMonotone(x: real, limit: int)
    requires 0.0 < x <= Money(limit)
    ensures 0 <= Round4(x) <= limit
  {
    assert x * 10000.0 <= limit as real;
  }

  /** An accepted payout takes at most the tolerance more than what is owed, whatever the decimals of its amount. */
  lemma {:induction false} PayEffect(journals: seq<Journal>, store: Id, currency: Currency, value: real, payout: Id,
      w: Where)
    requires w.account == MerchantPayable && w.customer == None && w.store.Some?
    ensures var (js, result) := Pay(journals, store, currency, value, payout);
      && (js == journals || (|js| == |journals| + 1 && js[..|journals|] == journals
           && js[|journals|].event == PayoutSettled))
      && (js != journals ==> result.Ok?)
      && (js != journals && w == Payable(store, currency) ==>
            JournalEffect(js[|journals|], w) == -Round4(value) && Position(journals, w) - Round4(value) >= -TOL_UNITS)
      && (js != journals && w != Payable(store, currency) ==> JournalEffect(js[|journals|], w) == 0)
  {
    var (js, result) := Pay(journals, store, currency, value, payout);
    if js != journals {
      var lines := Rounded(PayoutLines(value));
      assert lines == [lines[0], lines[1]];
      TwoLines(lines[0], lines[1], w);
      var owed := Position(journals, Payable(store, currency));
      assert value <= Money(owed) + TOL == Money(owed + TOL_UNITS);
      RoundIsMonotone(value, owed + TOL_UNITS);
    }
  }

  lemma {:induction false} CaptureGrowth(journals: seq<Journal>, step: Step, w: Where)
    requires step.Capture? && step.bps <= 10000
    requires w.account == MerchantPayable && w.customer == None
    ensures var js := Apply(journals, step);
      js == journals || (js == journals + [js[|js| - 1]] && js[|js| - 1].event == PaymentCaptured
        && JournalEffect(js[|js| - 1], w) >= 0)
  {
    SplitUnits(step.units, step.bps);
    CaptureSides(step.units, step.bps, w);
  }

  /** Refund journals cannot add to the store's balance. */
  lemma {:induction false} RefundShrinks(journals: seq<Journal>, step: Step, w: Where)
    requires step.Refund? && step.bps <= 10000
    requires w.account == MerchantPayable && w.customer == None
    ensures var js := Apply(journals, step);
      js == journals || (js == journals + [js[|js| - 1]] && js[|js| - 1].event == PaymentRefunded
        && JournalEffect(js[|js| - 1], w) <= 0)
  {
    SplitUnits(step.units, step.bps);
    RefundSides(step.units, step.bps, w);
  }

  /**
   Over any run of captures, refunds and manual payouts, what the store was overpaid beyond what its
   refunds handed back is at most one tolerance: the half cents of many payouts do not add up.
   */
  lemma {:induction false} ToleranceNeverAccumulates(steps: seq<Step>, store: Id, currency: Currency)
    requires RatesInRange(steps)
    ensures var js := Run(steps);
      && RefundedNet(js, Payable(store, currency)) >= 0
      && Position(js, Payable(store, currency)) + RefundedNet(js, Payable(store, currency)) >= -TOL_UNITS
  {
    if steps != [] {
      var before, step := steps[..|steps| - 1], steps[|steps| - 1];
      ToleranceNeverAccumulates(before, store, currency);
      var w, js, js' := Payable(store, currency), Run(before), Run(steps);
      match step {
        case Capture(_, _, _, _, _) => CaptureGrowth(js, step, w);
        case Refund(_, _, _, _, _, _) => RefundShrinks(js, step, w);
        case ManualPayout(s, c, value, id) => PayEffect(js, s, c, value, id, w);
      }
      if js' != js {
        AppendBoth(js, js'[|js|], w);
        assert js' == js + [js'[|js|]];
      }
    }
  }

  /** Without refunds the store is never overpaid by more than one tolerance. */
  lemma {:induction false} OverdrawnByOneTolerance(steps: seq<Step>, store: Id, currency: Currency)
    requires RatesInRange(steps) && forall i :: 0 <= i < |steps| ==> !steps[i].Refund?
    ensures Position(Run(steps), Payable(store, currency)) >= -TOL_UNITS
  {
    ToleranceNeverAccumulates(steps, store, currency);
    NoRefunds(steps, Payable(store, currency));
  }

  lemma {:induction false} NoRefunds(steps: seq<Step>, w: Where)
    requires RatesInRange(steps) && forall i :: 0 <= i < |steps| ==> !steps[i].Refund?
    requires w.account == MerchantPayable && w.customer == None && w.store.Some?
    ensures RefundedNet(Run(steps), w) == 0
  {
    if steps != [] {
      var before, step := steps[..|steps| - 1], steps[|steps| - 1];
      NoRefunds(before, w);
      var js, js' := Run(before), Run(steps);
      if step.Capture? {
        CaptureGrowth(js, step, w);
      } else {
        PayEffect(js, step.store, step.currency, step.value, step.payout, w);
      }
      if js' != js {
        AppendBoth(js, js'[|js|], w);
        assert js' == js + [js'[|js|]];
      }
    }
  }

  /**
   An accepted payout is booked exactly when it is at least half a unit: below that the row says PAID and the
   books do not move.
   */
  lemma {:induction false} PayoutBookedIff(journals: seq<Journal>, store: Id, currency: Currency, value: real,
      payout: Id)
    requires Pay(journals, store, currency, value, payout).1.Ok?
      && !HasKey(journals, PayoutSettled, Some(Two(store, payout)))
    ensures Pay(journals, store, currency, value, payout).0 != journals <==> value >= 0.00005
  {
    var lines := Rounded(PayoutLines(value));
    assert lines == [lines[0], lines[1]];
    TwoLines(lines[0], lines[1], Payable(store, currency));
    assert Round4(value) > 0 <==> value >= 0.00005;
  }

  /** The amount is not validated, so such a payout can be asked for: it is answered PAID and never booked. */
  lemma {:induction false} PayoutCanGoUnbooked()
    ensures Pay([], 1, USD, 0.00004, 1) == ([], Ok(1))
  {
    var lines := Rounded(PayoutLines(0.00004));
    assert lines == [lines[0], lines[1]];
    TwoLines(lines[0], lines[1], Payable(1, USD));
    assert Money(Position([], Payable(1, USD))) == 0.0;
    PayoutBookedIff([], 1, USD, 0.00004, 1);
  }
}
