/**
 The money backfill (apps/api/src/ledger/reconciliation.service.ts, backfill): replays the paid payments that
 predate the ledger, each with its capture and, when something was refunded, one refund of the refunded total.

 The refund is booked under the literal part `backfill` instead of a refund id. Here that part is the number zero,
 and refund ids are positive.
 */
module MoneyBackfill {
  import opened Wrappers
  import opened Ledger
  import opened Currencies
  import opened Fees

  const BACKFILL_PART: Id := 0

  /** A payment in status paid: what it was for, and what was refunded of it. */
  datatype PaidPayment = PaidPayment(id: Id, store: Id, currency: Currency, units: nat, refunded: nat)

  datatype Progress = Progress(journals: seq<Journal>, payments: nat, refunds: nat, ok: bool)

  function RateOf(rates: map<Id, nat>, store: Id): nat {
    if store in rates then rates[store] else 0
  }

  predicate RatesInRange(rates: map<Id, nat>) {
    forall s :: s in rates ==> rates[s] <= 10000
  }

  function Capture(journals: seq<Journal>, p: PaidPayment, rates: map<Id, nat>): (seq<Journal>, Outcome) {
    PostCaptured(journals, p.id, p.store, p.currency, p.units, RateOf(rates, p.store))
  }

  function Refund(journals: seq<Journal>, p: PaidPayment, rates: map<Id, nat>): (seq<Journal>, Outcome) {
    PostRefund(journals, p.id, BACKFILL_PART, p.store, p.currency, p.refunded, RateOf(rates, p.store))
  }

  /** One payment; an unbalanced journal is thrown and ends the whole backfill, with what was posted left in place. */
  function ReplayOne(before: Progress, p: PaidPayment, rates: map<Id, nat>): Progress {
    if !before.ok then before
    else
      var (captured, outcome) := Capture(before.journals, p, rates);
      if outcome == Unbalanced then Progress(captured, before.payments, before.refunds, false)
      else if p.refunded == 0 then Progress(captured, before.payments + 1, before.refunds, true)
      else
        var (refunded, outcome') := Refund(captured, p, rates);
        if outcome' == Unbalanced then Progress(refunded, before.payments + 1, before.refunds, false)
        else Progress(refunded, before.payments + 1, before.refunds + 1, true)
  }

  function Replay(journals: seq<Journal>, list: seq<PaidPayment>, rates: map<Id, nat>): Progress {
    if list == [] then Progress(journals, 0, 0, true)
    else ReplayOne(Replay(journals, list[..|list| - 1], rates), list[|list| - 1], rates)
  }

  lemma {:induction false} FailureStays(journals: seq<Journal>, list: seq<PaidPayment>, n: nat, rates: map<Id, nat>)
    requires n <= |list| && !Replay(journals, list[..n], rates).ok
    ensures Replay(journals, list, rates) == Replay(journals, list[..n], rates)
    decreases |list|
  {
    hide Capture, Refund;
    if n == |list| {
      assert list[..n] == list;
    } else {
      assert list[..|list| - 1][..n] == list[..n];
      FailureStays(journals, list[..|list| - 1], n, rates);
    }
  }

  method PostPaymentCaptured(ledger: LedgerStore, p: PaidPayment, rates: map<Id, nat>) returns (outcome: Outcome)
    modifies ledger
    ensures (ledger.journals, outcome) == Capture(old(ledger.journals), p, rates)
  {
    var lines := CaptureLines(Money(p.units), RateOf(rates, p.store));
    outcome := ledger.Post(PaymentCaptured, Some(One(p.id)), Some(p.store), p.currency, lines);
  }

  method PostRefundedTotal(ledger: LedgerStore, p: PaidPayment, rates: map<Id, nat>) returns (outcome: Outcome)
    modifies ledger
    ensures (ledger.journals, outcome) == Refund(old(ledger.journals), p, rates)
  {
    var lines := RefundLines(Money(p.refunded), RateOf(rates, p.store));
    outcome := ledger.Post(PaymentRefunded, Some(Two(p.id, BACKFILL_PART)), Some(p.store), p.currency, lines);
  }

  method BackfillMoney(ledger: LedgerStore, list: seq<PaidPayment>, rates: map<Id, nat>)
    returns (payments: nat, refunds: nat, ok: bool)
    modifies ledger
    ensures Progress(ledger.journals, payments, refunds, ok) == Replay(old(ledger.journals), list, rates)
  {
    hide Capture, Refund;
    payments, refunds, ok := 0, 0, true;
    ghost var before := ledger.journals;
    for i := 0 to |list|
      invariant Progress(ledger.journals, payments, refunds, true) == Replay(before, list[..i], rates)
    {
      assert list[..i + 1][..i] == list[..i];
      var p := list[i];
      var outcome := PostPaymentCaptured(ledger, p, rates);
      if outcome == Unbalanced {
        FailureStays(before, list, i + 1, rates);
        return payments, refunds, false;
      }
      payments := payments + 1;
      if p.refunded > 0 {
        outcome := PostRefundedTotal(ledger, p, rates);
        if outcome == Unbalanced {
          FailureStays(before, list, i + 1, rates);
          return payments, refunds, false;
        }
        refunds := refunds + 1;
      }
    }
    assert list[..|list|] == list;
  }

  // ------------------------------------------------------------ when it completes

  /** Neither amount has its fee at a tie, at the store's rate or at none. */
  predicate Bookable(p: PaidPayment, rates: map<Id, nat>) {
    var bps := if p.store in rates then rates[p.store] else 0;
    !TieAt(p.units, bps) && !TieAt(p.refunded, bps)
  }

  lemma {:induction false} ReplayOneIs(before: Progress, p: PaidPayment, rates: map<Id, nat>)
    requires RatesInRange(rates)
    ensures ReplayOne(before, p, rates).ok <==> before.ok && Bookable(p, rates)
    ensures before.journals <= ReplayOne(before, p, rates).journals
  {
    var bps := RateOf(rates, p.store);
    hide PostTo, TieAt;
    CaptureOutcome(before.journals, p.id, p.store, p.currency, p.units, bps);
    CaptureGrows(before.journals, p, rates);
    var captured := Capture(before.journals, p, rates).0;
    RefundOutcome(captured, p.id, BACKFILL_PART, p.store, p.currency, p.refunded, bps);
    RefundGrows(captured, p, rates);
    NoTieOfNothing(bps);
  }

  lemma {:induction false} NoTieOfNothing(bps: nat)
    ensures !TieAt(0, bps)
  {
  }

  lemma {:induction false} CaptureGrows(journals: seq<Journal>, p: PaidPayment, rates: map<Id, nat>)
    ensures journals <= Capture(journals, p, rates).0
  {
    hide Rounded, Side;
  }

  lemma {:induction false} RefundGrows(journals: seq<Journal>, p: PaidPayment, rates: map<Id, nat>)
    ensures journals <= Refund(journals, p, rates).0
  {
    hide Rounded, Side;
  }

  /**
   The backfill gets through exactly when neither the amount nor the refunded total of any payment has a fee at a
   tie; otherwise it stops at the first such payment, every time.
   */
  lemma {:induction false} CompletesIff(journals: seq<Journal>, list: seq<PaidPayment>, rates: map<Id, nat>)
    requires RatesInRange(rates)
    ensures Replay(journals, list, rates).ok <==> forall i :: 0 <= i < |list| ==> Bookable(list[i], rates)
    ensures journals <= Replay(journals, list, rates).journals
  {
    hide ReplayOne, Bookable;
    if list != [] {
      var n := |list| - 1;
      CompletesIff(journals, list[..n], rates);
      ReplayOneIs(Replay(journals, list[..n], rates), list[n], rates);
    }
  }

  /** The payments of which something was refunded. */
  function WithRefund(list: seq<PaidPayment>): nat {
    if list == [] then 0
    else WithRefund(list[..|list| - 1]) + if list[|list| - 1].refunded > 0 then 1 else 0
  }

  /**
   What is reported: of a completed run, every payment and every one with a refund; of one that stopped, those before
   the payment it stopped at, and that payment itself when only its refund could not be booked.
   */
  lemma {:induction false} CountsAreTrue(journals: seq<Journal>, list: seq<PaidPayment>, rates: map<Id, nat>)
    requires RatesInRange(rates)
    ensures var r := Replay(journals, list, rates);
      && (r.ok ==> r.payments == |list| && r.refunds == WithRefund(list))
      && (!r.ok ==>
            exists k :: 0 <= k < |list| && StoppedAt(r, list, rates, k)
              && forall i :: 0 <= i < k ==> Bookable(list[i], rates))
  {
    hide ReplayOne, Bookable, StoppedAt;
    if list != [] {
      var n := |list| - 1;
      CountsAreTrue(journals, list[..n], rates);
      CompletesIff(journals, list[..n], rates);
      var before := Replay(journals, list[..n], rates);
      OneCounts(before, list, rates);
      if !before.ok {
        var k :| 0 <= k < n && StoppedAt(before, list[..n], rates, k)
          && forall i :: 0 <= i < k ==> Bookable(list[..n][i], rates);
        assert StoppedAt(before, list, rates, k) by { StoppedLonger(before, list, rates, k); }
        forall i | 0 <= i < k ensures Bookable(list[i], rates) {
          assert list[..n][i] == list[i];
        }
      } else {
        forall i | 0 <= i < n ensures Bookable(list[i], rates) {
          assert list[..n][i] == list[i];
        }
      }
    }
  }

  /** The counters of a run that stopped at its k-th payment. */
  predicate StoppedAt(r: Progress, list: seq<PaidPayment>, rates: map<Id, nat>, k: nat)
    requires k < |list|
  {
    var bps := if list[k].store in rates then rates[list[k].store] else 0;
    && (TieAt(list[k].units, bps) || TieAt(list[k].refunded, bps))
    && r.payments == k + (if TieAt(list[k].units, bps) then 0 else 1)
    && r.refunds == WithRefund(list[..k])
  }

  lemma {:induction false} StoppedLonger(r: Progress, list: seq<PaidPayment>, rates: map<Id, nat>, k: nat)
    requires k < |list| - 1 && StoppedAt(r, list[..|list| - 1], rates, k)
    ensures StoppedAt(r, list, rates, k)
  {
    hide TieAt;
    assert list[..|list| - 1][..k] == list[..k];
  }

  lemma {:induction false} OneCounts(before: Progress, list: seq<PaidPayment>, rates: map<Id, nat>)
    requires RatesInRange(rates) && list != []
    requires before.ok ==> before.payments == |list| - 1 && before.refunds == WithRefund(list[..|list| - 1])
    ensures var r := ReplayOne(before, list[|list| - 1], rates);
      && (!before.ok ==> r == before)
      && (r.ok ==> r.payments == |list| && r.refunds == WithRefund(list))
      && (before.ok && !r.ok ==> StoppedAt(r, list, rates, |list| - 1))
  {
    var p := list[|list| - 1];
    var bps := RateOf(rates, p.store);
    hide PostTo, TieAt;
    CaptureOutcome(before.journals, p.id, p.store, p.currency, p.units, bps);
    RefundOutcome(Capture(before.journals, p, rates).0, p.id, BACKFILL_PART, p.store, p.currency, p.refunded, bps);
    NoTieOfNothing(bps);
  }

  // ------------------------------------------------------------------ running it again

  /** A payment whose journals are all there, as far as they can be posted. */
  predicate Present(journals: seq<Journal>, p: PaidPayment) {
    && (p.units > 0 ==> HasKey(journals, PaymentCaptured, Some(One(p.id))))
    && (p.refunded > 0 ==> HasKey(journals, PaymentRefunded, Some(Two(p.id, BACKFILL_PART))))
  }

  lemma {:induction false} KeysStay(journals: seq<Journal>, longer: seq<Journal>, event: Event, reference: Option<Ref>)
    requires journals <= longer && HasKey(journals, event, reference)
    ensures HasKey(longer, event, reference)
  {
    var i :| 0 <= i < |journals| && journals[i].event == event && journals[i].reference == reference;
    assert longer[i] == journals[i];
  }

  lemma {:induction false} PostedHasKey(journals: seq<Journal>, event: Event, reference: Option<Ref>, store: Option<Id>,
                                        currency: Currency, lines: seq<Line>)
    requires reference.Some?
    ensures var (js, outcome) := PostTo(journals, event, reference, store, currency, lines);
      outcome == Posted || outcome == AlreadyPosted ==> HasKey(js, event, reference)
  {
    hide Rounded, Side;
    var (js, outcome) := PostTo(journals, event, reference, store, currency, lines);
    if outcome == Posted {
      assert js[|journals|].event == event && js[|journals|].reference == reference;
    }
  }

  lemma {:induction false} CaptureIsPresent(journals: seq<Journal>, p: PaidPayment, rates: map<Id, nat>)
    requires RatesInRange(rates) && Capture(journals, p, rates).1 != Unbalanced && p.units > 0
    ensures HasKey(Capture(journals, p, rates).0, PaymentCaptured, Some(One(p.id)))
  {
    var bps := RateOf(rates, p.store);
    CaptureOutcome(journals, p.id, p.store, p.currency, p.units, bps);
    PostedHasKey(journals, PaymentCaptured, Some(One(p.id)), Some(p.store), p.currency,
      CaptureLines(Money(p.units), bps));
    hide PostTo;
  }

  lemma {:induction false} RefundIsPresent(journals: seq<Journal>, p: PaidPayment, rates: map<Id, nat>)
    requires RatesInRange(rates) && Refund(journals, p, rates).1 != Unbalanced && p.refunded > 0
    ensures HasKey(Refund(journals, p, rates).0, PaymentRefunded, Some(Two(p.id, BACKFILL_PART)))
  {
    var bps := RateOf(rates, p.store);
    RefundOutcome(journals, p.id, BACKFILL_PART, p.store, p.currency, p.refunded, bps);
    PostedHasKey(journals, PaymentRefunded, Some(Two(p.id, BACKFILL_PART)), Some(p.store), p.currency,
                 RefundLines(Money(p.refunded), bps));
    hide PostTo;
  }

  /** Payments that can be booked have their journals after their turn. */
  lemma {:induction false} OneIsPresent(before: Progress, p: PaidPayment, rates: map<Id, nat>)
    requires RatesInRange(rates) && ReplayOne(before, p, rates).ok
    ensures Present(ReplayOne(before, p, rates).journals, p)
  {
    hide Capture, Refund, HasKey;
    var captured := Capture(before.journals, p, rates).0;
    if p.units > 0 {
      CaptureIsPresent(before.journals, p, rates);
      RefundGrows(captured, p, rates);
      KeysStay(captured, Refund(captured, p, rates).0, PaymentCaptured, Some(One(p.id)));
    }
    if p.refunded > 0 {
      RefundIsPresent(captured, p, rates);
    }
  }

  lemma {:induction false} PresentStays(journals: seq<Journal>, longer: seq<Journal>, p: PaidPayment)
    requires journals <= longer && Present(journals, p)
    ensures Present(longer, p)
  {
    hide HasKey;
    if p.units > 0 {
      KeysStay(journals, longer, PaymentCaptured, Some(One(p.id)));
    }
    if p.refunded > 0 {
      KeysStay(journals, longer, PaymentRefunded, Some(Two(p.id, BACKFILL_PART)));
    }
  }

  /** Every payment of a completed backfill has its journals. */
  lemma {:induction false} AllArePresent(journals: seq<Journal>, list: seq<PaidPayment>, rates: map<Id, nat>, i: nat)
    requires RatesInRange(rates) && i < |list| && Replay(journals, list, rates).ok
    ensures Present(Replay(journals, list, rates).journals, list[i])
  {
    hide ReplayOne, Present;
    var n := |list| - 1;
    var before := Replay(journals, list[..n], rates);
    ReplayOneIs(before, list[n], rates);
    if i == n {
      OneIsPresent(before, list[n], rates);
    } else {
      AllArePresent(journals, list[..n], rates, i);
      PresentStays(before.journals, Replay(journals, list, rates).journals, list[i]);
    }
  }

  /** The capture of a payment, at the store's rate or at none. */
  predicate IsCaptureOf(j: Journal, p: PaidPayment, rates: map<Id, nat>) {
    var bps := if p.store in rates then rates[p.store] else 0;
    j == Journal(PaymentCaptured, Some(One(p.id)), Some(p.store), p.currency,
      [Entry(SettlementClearing, Debit, p.units, None),
       Entry(MerchantPayable, Credit, NetUnits(p.units, bps), None),
       Entry(FeeRevenue, Credit, FeeUnits(p.units, bps), None)])
  }

  predicate HasCapture(journals: seq<Journal>, p: PaidPayment, rates: map<Id, nat>) {
    exists k :: 0 <= k < |journals| && IsCaptureOf(journals[k], p, rates)
  }

  lemma {:induction false} PostedKeys(journals: seq<Journal>, event: Event, reference: Option<Ref>, store: Option<Id>,
      currency: Currency, lines: seq<Line>, event': Event, reference': Option<Ref>)
    requires event != event' || reference != reference'
    ensures HasKey(PostTo(journals, event, reference, store, currency, lines).0, event', reference') <==>
      HasKey(journals, event', reference')
  {
    hide Rounded, Side;
    var js := PostTo(journals, event, reference, store, currency, lines).0;
    if HasKey(journals, event', reference') {
      KeysStay(journals, js, event', reference');
    }
    if HasKey(js, event', reference') {
      var i :| 0 <= i < |js| && js[i].event == event' && js[i].reference == reference';
      assert i < |journals| && journals[i] == js[i];
    }
  }

  /** Another payment's turn books no capture of this one. */
  lemma {:induction false} NoForeignCapture(before: Progress, q: PaidPayment, rates: map<Id, nat>, p: PaidPayment)
    requires q.id != p.id
    ensures HasKey(ReplayOne(before, q, rates).journals, PaymentCaptured, Some(One(p.id))) <==>
      HasKey(before.journals, PaymentCaptured, Some(One(p.id)))
  {
    hide PostTo, HasKey;
    var bps := RateOf(rates, q.store);
    PostedKeys(before.journals, PaymentCaptured, Some(One(q.id)), Some(q.store), q.currency,
      CaptureLines(Money(q.units), bps), PaymentCaptured, Some(One(p.id)));
    PostedKeys(Capture(before.journals, q, rates).0, PaymentRefunded, Some(Two(q.id, BACKFILL_PART)), Some(q.store),
      q.currency, RefundLines(Money(q.refunded), bps), PaymentCaptured, Some(One(p.id)));
  }

  lemma {:induction false} NoForeignCaptures(journals: seq<Journal>, list: seq<PaidPayment>, rates: map<Id, nat>,
      p: PaidPayment)
    requires forall i :: 0 <= i < |list| ==> list[i].id != p.id
    ensures HasKey(Replay(journals, list, rates).journals, PaymentCaptured, Some(One(p.id))) <==>
      HasKey(journals, PaymentCaptured, Some(One(p.id)))
  {
    hide ReplayOne, HasKey;
    if list != [] {
      var n := |list| - 1;
      NoForeignCaptures(journals, list[..n], rates, p);
      NoForeignCapture(Replay(journals, list[..n], rates), list[n], rates, p);
    }
  }

  lemma {:induction false} OneIsCaptured(before: Progress, p: PaidPayment, rates: map<Id, nat>)
    requires RatesInRange(rates) && ReplayOne(before, p, rates).ok && p.units > 0
    requires !HasKey(before.journals, PaymentCaptured, Some(One(p.id)))
    ensures HasCapture(ReplayOne(before, p, rates).journals, p, rates)
  {
    hide HasKey, Refund;
    var bps := RateOf(rates, p.store);
    var captured := Capture(before.journals, p, rates).0;
    CaptureOutcome(before.journals, p.id, p.store, p.currency, p.units, bps);
    CaptureSides(p.units, bps, Where(p.currency, FeeRevenue, None, None));
    RefundGrows(captured, p, rates);
    var k := |before.journals|;
    assert IsCaptureOf(captured[k], p, rates);
    assert ReplayOne(before, p, rates).journals[k] == captured[k];
  }

  /** A completed backfill books every capture that was missing, for the payment's own amount, store and currency. */
  lemma {:induction false} MissingCapturesAreBooked(journals: seq<Journal>, list: seq<PaidPayment>,
      rates: map<Id, nat>, i: nat)
    requires RatesInRange(rates) && DifferentIds(list) && i < |list| && Replay(journals, list, rates).ok
    requires list[i].units > 0 && !HasKey(journals, PaymentCaptured, Some(One(list[i].id)))
    ensures HasCapture(Replay(journals, list, rates).journals, list[i], rates)
  {
    hide ReplayOne, HasKey, IsCaptureOf, Bookable;
    var n := |list| - 1;
    var before := Replay(journals, list[..n], rates);
    ReplayOneIs(before, list[n], rates);
    if i == n {
      NoForeignCaptures(journals, list[..n], rates, list[n]);
      OneIsCaptured(before, list[n], rates);
    } else {
      MissingCapturesAreBooked(journals, list[..n], rates, i);
      var k :| 0 <= k < |before.journals| && IsCaptureOf(before.journals[k], list[i], rates);
      assert Replay(journals, list, rates).journals[k] == before.journals[k];
    }
  }

  /** A payment whose journals are all there, as far as the backfill gets with it. */
  predicate PresentAsFar(journals: seq<Journal>, p: PaidPayment, rates: map<Id, nat>) {
    && (p.units > 0 && !TieAt(p.units, RateOf(rates, p.store)) ==>
          HasKey(journals, PaymentCaptured, Some(One(p.id))))
    && (p.refunded > 0 && Bookable(p, rates) ==>
          HasKey(journals, PaymentRefunded, Some(Two(p.id, BACKFILL_PART))))
  }

  lemma {:induction false} OneAsFar(before: Progress, p: PaidPayment, rates: map<Id, nat>)
    requires RatesInRange(rates) && before.ok
    ensures PresentAsFar(ReplayOne(before, p, rates).journals, p, rates)
  {
    ReplayOneIs(before, p, rates);
    if Bookable(p, rates) {
      OneIsPresent(before, p, rates);
      hide HasKey, TieAt, ReplayOne;
    } else {
      var captured := Capture(before.journals, p, rates).0;
      CaptureOutcome(before.journals, p.id, p.store, p.currency, p.units, RateOf(rates, p.store));
      RefundGrows(captured, p, rates);
      if p.units > 0 && !TieAt(p.units, RateOf(rates, p.store)) {
        CaptureIsPresent(before.journals, p, rates);
        KeysStay(captured, Refund(captured, p, rates).0, PaymentCaptured, Some(One(p.id)));
      }
      hide HasKey, TieAt, PostCaptured, Refund;
    }
  }

  lemma {:induction false} AsFarStays(journals: seq<Journal>, longer: seq<Journal>, p: PaidPayment, rates: map<Id, nat>)
    requires journals <= longer && PresentAsFar(journals, p, rates)
    ensures PresentAsFar(longer, p, rates)
  {
    if HasKey(journals, PaymentCaptured, Some(One(p.id))) {
      KeysStay(journals, longer, PaymentCaptured, Some(One(p.id)));
    }
    if HasKey(journals, PaymentRefunded, Some(Two(p.id, BACKFILL_PART))) {
      KeysStay(journals, longer, PaymentRefunded, Some(Two(p.id, BACKFILL_PART)));
    }
    hide HasKey, TieAt;
  }

  /** Every payment a run gets to has its journals afterwards, as far as they can be posted. */
  lemma {:induction false} ReachedAsFar(journals: seq<Journal>, list: seq<PaidPayment>, rates: map<Id, nat>, i: nat)
    requires RatesInRange(rates) && i < |list| && Replay(journals, list[..i], rates).ok
    ensures PresentAsFar(Replay(journals, list, rates).journals, list[i], rates)
  {
    hide ReplayOne, PresentAsFar;
    var n := |list| - 1;
    var before := Replay(journals, list[..n], rates);
    ReplayOneIs(before, list[n], rates);
    if i == n {
      OneAsFar(before, list[n], rates);
    } else {
      assert list[..n][..i] == list[..i];
      ReachedAsFar(journals, list[..n], rates, i);
      AsFarStays(before.journals, Replay(journals, list, rates).journals, list[i], rates);
    }
  }

  lemma {:induction false} AsFarIsNoOp(before: Progress, p: PaidPayment, rates: map<Id, nat>)
    requires RatesInRange(rates) && PresentAsFar(before.journals, p, rates)
    ensures ReplayOne(before, p, rates).journals == before.journals
  {
    var bps := RateOf(rates, p.store);
    CaptureOutcome(before.journals, p.id, p.store, p.currency, p.units, bps);
    RefundOutcome(before.journals, p.id, BACKFILL_PART, p.store, p.currency, p.refunded, bps);
    hide Rounded, Side, HasKey, TieAt;
  }

  predicate SameCounts(a: Progress, b: Progress) {
    a.payments == b.payments && a.refunds == b.refunds && a.ok == b.ok
  }

  /** What a run counts, and whether it stops, does not depend on what was booked before. */
  lemma {:induction false} CountsOfOne(a: Progress, b: Progress, p: PaidPayment, rates: map<Id, nat>)
    requires RatesInRange(rates) && SameCounts(a, b)
    ensures SameCounts(ReplayOne(a, p, rates), ReplayOne(b, p, rates))
  {
    var bps := RateOf(rates, p.store);
    hide PostTo, TieAt, HasKey;
    CaptureOutcome(a.journals, p.id, p.store, p.currency, p.units, bps);
    CaptureOutcome(b.journals, p.id, p.store, p.currency, p.units, bps);
    RefundOutcome(Capture(a.journals, p, rates).0, p.id, BACKFILL_PART, p.store, p.currency, p.refunded, bps);
    RefundOutcome(Capture(b.journals, p, rates).0, p.id, BACKFILL_PART, p.store, p.currency, p.refunded, bps);
    hide PostCaptured, PostRefund;
  }

  lemma {:induction false} AgainFrom(journals: seq<Journal>, settled: seq<Journal>, list: seq<PaidPayment>,
      rates: map<Id, nat>)
    requires RatesInRange(rates)
    requires forall i :: 0 <= i < |list| && Replay(journals, list[..i], rates).ok ==>
      PresentAsFar(settled, list[i], rates)
    ensures Replay(settled, list, rates) == Replay(journals, list, rates).(journals := settled)
  {
    hide PresentAsFar;
    if list != [] {
      var n := |list| - 1;
      forall i | 0 <= i < n && Replay(journals, list[..n][..i], rates).ok
        ensures PresentAsFar(settled, list[..n][i], rates)
      {
        assert list[..n][..i] == list[..i];
      }
      AgainFrom(journals, settled, list[..n], rates);
      var before, again := Replay(journals, list[..n], rates), Replay(settled, list[..n], rates);
      CountsOfOne(before, again, list[n], rates);
      if before.ok {
        AsFarIsNoOp(again, list[n], rates);
      }
      hide Capture, Refund;
    }
  }

  /**
   Safe to run again, whether it completed or stopped: the second run posts nothing, counts the same and stops
   where the first did.
   */
  lemma {:induction false} SafeToRerun(journals: seq<Journal>, list: seq<PaidPayment>, rates: map<Id, nat>)
    requires RatesInRange(rates)
    ensures var first := Replay(journals, list, rates);
      Replay(first.journals, list, rates) == first
  {
    var first := Replay(journals, list, rates);
    hide PresentAsFar;
    forall i | 0 <= i < |list| && Replay(journals, list[..i], rates).ok
      ensures PresentAsFar(first.journals, list[i], rates)
    {
      ReachedAsFar(journals, list, rates, i);
    }
    hide Replay;
    AgainFrom(journals, first.journals, list, rates);
  }

  // ------------------------------------------------------------------ refunds booked twice

  /** What the books say was refunded of a payment, on the clearing account. */
  function RefundedOf(journals: seq<Journal>, p: PaidPayment): int {
    if journals == [] then 0
    else
      var j := journals[|journals| - 1];
      RefundedOf(journals[..|journals| - 1], p) + if IsRefundOf(j, p) then JournalEffect(j, Clearing(p)) else 0
  }

  predicate IsRefundOf(j: Journal, p: PaidPayment) {
    j.event == PaymentRefunded && j.reference.Some? && j.reference.value.Two? && j.reference.value.whole == p.id
  }

  function Clearing(p: PaidPayment): Where {
    Where(p.currency, SettlementClearing, Some(p.store), None)
  }

  lemma {:induction false} RefundedAppend(journals: seq<Journal>, j: Journal, p: PaidPayment)
    ensures RefundedOf(journals + [j], p) == RefundedOf(journals, p)
      + if IsRefundOf(j, p) then JournalEffect(j, Clearing(p)) else 0
  {
    assert (journals + [j])[..|journals|] == journals;
  }

  lemma {:induction false} CaptureRefundsNothing(journals: seq<Journal>, q: PaidPayment, rates: map<Id, nat>,
      p: PaidPayment)
    ensures RefundedOf(Capture(journals, q, rates).0, p) == RefundedOf(journals, p)
    ensures HasKey(Capture(journals, q, rates).0, PaymentRefunded, Some(Two(p.id, BACKFILL_PART)))
      <==> HasKey(journals, PaymentRefunded, Some(Two(p.id, BACKFILL_PART)))
  {
    hide Rounded, Side, JournalEffect, CaptureLines;
    var js := Capture(journals, q, rates).0;
    if js != journals {
      RefundedAppend(journals, js[|journals|], p);
      assert js == journals + [js[|journals|]];
      assert forall i :: 0 <= i < |journals| ==> js[i] == journals[i];
    }
  }

  lemma {:induction false} RefundOfOther(journals: seq<Journal>, q: PaidPayment, rates: map<Id, nat>, p: PaidPayment)
    requires q.id != p.id
    ensures RefundedOf(Refund(journals, q, rates).0, p) == RefundedOf(journals, p)
    ensures HasKey(Refund(journals, q, rates).0, PaymentRefunded, Some(Two(p.id, BACKFILL_PART)))
      <==> HasKey(journals, PaymentRefunded, Some(Two(p.id, BACKFILL_PART)))
  {
    hide Rounded, Side, JournalEffect, RefundLines;
    var js := Refund(journals, q, rates).0;
    if js != journals {
      RefundedAppend(journals, js[|journals|], p);
      assert js == journals + [js[|journals|]];
      assert forall i :: 0 <= i < |journals| ==> js[i] == journals[i];
    }
  }

  /** A new refund of a payment, under whatever part, adds its amount. */
  lemma {:induction false} RefundAdds(journals: seq<Journal>, p: PaidPayment, part: Id, units: nat, bps: nat)
    requires bps <= 10000 && units > 0 && !TieAt(units, bps)
      && !HasKey(journals, PaymentRefunded, Some(Two(p.id, part)))
    ensures RefundedOf(PostRefund(journals, p.id, part, p.store, p.currency, units, bps).0, p)
      == RefundedOf(journals, p) + units
  {
    RefundOutcome(journals, p.id, part, p.store, p.currency, units, bps);
    RefundSides(units, bps, Clearing(p));
    var j := Journal(PaymentRefunded, Some(Two(p.id, part)), Some(p.store), p.currency, RefundEntries(units, bps));
    assert JournalEffect(j, Clearing(p)) == units;
    RefundedAppend(journals, j, p);
    hide Rounded, Side, HasKey, TieAt, RefundedOf;
  }

  lemma {:induction false} RefundOfOwn(journals: seq<Journal>, p: PaidPayment, rates: map<Id, nat>)
    requires RatesInRange(rates) && Bookable(p, rates) && p.refunded > 0
    ensures RefundedOf(Refund(journals, p, rates).0, p) == RefundedOf(journals, p)
      + if HasKey(journals, PaymentRefunded, Some(Two(p.id, BACKFILL_PART))) then 0 else p.refunded
  {
    var bps := RateOf(rates, p.store);
    if HasKey(journals, PaymentRefunded, Some(Two(p.id, BACKFILL_PART))) {
      RefundOutcome(journals, p.id, BACKFILL_PART, p.store, p.currency, p.refunded, bps);
      hide Rounded, Side, HasKey, RefundedOf;
    } else {
      RefundAdds(journals, p, BACKFILL_PART, p.refunded, bps);
    }
  }

  predicate DifferentIds(list: seq<PaidPayment>) {
    forall i, k :: 0 <= i < k < |list| ==> list[i].id != list[k].id
  }

  lemma {:induction false} OtherPaymentLeaves(before: Progress, q: PaidPayment, rates: map<Id, nat>, p: PaidPayment)
    requires q.id != p.id
    ensures RefundedOf(ReplayOne(before, q, rates).journals, p) == RefundedOf(before.journals, p)
    ensures HasKey(ReplayOne(before, q, rates).journals, PaymentRefunded, Some(Two(p.id, BACKFILL_PART)))
      <==> HasKey(before.journals, PaymentRefunded, Some(Two(p.id, BACKFILL_PART)))
  {
    hide Capture, Refund, HasKey, RefundedOf;
    CaptureRefundsNothing(before.journals, q, rates, p);
    RefundOfOther(Capture(before.journals, q, rates).0, q, rates, p);
  }

  lemma {:induction false} OthersLeave(journals: seq<Journal>, list: seq<PaidPayment>, rates: map<Id, nat>,
      p: PaidPayment)
    requires forall i :: 0 <= i < |list| ==> list[i].id != p.id
    ensures RefundedOf(Replay(journals, list, rates).journals, p) == RefundedOf(journals, p)
    ensures HasKey(Replay(journals, list, rates).journals, PaymentRefunded, Some(Two(p.id, BACKFILL_PART)))
      <==> HasKey(journals, PaymentRefunded, Some(Two(p.id, BACKFILL_PART)))
  {
    hide ReplayOne, HasKey, RefundedOf;
    if list != [] {
      var n := |list| - 1;
      OthersLeave(journals, list[..n], rates, p);
      OtherPaymentLeaves(Replay(journals, list[..n], rates), list[n], rates, p);
    }
  }

  lemma {:induction false} OwnTurn(before: Progress, p: PaidPayment, rates: map<Id, nat>)
    requires RatesInRange(rates) && before.ok && Bookable(p, rates)
    ensures RefundedOf(ReplayOne(before, p, rates).journals, p) == RefundedOf(before.journals, p)
      + if HasKey(before.journals, PaymentRefunded, Some(Two(p.id, BACKFILL_PART))) then 0 else p.refunded
  {
    ReplayOneIs(before, p, rates);
    hide Capture, Refund, HasKey, RefundedOf, Bookable;
    CaptureRefundsNothing(before.journals, p, rates, p);
    if p.refunded > 0 {
      RefundOfOwn(Capture(before.journals, p, rates).0, p, rates);
    }
  }

  /** A completed backfill adds the whole refunded total of every payment it had not backfilled before. */
  lemma {:induction false} BackfillAddsRefunded(journals: seq<Journal>, list: seq<PaidPayment>, rates: map<Id, nat>,
      i: nat)
    requires RatesInRange(rates) && DifferentIds(list) && i < |list| && Replay(journals, list, rates).ok
    ensures RefundedOf(Replay(journals, list, rates).journals, list[i]) == RefundedOf(journals, list[i])
      + if HasKey(journals, PaymentRefunded, Some(Two(list[i].id, BACKFILL_PART))) then 0 else list[i].refunded
  {
    hide ReplayOne, HasKey, RefundedOf, Bookable;
    var n := |list| - 1;
    var before := Replay(journals, list[..n], rates);
    ReplayOneIs(before, list[n], rates);
    if i == n {
      OthersLeave(journals, list[..n], rates, list[n]);
      OwnTurn(before, list[n], rates);
    } else {
      BackfillAddsRefunded(journals, list[..n], rates, i);
      OtherPaymentLeaves(before, list[n], rates, list[i]);
    }
  }

  /**
   So the books show what was refunded of a payment exactly when, before its first backfill, none of its refunds
   was booked under its own id; once it was backfilled, exactly when they showed it before.
   */
  lemma {:induction false} RefundsAreRightIff(journals: seq<Journal>, list: seq<PaidPayment>, rates: map<Id, nat>,
      i: nat)
    requires RatesInRange(rates) && DifferentIds(list) && i < |list| && Replay(journals, list, rates).ok
    ensures RefundedOf(Replay(journals, list, rates).journals, list[i]) == list[i].refunded <==>
      if HasKey(journals, PaymentRefunded, Some(Two(list[i].id, BACKFILL_PART))) then RefundedOf(journals, list[i])
        == list[i].refunded
      else RefundedOf(journals, list[i]) == 0
  {
    hide Replay, HasKey, RefundedOf;
    BackfillAddsRefunded(journals, list, rates, i);
  }

  /** The books the live paths keep of a payment captured and then refunded once, under an id of its own. */
  function LiveBooks(p: PaidPayment, refund: Id, rates: map<Id, nat>): seq<Journal> {
    PostRefund(Capture([], p, rates).0, p.id, refund, p.store, p.currency, p.refunded, RateOf(rates, p.store)).0
  }

  lemma {:induction false} LiveRefundIsBooked(p: PaidPayment, refund: Id, rates: map<Id, nat>)
    requires RatesInRange(rates) && Bookable(p, rates) && p.refunded > 0 && refund != BACKFILL_PART
    ensures RefundedOf(LiveBooks(p, refund, rates), p) == p.refunded
    ensures !HasKey(LiveBooks(p, refund, rates), PaymentRefunded, Some(Two(p.id, BACKFILL_PART)))
  {
    var captured, bps := Capture([], p, rates).0, RateOf(rates, p.store);
    CaptureRefundsNothing([], p, rates, p);
    CaptureAddsNoRefund([], p.id, p.store, p.currency, p.units, bps, refund);
    RefundAdds(captured, p, refund, p.refunded, bps);
    if HasKey(LiveBooks(p, refund, rates), PaymentRefunded, Some(Two(p.id, BACKFILL_PART))) {
      RefundKeys(captured, p.id, refund, p.store, p.currency, p.refunded, bps, BACKFILL_PART);
    }
  }

  /** For every such payment the backfill books the refund a second time. */
  lemma {:induction false} RefundBookedTwice(p: PaidPayment, refund: Id, rates: map<Id, nat>)
    requires RatesInRange(rates) && Bookable(p, rates) && p.refunded > 0 && refund != BACKFILL_PART
    ensures var live := LiveBooks(p, refund, rates);
      var after := Replay(live, [p], rates);
      after.ok && RefundedOf(live, p) == p.refunded && RefundedOf(after.journals, p) == 2 * p.refunded
  {
    LiveRefundIsBooked(p, refund, rates);
    hide LiveBooks, Replay, RefundedOf, HasKey, Bookable;
    CompletesIff(LiveBooks(p, refund, rates), [p], rates);
    BackfillAddsRefunded(LiveBooks(p, refund, rates), [p], rates, 0);
  }

  /** For instance a dollar of which half was refunded, without a fee. */
  lemma {:induction false} HalfDollarBookedTwice()
    ensures var p := PaidPayment(1, 1, USD, 10000, 5000);
      RefundedOf(Replay(LiveBooks(p, 7, map[]), [p], map[]).journals, p) == 10000
  {
    hide LiveBooks, Replay, RefundedOf;
    RefundBookedTwice(PaidPayment(1, 1, USD, 10000, 5000), 7, map[]);
  }
}
