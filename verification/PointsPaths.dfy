/**
 What each points path does, told from the outside: when it succeeds, what it refuses, which customer gains or
 loses how much, which row it writes, and what it leaves alone. The step functions of the engine are proved to do
 exactly this, and so is every step of a run.
 */
module PointsPaths {
  import opened Wrappers
  import opened Ledger
  import opened Currencies
  import opened PointsLedger
  import opened PointsEngine

  // ------------------------------------------------------------------ vocabulary

  /** A customer of this store. */
  predicate Member(s: State, customer: Id, store: Id) {
    customer in s.customers && s.customers[customer].store == store
  }

  predicate IdFree(s: State, id: Id) {
    forall i :: 0 <= i < |s.rows| ==> s.rows[i].id != id
  }

  /** This customer's balance moved by `points` and the lifetime points by `lifetime`; nobody else's did. */
  predicate Moved(s: State, s': State, customer: Id, points: int, lifetime: int) {
    && s'.customers.Keys == s.customers.Keys
    && (forall c :: c in s.customers ==>
          && s'.customers[c].store == s.customers[c].store
          && s'.customers[c].balance == s.customers[c].balance + (if c == customer then points else 0)
          && s'.customers[c].lifetime == s.customers[c].lifetime + (if c == customer then lifetime else 0))
  }

  /** One row was written, of this kind, moving the customer's columns by its points, earned or not. */
  predicate Wrote(s: State, s': State, row: Row) {
    && row.customer in s.customers && s'.rows == s.rows + [row]
    && Moved(s, s', row.customer, row.points, if row.kind == EarnRow then row.points else 0)
  }

  predicate VouchersKept(s: State, s': State) {
    s'.rewards == s.rewards && s'.redemptions == s.redemptions
  }

  predicate OffersKept(s: State, s': State) {
    s'.promos == s.promos && s'.referrals == s.referrals
  }

  lemma {:induction false} FreeIffNotTaken(s: State, id: Id)
    ensures IdFree(s, id) <==> !Taken(s.rows, id)
  {
  }

  lemma {:induction false} RecordWrites(s: State, row: Row)
    requires row.customer in s.customers
    ensures Wrote(s, Record(s, row), row) && VouchersKept(s, Record(s, row)) && OffersKept(s, Record(s, row))
  {
    hide PostPoints;
  }

  // ------------------------------------------------------------------- earning

  /**
   An earn of `points` on its own: it is refused for a stranger and for a taken id, and then nothing changes; else
   the customer gains exactly the points, which are the answer.
   */
  predicate EarnIs(s: State, s': State, answer: Answer, store: Id, customer: Id, points: int, payment: Option<Id>,
      id: Id, now: int) {
    && (!Member(s, customer, store) ==> answer == Err(UnknownCustomer) && s' == s)
    && (Member(s, customer, store) && !IdFree(s, id) ==> answer == Err(IdTaken) && s' == s)
    && (Member(s, customer, store) && IdFree(s, id) ==>
          && answer == Ok(points)
          && Wrote(s, s', Row(id, store, customer, EarnRow, points, payment, None, now, true, Plain))
          && VouchersKept(s, s') && s'.referrals == s.referrals)
  }

  /** No earn row of this payment: neither base points nor a promotion. */
  predicate NotYetEarned(s: State, payment: Id) {
    forall i :: 0 <= i < |s.rows| ==> !(s.rows[i].kind == EarnRow && s.rows[i].payment == Some(payment))
  }

  predicate AwardIs(s: State, s': State, answer: Answer, payment: Id, store: Id, customer: Id, earned: int, id: Id,
      now: int) {
    if earned > 0 && NotYetEarned(s, payment) then
      EarnIs(s, s', answer, store, customer, earned, Some(payment), id, now) && s'.promos == s.promos
    else answer == Ok(0) && s' == s
  }

  lemma {:induction false} AwardDoes(s: State, payment: Id, store: Id, customer: Id, earned: int, id: Id, now: int)
    ensures var (s', answer) := Award(s, payment, store, customer, earned, id, now);
      AwardIs(s, s', answer, payment, store, customer, earned, id, now)
  {
    hide Record, Wrote;
    FreeIffNotTaken(s, id);
    if Member(s, customer, store) {
      RecordWrites(s, Row(id, store, customer, EarnRow, earned, Some(payment), None, now, true, Plain));
    }
  }

  predicate PrizeIs(s: State, s': State, answer: Answer, store: Id, customer: Id, points: int, id: Id, now: int) {
    if points > 0 then EarnIs(s, s', answer, store, customer, points, None, id, now) && s'.promos == s.promos
    else answer == Ok(0) && s' == s
  }

  lemma {:induction false} PrizeDoes(s: State, store: Id, customer: Id, points: int, id: Id, now: int)
    ensures var (s', answer) := GamePrize(s, store, customer, points, id, now);
      PrizeIs(s, s', answer, store, customer, points, id, now)
  {
    hide Record, Wrote;
    FreeIffNotTaken(s, id);
    if Member(s, customer, store) {
      RecordWrites(s, Row(id, store, customer, EarnRow, points, None, None, now, true, Plain));
    }
  }

  /** What is left of a promotion's budget for a bonus. */
  predicate Allowed(p: Promo, bonus: int, awarded: int) {
    && awarded <= bonus
    && match p.budget
       case None => awarded == bonus
       case Some(budget) => p.spent + awarded <= budget && (awarded == bonus || p.spent + awarded == budget)
  }

  /** A promotion of the store that is active, pays something and has budget left. */
  predicate Pays(s: State, promo: Id, store: Id, bonus: int) {
    && promo in s.promos && s.promos[promo].store == store && s.promos[promo].active && bonus > 0
    && (s.promos[promo].budget.Some? ==> s.promos[promo].spent < s.promos[promo].budget.value)
  }

  /**
   A promotion pays the bonus as far as its budget allows, counts it as spent, and ends exactly when its budget is
   used up.
   */
  predicate PromoIs(s: State, s': State, answer: Answer, promo: Id, payment: Id, store: Id, customer: Id, bonus: int,
      id: Id, now: int) {
    if !Pays(s, promo, store, bonus) then answer == Ok(0) && s' == s
    else
      var p := s.promos[promo];
      && (answer.Ok? <==> Member(s, customer, store) && IdFree(s, id))
      && (answer.Err? ==> s' == s)
      && (answer.Ok? ==>
            && answer.value > 0 && Allowed(p, bonus, answer.value)
            && Wrote(s, s', Row(id, store, customer, EarnRow, answer.value, Some(payment), None, now, true, Plain))
            && VouchersKept(s, s') && s'.referrals == s.referrals
            && s'.promos == s.promos[promo := p.(spent := p.spent + answer.value,
                                                 active := p.budget != Some((p.spent + answer.value) as nat))])
  }

  lemma {:induction false} PromoDoes(s: State, promo: Id, payment: Id, store: Id, customer: Id, bonus: int, id: Id,
      now: int)
    ensures var (s', answer) := PromoBonus(s, promo, payment, store, customer, bonus, id, now);
      PromoIs(s, s', answer, promo, payment, store, customer, bonus, id, now)
  {
    hide Record, Wrote;
    FreeIffNotTaken(s, id);
    if Pays(s, promo, store, bonus) && Member(s, customer, store) && IdFree(s, id) {
      var awarded := Capped(s.promos[promo], bonus);
      var row := Row(id, store, customer, EarnRow, awarded, Some(payment), None, now, true, Plain);
      RecordWrites(s, row);
      SameTables(s, Record(s, row), PromoBonus(s, promo, payment, store, customer, bonus, id, now).0, row);
    }
  }

  lemma {:induction false} SameTables(s: State, s1: State, s2: State, row: Row)
    requires Wrote(s, s1, row) && s2.rows == s1.rows && s2.customers == s1.customers
    ensures Wrote(s, s2, row)
  {
  }

  /** Points of one side of a referral; nothing is written for none. */
  function SideRows(id: Id, store: Id, customer: Id, points: int, payment: Option<Id>, now: int): seq<Row> {
    if points > 0 then [Row(id, store, customer, EarnRow, points, payment, None, now, true, Plain)] else []
  }

  /**
   A referral is rewarded once and not while it is flagged: the referrer gains the referrer's points and the referee
   the referee's, on the balance and for life. When either cannot be written neither is.
   */
  predicate ReferralIs(s: State, s': State, answer: Answer, referee: Id, store: Id, payment: Id, referrerPoints: int,
      refereePoints: int, id1: Id, id2: Id, now: int) {
    if referee !in s.referrals || s.referrals[referee].rewarded || s.referrals[referee].flagged then
      answer == Ok(0) && s' == s
    else
      var referrer := s.referrals[referee].referrer;
      var toReferrer, toReferee := (if referrerPoints > 0 then referrerPoints else 0),
        (if refereePoints > 0 then refereePoints else 0);
      && (answer.Ok? <==>
            && (referrerPoints > 0 ==> Member(s, referrer, store) && IdFree(s, id1))
            && (refereePoints > 0 ==> Member(s, referee, store) && IdFree(s, id2))
            && (referrerPoints > 0 && refereePoints > 0 ==> id1 != id2))
      && (answer.Err? ==> s' == s)
      && (answer.Ok? ==>
            && answer.value == toReferrer + toReferee
            && s'.rows == s.rows + SideRows(id1, store, referrer, referrerPoints, None, now)
                 + SideRows(id2, store, referee, refereePoints, Some(payment), now)
            && BothGained(s, s', referrer, toReferrer, referee, toReferee)
            && s'.referrals == s.referrals[referee := s.referrals[referee].(rewarded := true)]
            && s'.promos == s.promos && VouchersKept(s, s'))
  }

  predicate BothGained(s: State, s': State, a: Id, toA: int, b: Id, toB: int) {
    && s'.customers.Keys == s.customers.Keys
    && (forall c :: c in s.customers ==>
          var gain := (if c == a then toA else 0) + (if c == b then toB else 0);
          && s'.customers[c].store == s.customers[c].store
          && s'.customers[c].balance == s.customers[c].balance + gain
          && s'.customers[c].lifetime == s.customers[c].lifetime + gain)
  }

  lemma {:induction false} SideDoes(s: State, store: Id, customer: Id, points: int, payment: Option<Id>, id: Id,
      now: int)
    ensures var (s', answer) := ReferralSide(s, store, customer, points, payment, id, now);
      var gain := if points > 0 then points else 0;
      && (answer.Ok? <==> (points > 0 ==> Member(s, customer, store) && IdFree(s, id)))
      && (answer.Err? ==> s' == s)
      && (answer.Ok? ==>
            && answer.value == gain
            && s'.rows == s.rows + SideRows(id, store, customer, points, payment, now)
            && Moved(s, s', customer, gain, gain) && VouchersKept(s, s') && OffersKept(s, s'))
  {
    hide Record, Taken, IdFree;
    FreeIffNotTaken(s, id);
    if points > 0 && Member(s, customer, store) {
      RecordWrites(s, Row(id, store, customer, EarnRow, points, payment, None, now, true, Plain));
    }
  }

  lemma {:induction false} GainsAdd(s: State, s1: State, s2: State, a: Id, toA: int, b: Id, toB: int)
    requires Moved(s, s1, a, toA, toA) && Moved(s1, s2, b, toB, toB)
    ensures BothGained(s, s2, a, toA, b, toB)
    ensures forall store, c :: Member(s1, c, store) <==> Member(s, c, store)
  {
  }

  lemma {:induction false} FreeAfter(s: State, s1: State, rows: seq<Row>, id: Id)
    requires s1.rows == s.rows + rows && |rows| <= 1
    ensures IdFree(s1, id) <==> IdFree(s, id) && (rows != [] ==> rows[0].id != id)
  {
    if IdFree(s1, id) {
      forall i | 0 <= i < |s.rows| ensures s.rows[i].id != id {
        assert s1.rows[i] == s.rows[i];
      }
      if rows != [] {
        assert s1.rows[|s.rows|] == rows[0];
      }
    }
  }

  lemma {:induction false} ReferralDoes(s: State, referee: Id, store: Id, payment: Id, referrerPoints: int,
      refereePoints: int, id1: Id, id2: Id, now: int)
    ensures var (s', answer) :=
      ReferralReward(s, referee, store, payment, referrerPoints, refereePoints, id1, id2, now);
      ReferralIs(s, s', answer, referee, store, payment, referrerPoints, refereePoints, id1, id2, now)
  {
    hide ReferralSide, IdFree, Moved, BothGained;
    if referee in s.referrals && !s.referrals[referee].rewarded && !s.referrals[referee].flagged {
      var referrer := s.referrals[referee].referrer;
      SideDoes(s, store, referrer, referrerPoints, None, id1, now);
      var (s1, a1) := ReferralSide(s, store, referrer, referrerPoints, None, id1, now);
      if a1.Ok? {
        SideDoes(s1, store, referee, refereePoints, Some(payment), id2, now);
        var (s2, a2) := ReferralSide(s1, store, referee, refereePoints, Some(payment), id2, now);
        FreeAfter(s, s1, SideRows(id1, store, referrer, referrerPoints, None, now), id2);
        var b := if refereePoints > 0 then refereePoints else 0;
        SameStores(s, s1, referrer, a1.value);
        if a2.Ok? {
          GainsAdd(s, s1, s2, referrer, a1.value, referee, b);
          var s' := ReferralReward(s, referee, store, payment, referrerPoints, refereePoints, id1, id2, now).0;
          assert s'.customers == s2.customers;
          SameGains(s, s2, s', referrer, a1.value, referee, b);
        }
      }
    }
  }

  lemma {:induction false} SameStores(s: State, s1: State, c: Id, points: int)
    requires Moved(s, s1, c, points, points)
    ensures forall store, c :: Member(s1, c, store) <==> Member(s, c, store)
  {
  }

  lemma {:induction false} SameGains(s: State, s2: State, s': State, a: Id, toA: int, b: Id, toB: int)
    requires BothGained(s, s2, a, toA, b, toB) && s'.customers == s2.customers
    ensures BothGained(s, s', a, toA, b, toB)
  {
  }

  // ----------------------------------------------------------- redeem and adjust

  /**
   A balance mutation succeeds exactly for a customer of the store whose balance stays non-negative, under an id that
   is free; then exactly the points asked for are moved, in one row of the kind asked for, and lifetime points are
   not. Otherwise nothing changes.
   */
  predicate MutationIs(s: State, s': State, answer: Answer, kind: Kind, store: Id, customer: Id, delta: int,
      reason: Option<string>, id: Id, now: int) {
    && (answer.Ok? <==>
          Member(s, customer, store) && s.customers[customer].balance + delta >= 0 && IdFree(s, id))
    && (answer.Err? ==>
          && s' == s
          && answer.error == if !Member(s, customer, store) then UnknownCustomer
                             else if s.customers[customer].balance + delta < 0 then Insufficient else IdTaken)
    && (answer.Ok? ==>
          && answer.value == delta
          && s'.rows == s.rows + [Row(id, store, customer, kind, delta, None, reason, now, true, Plain)]
          && Moved(s, s', customer, delta, if kind == EarnRow then delta else 0)
          && VouchersKept(s, s') && OffersKept(s, s'))
  }

  lemma {:induction false} MutateDoes(s: State, kind: Kind, store: Id, customer: Id, delta: int,
      reason: Option<string>, id: Id, now: int)
    ensures var (s', answer) := Mutate(s, kind, store, customer, delta, reason, id, now);
      MutationIs(s, s', answer, kind, store, customer, delta, reason, id, now)
  {
    hide Record, Taken, IdFree;
    FreeIffNotTaken(s, id);
    if Member(s, customer, store) {
      RecordWrites(s, Row(id, store, customer, kind, delta, None, reason, now, true, Plain));
    }
  }

  /** A redemption takes as many points as were named, whatever their sign; an adjustment moves them as they are. */
  lemma {:induction false} RedeemAndAdjustDo(s: State, store: Id, customer: Id, points: int, reason: Option<string>,
      id: Id, now: int)
    ensures var (s', answer) := RedeemPoints(s, store, customer, points, reason, id, now);
      MutationIs(s, s', answer, RedeemRow, store, customer, if points < 0 then points else -points, reason, id, now)
    ensures var (s', answer) := AdjustPoints(s, store, customer, points, reason, id, now);
      MutationIs(s, s', answer, AdjustRow, store, customer, points, reason, id, now)
  {
    hide Mutate;
    MutateDoes(s, RedeemRow, store, customer, if points < 0 then points else -points, reason, id, now);
    MutateDoes(s, AdjustRow, store, customer, points, reason, id, now);
  }

  // -------------------------------------------------------------------- vouchers

  /**
   A reward is redeemed exactly when it is one of the store, active and in stock, the customer is one of the store
   and holds its cost, and the id is free. Then the customer pays the cost, a finite stock falls by one, and a voucher
   is issued; else nothing changes.
   */
  predicate RedemptionIs(s: State, s': State, answer: Answer, store: Id, customer: Id, reward: Id, id: Id, now: int) {
    && (answer.Ok? <==>
          && reward in s.rewards && s.rewards[reward].store == store && s.rewards[reward].active
          && s.rewards[reward].stock != 0
          && Member(s, customer, store) && s.customers[customer].balance >= s.rewards[reward].cost && IdFree(s, id))
    && (answer.Err? ==> s' == s)
    && (answer.Ok? ==>
          var r := s.rewards[reward];
          && answer.value == r.cost
          && s'.rows == s.rows + [Row(id, store, customer, RedeemRow, -(r.cost as int), None, Some("reward"), now, true,
               ForReward(|s.redemptions|))]
          && Moved(s, s', customer, -(r.cost as int), 0)
          && s'.rewards == (if r.stock > 0 then s.rewards[reward := r.(stock := r.stock - 1)] else s.rewards)
          && s'.redemptions == s.redemptions + [Redemption(store, customer, reward, r.cost, Issued)]
          && OffersKept(s, s'))
  }

  lemma {:induction false} RedeemDoes(s: State, store: Id, customer: Id, reward: Id, id: Id, now: int)
    ensures var (s', answer) := RedeemReward(s, store, customer, reward, id, now);
      RedemptionIs(s, s', answer, store, customer, reward, id, now)
  {
    hide Record, Taken, IdFree, Wrote, Moved;
    FreeIffNotTaken(s, id);
    var (s', answer) := RedeemReward(s, store, customer, reward, id, now);
    if answer.Ok? {
      var row := Row(id, store, customer, RedeemRow, -(s.rewards[reward].cost as int), None, Some("reward"), now, true,
        ForReward(|s.redemptions|));
      RecordWrites(s, row);
      MovedBy(s, Record(s, row), s', row);
    }
  }

  lemma {:induction false} MovedBy(s: State, s1: State, s2: State, row: Row)
    requires Wrote(s, s1, row) && s2.rows == s1.rows && s2.customers == s1.customers
    ensures s2.rows == s.rows + [row] && Moved(s, s2, row.customer, row.points, if row.kind
      == EarnRow then row.points else 0)
  {
  }

  /**
   A voucher is cancelled exactly while it is issued, its customer is still there and the id is free. Then the
   customer gets back what was paid, a finite stock of its reward rises by one, and the voucher is cancelled.
   */
  predicate CancellationIs(s: State, s': State, answer: Answer, i: Id, id: Id, now: int) {
    && (i >= |s.redemptions| ==> answer == Err(NotFound))
    && (i < |s.redemptions| && s.redemptions[i].status != Issued ==> answer == Err(WrongStatus))
    && (answer.Ok? <==>
          && i < |s.redemptions| && s.redemptions[i].status == Issued
          && Member(s, s.redemptions[i].customer, s.redemptions[i].store) && IdFree(s, id))
    && (answer.Err? ==> s' == s)
    && (answer.Ok? ==>
          var r := s.redemptions[i];
          && answer.value == r.spent
          && s'.rows == s.rows + [Row(id, r.store, r.customer, AdjustRow, r.spent, None, Some("redemption cancelled"),
               now, true, CancelOf(i))]
          && Moved(s, s', r.customer, r.spent, 0)
          && s'.rewards == (if r.reward in s.rewards && s.rewards[r.reward].stock >= 0
                            then s.rewards[r.reward := s.rewards[r.reward].(stock := s.rewards[r.reward].stock + 1)]
                            else s.rewards)
          && s'.redemptions == s.redemptions[i := r.(status := Cancelled)]
          && OffersKept(s, s'))
  }

  lemma {:induction false} CancelDoes(s: State, i: Id, id: Id, now: int)
    ensures var (s', answer) := Cancel(s, i, id, now);
      CancellationIs(s, s', answer, i, id, now)
  {
    hide Record, Taken, IdFree, Wrote, Moved;
    FreeIffNotTaken(s, id);
    var (s', answer) := Cancel(s, i, id, now);
    if answer.Ok? {
      var r := s.redemptions[i];
      var row := Row(id, r.store, r.customer, AdjustRow, r.spent, None, Some(REDEMPTION_CANCELLED_REASON), now, true,
        CancelOf(i));
      RecordWrites(s, row);
      MovedBy(s, Record(s, row), s', row);
    }
  }

  /** Fulfilling a voucher changes its status from issued, and nothing else. */
  predicate FulfilmentIs(s: State, s': State, answer: Answer, i: Id) {
    && (answer.Ok? <==> i < |s.redemptions| && s.redemptions[i].status == Issued)
    && s' == if answer.Ok? then s.(redemptions := s.redemptions[i := s.redemptions[i].(status := Fulfilled)]) else s
  }

  lemma {:induction false} FulfillDoes(s: State, i: Id)
    ensures FulfilmentIs(s, Fulfill(s, i).0, Fulfill(s, i).1, i)
  {
  }

  // ---------------------------------------------------------------------- expiry

  /** An expiry takes what is at risk, in one row, and reports it; it is refused as a write is. */
  predicate ExpiryIs(s: State, s': State, answer: Answer, store: Id, customer: Id, cutoff: int, id: Id, now: int) {
    if customer !in s.customers || s.customers[customer].balance <= 0 || Expirable(s, customer, cutoff) <= 0 then
      answer == Ok(0) && s' == s
    else
      var n := Expirable(s, customer, cutoff);
      && (answer.Ok? <==> Member(s, customer, store) && IdFree(s, id))
      && (answer.Err? ==> s' == s)
      && (answer.Ok? ==>
            && answer.value == n
            && s'.rows == s.rows + [Row(id, store, customer, ExpireRow, -n, None, Some("expired"), now, true, Plain)]
            && Moved(s, s', customer, -n, 0) && VouchersKept(s, s') && OffersKept(s, s'))
  }

  lemma {:induction false} ExpireDoes(s: State, store: Id, customer: Id, cutoff: int, id: Id, now: int)
    ensures var (s', answer) := ExpireCustomer(s, store, customer, cutoff, id, now);
      ExpiryIs(s, s', answer, store, customer, cutoff, id, now)
  {
    hide Record, Taken, IdFree, Expirable;
    FreeIffNotTaken(s, id);
    if Member(s, customer, store) {
      RecordWrites(s, Row(id, store, customer, ExpireRow, -Expirable(s, customer, cutoff), None, Some("expired"), now,
        true, Plain));
    }
  }

  // ----------------------------------------------------------------- whole runs

  /** What one step of a run does, by what it asks for. */
  ghost predicate StepIs(s: State, s': State, step: Step) {
    var now := step.now;
    match step.op
    case DoAward(p, store, c, earned, id) => exists a :: AwardIs(s, s', a, p, store, c, earned, id, now)
    case DoPromoBonus(promo, p, store, c, bonus, id) =>
      exists a :: PromoIs(s, s', a, promo, p, store, c, bonus, id, now)
    case DoGamePrize(store, c, points, id) => exists a :: PrizeIs(s, s', a, store, c, points, id, now)
    case DoReferralReward(referee, store, p, n1, n2, id1, id2) =>
      exists a :: ReferralIs(s, s', a, referee, store, p, n1, n2, id1, id2, now)
    case DoRedeem(store, c, points, reason, id) =>
      var taken := if points < 0 then points else -points;
      exists a :: MutationIs(s, s', a, RedeemRow, store, c, taken, reason, id, now)
    case DoAdjust(store, c, points, reason, id) =>
      exists a :: MutationIs(s, s', a, AdjustRow, store, c, points, reason, id, now)
    case DoRedeemReward(store, c, reward, id) => exists a :: RedemptionIs(s, s', a, store, c, reward, id, now)
    case DoCancel(r, id) => exists a :: CancellationIs(s, s', a, r, id, now)
    case DoFulfill(r) => exists a :: FulfilmentIs(s, s', a, r)
    case DoExpire(store, c, cutoff, id) => exists a :: ExpiryIs(s, s', a, store, c, cutoff, id, now)
    case AddCustomer(c, store) =>
      s' == if c in s.customers then s else s.(customers := s.customers[c := Customer(store, 0, 0)])
    case AddReward(r, what) =>
      s' == if r in s.rewards || what.stock < -1 then s else s.(rewards := s.rewards[r := what])
    case AddPromo(p, promotion) =>
      s' == if p in s.promos then s else s.(promos := s.promos[p := promotion.(spent := 0)])
    case LinkReferral(referee, referrer, flagged) =>
      s' == if referee in s.referrals || referee == referrer then s
            else s.(referrals := s.referrals[referee := Referral(referrer, false, flagged)])
    case PostMoney(event, _, _, currency, _) =>
      s' == s.(journals := s'.journals) && (event.Points? || currency == PTS ==> s' == s)
  }

  /** Every step of every run does to the tables what its path says. */
  lemma {:induction false} StepDoes(s: State, step: Step)
    ensures StepIs(s, Apply(s, step), step)
  {
    var now := step.now;
    hide Award, PromoBonus, GamePrize, ReferralReward, Mutate, RedeemReward, Cancel, Fulfill, ExpireCustomer, PostTo;
    hide AwardIs, PromoIs, PrizeIs, ReferralIs, MutationIs, RedemptionIs, CancellationIs, FulfilmentIs, ExpiryIs;
    match step.op {
      case DoAward(p, store, c, earned, id) => AwardDoes(s, p, store, c, earned, id, now);
      case DoPromoBonus(promo, p, store, c, bonus, id) => PromoDoes(s, promo, p, store, c, bonus, id, now);
      case DoGamePrize(store, c, points, id) => PrizeDoes(s, store, c, points, id, now);
      case DoReferralReward(referee, store, p, n1, n2, id1, id2) =>
        ReferralDoes(s, referee, store, p, n1, n2, id1, id2, now);
      case DoRedeem(store, c, points, reason, id) => RedeemAndAdjustDo(s, store, c, points, reason, id, now);
      case DoAdjust(store, c, points, reason, id) => RedeemAndAdjustDo(s, store, c, points, reason, id, now);
      case DoRedeemReward(store, c, reward, id) => RedeemDoes(s, store, c, reward, id, now);
      case DoCancel(r, id) => CancelDoes(s, r, id, now);
      case DoFulfill(r) => FulfillDoes(s, r);
      case DoExpire(store, c, cutoff, id) => ExpireDoes(s, store, c, cutoff, id, now);
      case _ =>
    }
  }

  /** A row that a step asked for: of its customer, kind and time, and of the points it names where it names them. */
  predicate AskedFor(step: Step, row: Row) {
    var now := step.now;
    match step.op
    case DoAward(p, store, c, earned, id) =>
      row == Row(id, store, c, EarnRow, earned, Some(p), None, now, true, Plain)
    case DoPromoBonus(_, p, store, c, bonus, id) =>
      row == Row(id, store, c, EarnRow, row.points, Some(p), None, now, true, Plain) && 0 < row.points <= bonus
    case DoGamePrize(store, c, points, id) =>
      row == Row(id, store, c, EarnRow, points, None, None, now, true, Plain)
    case DoReferralReward(referee, store, p, n1, n2, id1, id2) =>
      || row == Row(id1, store, row.customer, EarnRow, n1, None, None, now, true, Plain)
      || row == Row(id2, store, referee, EarnRow, n2, Some(p), None, now, true, Plain)
    case DoRedeem(store, c, points, reason, id) =>
      row == Row(id, store, c, RedeemRow, if points < 0 then points else -points, None, reason, now, true, Plain)
    case DoAdjust(store, c, points, reason, id) =>
      row == Row(id, store, c, AdjustRow, points, None, reason, now, true, Plain)
    case DoRedeemReward(store, c, _, id) =>
      row == Row(id, store, c, RedeemRow, row.points, None, Some("reward"), now, true, row.cause)
      && row.points <= 0 && row.cause.ForReward?
    case DoCancel(r, id) =>
      row == Row(id, row.store, row.customer, AdjustRow, row.points, None, Some("redemption cancelled"), now, true,
        CancelOf(r))
      && row.points >= 0
    case DoExpire(store, c, _, id) =>
      row == Row(id, store, c, ExpireRow, row.points, None, Some("expired"), now, true, Plain) && row.points < 0
    case _ => false
  }

  lemma {:induction false} NewRowsAsked(s: State, s': State, step: Step)
    requires StepIs(s, s', step)
    ensures s.rows <= s'.rows && forall k :: |s.rows| <= k < |s'.rows| ==> AskedFor(step, s'.rows[k])
  {
    hide Moved, BothGained, NotYetEarned, IdFree, Member, Pays, Expirable;
    var now := step.now;
    match step.op {
      case DoReferralReward(referee, store, p, n1, n2, id1, id2) =>
        if s' != s {
          var a, b := SideRows(id1, store, s.referrals[referee].referrer, n1, None, now),
            SideRows(id2, store, referee, n2, Some(p), now);
          assert s'.rows == s.rows + a + b && |a| <= 1 && |b| <= 1;
        }
      case _ =>
    }
  }

  /** No points without a request: in every run each row was asked for by a step of the run. */
  lemma {:induction false} EveryRowWasAsked(steps: seq<Step>, k: nat)
    requires k < |Run(steps).rows|
    ensures exists i :: 0 <= i < |steps| && AskedFor(steps[i], Run(steps).rows[k])
  {
    hide Apply, StepIs, AskedFor;
    if steps != [] {
      var n := |steps| - 1;
      var s := Run(steps[..n]);
      StepDoes(s, steps[n]);
      NewRowsAsked(s, Apply(s, steps[n]), steps[n]);
      assert Run(steps) == Apply(s, steps[n]);
      if k < |s.rows| {
        EveryRowWasAsked(steps[..n], k);
        var i :| 0 <= i < n && AskedFor(steps[..n][i], s.rows[k]);
        assert steps[i] == steps[..n][i];
      }
    }
  }

  // ------------------------------------------------------------- rows and journals

  /** The journal of a row: named after what happened, of both accounts and of all the points, with the customer. */
  predicate IsJournalOf(j: Journal, row: Row) {
    var movement := if row.cause.CancelOf? then RedeemReversal else
      match row.kind
      case EarnRow => Earn
      case RedeemRow => Redeem
      case AdjustRow => Adjust
      case ExpireRow => Expire;
    var up, units := row.points > 0, 10000 * (if row.points < 0 then -row.points else row.points);
    && j.event == Points(movement) && j.reference == Some(One(row.id)) && j.store == Some(row.store)
    && j.currency == PTS && |j.lines| == 2
    && j.lines[0] == Entry(PointsLiability, if up then Credit else Debit, units, Some(row.customer))
    && j.lines[1] == Entry(j.lines[1].account, if up then Debit else Credit, units, None)
    && StandsAgainst(j.lines[1].account, movement, row.points)
  }

  /** After any run, every row with points has its journal, and no other points journal refers to it. */
  lemma {:induction false} EveryRowHasItsJournal(steps: seq<Step>, k: nat)
    requires k < |Run(steps).rows| && Run(steps).rows[k].points != 0
    ensures var js, row := Run(steps).journals, Run(steps).rows[k];
      exists i :: 0 <= i < |js| && IsJournalOf(js[i], row)
        && forall l :: 0 <= l < |js| && js[l].event.Points? && js[l].reference == Some(One(row.id)) ==> l == i
  {
    RunKeepsBooks(steps);
    var s := Run(steps);
    hide Run;
    var row := s.rows[k];
    assert JournalFor(row, LiveMovement(row)) in s.journals;
    var i :| 0 <= i < |s.journals| && s.journals[i] == JournalFor(row, LiveMovement(row));
    forall l | 0 <= l < |s.journals| && s.journals[l].event.Points? && s.journals[l].reference == Some(One(row.id))
      ensures l == i
    {
      var m :| 0 <= m < |s.rows| && s.rows[m].points != 0
        && s.journals[l] == JournalFor(s.rows[m], LiveMovement(s.rows[m]));
      assert m == k;
    }
    ContraIsTable(s.journals[i].lines[1].account, LiveMovement(row), row.points);
    assert IsJournalOf(s.journals[i], row);
  }
}
