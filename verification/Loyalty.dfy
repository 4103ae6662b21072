/**
 The loyalty service on mutable tables: each method performs one path's writes in the order of the
 source and is proved to do to the tables exactly what the engine's step function says
 (loyalty.service.ts, campaigns.service.ts, games.service.ts, referrals.service.ts).
 A failed transaction leaves the tables as they were.
 */
module Loyalty {
  import opened Wrappers
  import opened Ledger
  import opened Currencies
  import opened Fifo
  import opened PointsLedger
  import opened PointsEngine
  import opened PointsPaths

  // -------------------------------------------------------------- earning rules

  /** A store's loyalty program, as far as earning goes. */
  datatype Program = Program(active: bool, pointsPerUnit: real)

  datatype ReferralProgram = ReferralProgram(active: bool, referrerPoints: int, refereePoints: int)

  function FloorOfProduct(x: real, y: real): int {
    (x * y).Floor
  }

  function BasePoints(amount: real, pointsPerUnit: real): int {
    FloorOfProduct(amount, pointsPerUnit)
  }

  /** Floored before and after the tier multiplier. */
  function EarnedPoints(amount: real, pointsPerUnit: real, multiplier: real): int {
    var base := BasePoints(amount, pointsPerUnit);
    if base <= 0 then 0 else FloorOfProduct(base as real, multiplier)
  }

  /** The two floors never favour the customer and cost less than the multiplier plus one point. */
  lemma {:induction false} EarnedWithin(amount: real, pointsPerUnit: real, multiplier: real)
    requires BasePoints(amount, pointsPerUnit) > 0 && multiplier >= 0.0
    ensures var exact := amount * pointsPerUnit * multiplier;
      exact - multiplier - 1.0 < EarnedPoints(amount, pointsPerUnit, multiplier) as real <= exact
  {
    var x := amount * pointsPerUnit;
    var base := x.Floor as real;
    var exact, y := amount * pointsPerUnit * multiplier, base * multiplier;
    assert exact == x * multiplier;
    Scaled(base, x, multiplier, y, exact);
    assert EarnedPoints(amount, pointsPerUnit, multiplier) == y.Floor;
    assert y.Floor as real <= y < y.Floor as real + 1.0;
  }

  /** The two floors, written out. */
  lemma {:induction false} EarnedExactly(amount: real, pointsPerUnit: real, multiplier: real)
    ensures EarnedPoints(amount, pointsPerUnit, multiplier) ==
      var base := (amount * pointsPerUnit).Floor;
      if base <= 0 then 0 else (base as real * multiplier).Floor
  {
  }

  lemma {:induction false} Scaled(base: real, x: real, m: real, y: real, z: real)
    requires base <= x < base + 1.0 && m >= 0.0 && y == base * m && z == x * m
    ensures y <= z <= y + m
  {
    NonNegative(x - base, m);
    NonNegative(base + 1.0 - x, m);
    assert (x - base) * m == x * m - base * m;
    assert (base + 1.0 - x) * m == base * m + m - x * m;
  }

  lemma {:induction false} NonNegative(a: real, b: real)
    requires a >= 0.0 && b >= 0.0
    ensures a * b >= 0.0
  {
  }

  datatype Rule = Multiplier(factor: real) | BonusPoints(points: real) | OtherRule

  /** A promotion offered to a payment: its rule and conditions, and the id its row would take. */
  datatype Offer = Offer(
    promo: Id, rule: Rule, startAt: Option<int>, endAt: Option<int>, minAmount: Option<real>, inSegment: bool, id: Id)

  datatype Purchase = Purchase(payment: Id, store: Id, amount: real, base: int)

  predicate Applies(o: Offer, amount: real, now: int) {
    && (o.startAt.None? || o.startAt.value <= now) && (o.endAt.None? || now <= o.endAt.value)
    && (o.minAmount.None? || amount >= o.minAmount.value)
    && o.inSegment
  }

  function RawBonus(rule: Rule, base: int): int {
    match rule
    case Multiplier(f) => FloorOfProduct(base as real, f - 1.0)
    case BonusPoints(p) => p.Floor
    case OtherRule => 0
  }

  /** What a promotion is worth to a payment, before its budget. */
  function OfferedBonus(o: Offer, buy: Purchase, now: int): int {
    if Applies(o, buy.amount, now) then RawBonus(o.rule, buy.base) else 0
  }

  /** The promotions applied one after the other, stopping at the first failed transaction. */
  function ApplyOffers(s: State, buy: Purchase, customer: Id, offers: seq<Offer>, now: int): (State, int,
      Option<Failure>) {
    if offers == [] then (s, 0, None)
    else
      var (s', total, failure) := ApplyOffers(s, buy, customer, offers[..|offers| - 1], now);
      if failure.Some? then (s', total, failure)
      else
        var o := offers[|offers| - 1];
        var (s'', answer) :=
          PromoBonus(s', o.promo, buy.payment, buy.store, customer, OfferedBonus(o, buy, now), o.id, now);
        if answer.Ok? then (s'', total + answer.value, None) else (s'', total, Some(answer.error))
  }

  /**
   A bonus is the floor of what the rule promises while the promotion runs, from its minimum amount on and within its
   segment, and nothing otherwise.
   */
  lemma {:induction false} OfferedBonusWithin(o: Offer, buy: Purchase, now: int)
    ensures var bonus := OfferedBonus(o, buy, now) as real;
      var started := o.startAt.Some? ==> o.startAt.value <= now;
      var running := o.endAt.Some? ==> now <= o.endAt.value;
      var enough := o.minAmount.Some? ==> o.minAmount.value <= buy.amount;
      if !started || !running || !enough || !o.inSegment then bonus == 0.0
      else
        match o.rule
        case Multiplier(factor) =>
          buy.base as real * factor - 1.0 < buy.base as real + bonus <= buy.base as real * factor
        case BonusPoints(points) => points - 1.0 < bonus <= points
        case OtherRule => bonus == 0.0
  {
    if o.rule.Multiplier? {
      var base, f := buy.base as real, o.rule.factor;
      LessOne(base, f, base * (f - 1.0));
    }
  }

  lemma {:induction false} LessOne(base: real, f: real, y: real)
    requires y == base * (f - 1.0)
    ensures y == base * f - base
  {
  }

  /** Only this customer's columns changed, by these points. */
  predicate Grew(s: State, s': State, customer: Id, points: int) {
    && points >= 0
    && (customer in s.customers ==>
          var c := s.customers[customer];
          s'.customers == s.customers[customer := c.(balance := c.balance + points, lifetime := c.lifetime + points)])
    && (customer !in s.customers ==> points == 0 && s'.customers == s.customers)
  }

  /** No promotion loses its budget or what it spent. */
  predicate PromosAdvance(s: State, s': State) {
    && s'.promos.Keys == s.promos.Keys
    && (forall p :: p in s.promos ==>
          s'.promos[p].budget == s.promos[p].budget && s'.promos[p].spent >= s.promos[p].spent)
  }

  lemma {:induction false} EarnGrows(s: State, id: Id, store: Id, customer: Id, points: nat, payment: Option<Id>,
      now: int)
    requires customer in s.customers
    ensures Grew(s, Record(s, EarnOf(id, store, customer, points, payment, now)), customer, points)
    ensures Record(s, EarnOf(id, store, customer, points, payment, now)).promos == s.promos
  {
    hide PostPoints;
  }

  /** What one promotion did: the customer's balance and lifetime grew by the answer, or nothing changed. */
  lemma {:induction false} PromoGrows(s: State, promo: Id, payment: Id, store: Id, customer: Id, bonus: int, id: Id,
      now: int)
    ensures var (s', answer) := PromoBonus(s, promo, payment, store, customer, bonus, id, now);
      && (answer.Err? ==> s' == s)
      && (answer.Ok? ==> Grew(s, s', customer, answer.value))
      && PromosAdvance(s, s')
  {
    hide Record, Taken;
    var (s', answer) := PromoBonus(s, promo, payment, store, customer, bonus, id, now);
    if answer.Ok? && answer.value > 0 {
      EarnGrows(s, id, store, customer, answer.value, Some(payment), now);
      hide Grew;
      SameCustomers(s, Record(s, EarnOf(id, store, customer, answer.value, Some(payment), now)), s', customer,
        answer.value);
    } else {
      NothingGrows(s, customer);
      hide Grew;
    }
  }

  lemma {:induction false} NothingGrows(s: State, customer: Id)
    ensures Grew(s, s, customer, 0) && PromosAdvance(s, s)
  {
    if customer in s.customers {
      assert s.customers[customer := s.customers[customer]] == s.customers;
    }
  }

  lemma {:induction false} SameCustomers(s: State, s1: State, s2: State, customer: Id, points: int)
    requires Grew(s, s1, customer, points) && s2.customers == s1.customers
    ensures Grew(s, s2, customer, points)
  {
  }

  lemma {:induction false} GrowthAdds(s: State, s1: State, s2: State, customer: Id, a: int, b: int)
    requires Grew(s, s1, customer, a) && Grew(s1, s2, customer, b)
    requires PromosAdvance(s, s1) && PromosAdvance(s1, s2)
    ensures Grew(s, s2, customer, a + b) && PromosAdvance(s, s2)
  {
  }

  /**
   The promotions loop keeps the books, budgets included, and its total is exactly what the customer's balance
   and lifetime points gained, also when a transaction fails on the way.
   */
  lemma {:induction false} OffersKeepBooks(s: State, buy: Purchase, customer: Id, offers: seq<Offer>, now: int)
    requires Books(s)
    ensures var (s', total, failure) := ApplyOffers(s, buy, customer, offers, now);
      && Books(s') && Grew(s, s', customer, total) && PromosAdvance(s, s')
      && (forall p :: p in s'.promos && s'.promos[p].budget.Some? ==> s'.promos[p].spent <= s'.promos[p].budget.value)
  {
    hide Books, PromoBonus, OfferedBonus, Grew, PromosAdvance;
    var (s', total, failure) := ApplyOffers(s, buy, customer, offers, now);
    if offers == [] {
      NothingGrows(s, customer);
    } else {
      var n := |offers| - 1;
      var o := offers[n];
      OffersKeepBooks(s, buy, customer, offers[..n], now);
      var (s1, before, stopped) := ApplyOffers(s, buy, customer, offers[..n], now);
      if stopped.None? {
        var bonus := OfferedBonus(o, buy, now);
        PromoKeepsBooks(s1, o.promo, buy.payment, buy.store, customer, bonus, o.id, now);
        PromoGrows(s1, o.promo, buy.payment, buy.store, customer, bonus, o.id, now);
        var (s2, answer) := PromoBonus(s1, o.promo, buy.payment, buy.store, customer, bonus, o.id, now);
        if answer.Ok? {
          GrowthAdds(s, s1, s2, customer, before, answer.value);
        }
      }
    }
    BudgetsOf(s');
  }

  /** What a promotion pays for a bonus: nothing unless it is the store's and active, and no more than its budget. */
  function Payout(promos: map<Id, Promo>, promo: Id, store: Id, bonus: int): int {
    if promo !in promos || promos[promo].store != store || !promos[promo].active || bonus <= 0 then 0
    else
      match promos[promo].budget
      case None => bonus
      case Some(budget) =>
        var left := budget - promos[promo].spent;
        if left <= 0 then 0 else if left < bonus then left else bonus
  }

  function PayoutTotal(promos: map<Id, Promo>, buy: Purchase, offers: seq<Offer>, now: int): int {
    if offers == [] then 0
    else
      var o := offers[|offers| - 1];
      PayoutTotal(promos, buy, offers[..|offers| - 1], now)
        + Payout(promos, o.promo, buy.store, OfferedBonus(o, buy, now))
  }

  predicate Offered(offers: seq<Offer>, promo: Id) {
    exists i :: 0 <= i < |offers| && offers[i].promo == promo
  }

  predicate IdOfOffer(offers: seq<Offer>, id: Id) {
    exists i :: 0 <= i < |offers| && offers[i].id == id
  }

  /** Different promotions, each with a row id of its own that is free. */
  predicate Separate(s: State, offers: seq<Offer>) {
    && (forall i, k :: 0 <= i < k < |offers| ==> offers[i].promo != offers[k].promo && offers[i].id != offers[k].id)
    && (forall i :: 0 <= i < |offers| ==> IdFree(s, offers[i].id))
  }

  /** The state after some offers: the customer is still there, and other promotions and ids are untouched. */
  ghost predicate OnlyOffers(s: State, s': State, customer: Id, store: Id, offers: seq<Offer>) {
    && Member(s', customer, store)
    && s'.promos.Keys == s.promos.Keys
    && (forall p :: p in s.promos && !Offered(offers, p) ==> s'.promos[p] == s.promos[p])
    && (forall x :: IdFree(s, x) && !IdOfOffer(offers, x) ==> IdFree(s', x))
  }

  lemma {:induction false} PromoPays(s: State, o: Offer, buy: Purchase, customer: Id, now: int)
    requires Member(s, customer, buy.store) && IdFree(s, o.id)
    ensures var bonus := OfferedBonus(o, buy, now);
      var (s', answer) := PromoBonus(s, o.promo, buy.payment, buy.store, customer, bonus, o.id, now);
      && answer == Ok(Payout(s.promos, o.promo, buy.store, bonus))
      && OnlyOffers(s, s', customer, buy.store, [o])
      && (o.promo in s.promos ==> s'.promos[o.promo].spent == s.promos[o.promo].spent + answer.value)
  {
    var bonus := OfferedBonus(o, buy, now);
    PromoDoes(s, o.promo, buy.payment, buy.store, customer, bonus, o.id, now);
    var s' := PromoBonus(s, o.promo, buy.payment, buy.store, customer, bonus, o.id, now).0;
    hide PromoBonus, OfferedBonus;
    assert [o][0] == o;
    assert Offered([o], o.promo) && IdOfOffer([o], o.id);
  }

  lemma {:induction false} OffersJoin(s: State, s1: State, s2: State, customer: Id, store: Id, offers: seq<Offer>,
      o: Offer)
    requires OnlyOffers(s, s1, customer, store, offers) && OnlyOffers(s1, s2, customer, store, [o])
    ensures OnlyOffers(s, s2, customer, store, offers + [o])
  {
    hide IdFree;
    var more := offers + [o];
    assert more[|offers|] == o;
    assert forall i :: 0 <= i < |offers| ==> more[i] == offers[i];
    forall p ensures Offered(offers, p) || Offered([o], p) ==> Offered(more, p) {
      if Offered(offers, p) {
        var i :| 0 <= i < |offers| && offers[i].promo == p;
        assert more[i].promo == p;
      }
    }
    forall x ensures IdOfOffer(offers, x) || IdOfOffer([o], x) ==> IdOfOffer(more, x) {
      if IdOfOffer(offers, x) {
        var i :| 0 <= i < |offers| && offers[i].id == x;
        assert more[i].id == x;
      }
    }
  }

  /**
   Every promotion is applied: for a customer of the store, over different promotions and free ids, none fails, each
   pays its bonus as far as its own budget goes, and the total is the sum of what they pay.
   */
  lemma {:induction false} OffersPay(s: State, buy: Purchase, customer: Id, offers: seq<Offer>, now: int)
    requires Member(s, customer, buy.store) && Separate(s, offers)
    ensures var (s', total, failure) := ApplyOffers(s, buy, customer, offers, now);
      && failure == None && total == PayoutTotal(s.promos, buy, offers, now)
      && OnlyOffers(s, s', customer, buy.store, offers)
      && (forall i :: 0 <= i < |offers| && offers[i].promo in s.promos ==>
            s'.promos[offers[i].promo].spent == s.promos[offers[i].promo].spent
              + Payout(s.promos, offers[i].promo, buy.store, OfferedBonus(offers[i], buy, now)))
  {
    hide PromoBonus, OfferedBonus, Payout, IdFree;
    if offers != [] {
      var n := |offers| - 1;
      var before, o := offers[..n], offers[n];
      forall i | 0 <= i < n ensures before[i] == offers[i] {}
      OffersPay(s, buy, customer, before, now);
      var s1 := ApplyOffers(s, buy, customer, before, now).0;
      assert !Offered(before, o.promo) && !IdOfOffer(before, o.id);
      PromoPays(s1, o, buy, customer, now);
      SamePromo(s.promos, s1.promos, o.promo, buy.store, OfferedBonus(o, buy, now));
      var s2 := ApplyOffers(s, buy, customer, offers, now).0;
      OffersJoin(s, s1, s2, customer, buy.store, before, o);
      assert before + [o] == offers;
      forall i | 0 <= i < n && offers[i].promo in s.promos
        ensures s2.promos[offers[i].promo] == s1.promos[offers[i].promo]
      {
        assert !Offered([o], offers[i].promo);
      }
    }
  }

  lemma {:induction false} SamePromo(a: map<Id, Promo>, b: map<Id, Promo>, promo: Id, store: Id, bonus: int)
    requires a.Keys == b.Keys && (promo in a ==> a[promo] == b[promo])
    ensures Payout(a, promo, store, bonus) == Payout(b, promo, store, bonus)
  {
  }

  lemma {:induction false} FailureStays(s: State, buy: Purchase, customer: Id, offers: seq<Offer>, n: nat, now: int)
    requires n <= |offers| && ApplyOffers(s, buy, customer, offers[..n], now).2.Some?
    ensures ApplyOffers(s, buy, customer, offers, now) == ApplyOffers(s, buy, customer, offers[..n], now)
    decreases |offers|
  {
    if n == |offers| {
      assert offers[..n] == offers;
    } else {
      assert offers[..|offers| - 1][..n] == offers[..n];
      FailureStays(s, buy, customer, offers[..|offers| - 1], n, now);
    }
  }

  /** The expiry sweep over a list of customers: how many were touched and how many points went. */
  function Sweep(s: State, store: Id, list: seq<Id>, cutoff: int, ids: Id -> Id, now: int): (State, nat, int) {
    if list == [] then (s, 0, 0)
    else
      var (s', touched, points) := Sweep(s, store, list[..|list| - 1], cutoff, ids, now);
      var c := list[|list| - 1];
      var (s'', answer) := ExpireCustomer(s', store, c, cutoff, ids(c), now);
      if answer.Ok? && answer.value > 0 then (s'', touched + 1, points + answer.value) else (s'', touched, points)
  }

  class LoyaltyService {
    const ledger: LedgerStore
    var customers: map<Id, Customer>
    var rows: seq<Row>
    var rewards: map<Id, Reward>
    var redemptions: seq<Redemption>
    var promos: map<Id, Promo>
    var referrals: map<Id, Referral>

    constructor (ledger: LedgerStore)
      ensures this.ledger == ledger
      ensures View() == EMPTY.(journals := ledger.journals)
    {
      this.ledger := ledger;
      customers, rows, rewards, redemptions, promos, referrals := map[], [], map[], [], map[], map[];
    }

    ghost function View(): State
      reads this, ledger
    {
      State(customers, rows, ledger.journals, rewards, redemptions, promos, referrals)
    }

    /** The three writes every path makes: the row, the column, the journal. */
    method Commit(row: Row)
      requires row.customer in customers
      modifies this`rows, this`customers, ledger
      ensures View() == Record(old(View()), row)
      ensures rows == old(rows) + [row]
      ensures var c := old(customers)[row.customer];
        customers == old(customers)[row.customer := Customer(c.store, c.balance + row.points,
          c.lifetime + if row.kind == EarnRow then row.points else 0)]
    {
      rows := rows + [row];
      var c := customers[row.customer];
      customers := customers[row.customer := c.(balance := c.balance + row.points)];
      if row.kind == EarnRow {
        customers := customers[row.customer := customers[row.customer].(lifetime := c.lifetime + row.points)];
      }
      if row.points != 0 {
        var movement := LiveMovement(row);
        var _ := ledger.Post(Points(movement), Some(One(row.id)), Some(row.store), PTS,
          PointsLines(movement, row.customer, row.points));
      }
    }

    /** Base points of a paid payment: the program's rate, the customer's tier multiplier, once per payment. */
    method AwardForPayment(payment: Id, store: Id, customer: Option<Id>, amount: real, program: Option<Program>,
        multiplier: real, id: Id, now: int)
      returns (answer: Answer)
      modifies this`rows, this`customers, ledger
      ensures (View(), answer) ==
        if customer.None? || program.None? || !program.value.active then (old(View()), Ok(0))
        else Award(old(View()), payment, store, customer.value,
          EarnedPoints(amount, program.value.pointsPerUnit, multiplier), id, now)
      ensures customer.Some? && program.Some? && program.value.active ==>
        AwardIs(old(View()), View(), answer, payment, store, customer.value,
          EarnedPoints(amount, program.value.pointsPerUnit, multiplier), id, now)
    {
      if customer.Some? && program.Some? {
        AwardDoes(View(), payment, store, customer.value,
          EarnedPoints(amount, program.value.pointsPerUnit, multiplier), id, now);
      }
      hide FloorOfProduct, Awarded, AwardIs;
      if customer.None? {
        return Ok(0);
      }
      if program.None? || !program.value.active {
        return Ok(0);
      }
      var base := FloorOfProduct(amount, program.value.pointsPerUnit);
      if base <= 0 {
        return Ok(0);
      }
      if Awarded(rows, payment) {
        return Ok(0);
      }
      var earned := FloorOfProduct(base as real, multiplier);
      if earned <= 0 {
        return Ok(0);
      }
      var refusal := WriteRefusal(customers, rows, id, store, customer.value);
      if refusal.Some? {
        return Err(refusal.value);
      }
      Commit(EarnOf(id, store, customer.value, earned, Some(payment), now));
      return Ok(earned);
    }

    /** The raw bonus of a promotion, zero when one of its conditions fails. */
    method QuoteBonus(o: Offer, buy: Purchase, now: int) returns (bonus: int)
      ensures bonus == OfferedBonus(o, buy, now)
      ensures var started := o.startAt.Some? ==> o.startAt.value <= now;
        var running := o.endAt.Some? ==> now <= o.endAt.value;
        var enough := o.minAmount.Some? ==> o.minAmount.value <= buy.amount;
        if !started || !running || !enough || !o.inSegment then bonus == 0
        else
          match o.rule
          case Multiplier(factor) =>
            buy.base as real * factor - 1.0 < (buy.base + bonus) as real <= buy.base as real * factor
          case BonusPoints(points) => points - 1.0 < bonus as real <= points
          case OtherRule => bonus == 0
    {
      OfferedBonusWithin(o, buy, now);
      hide FloorOfProduct;
      if (o.startAt.Some? && o.startAt.value > now) || (o.endAt.Some? && o.endAt.value < now) {
        return 0;
      }
      if o.minAmount.Some? && buy.amount < o.minAmount.value {
        return 0;
      }
      if !o.inSegment {
        return 0;
      }
      bonus := 0;
      if o.rule.Multiplier? {
        bonus := FloorOfProduct(buy.base as real, o.rule.factor - 1.0);
      } else if o.rule.BonusPoints? {
        bonus := o.rule.points.Floor;
      }
    }

    /** One promotion: its conditions, its budget, and one transaction for the bonus row and the spent points. */
    method ApplyPromotion(o: Offer, buy: Purchase, customer: Id, now: int) returns (answer: Answer)
      modifies this`rows, this`customers, this`promos, ledger
      ensures (View(), answer)
        == PromoBonus(old(View()), o.promo, buy.payment, buy.store, customer, OfferedBonus(o, buy, now), o.id, now)
      ensures PromoIs(old(View()), View(), answer, o.promo, buy.payment, buy.store, customer, OfferedBonus(o, buy, now),
        o.id, now)
    {
      PromoDoes(View(), o.promo, buy.payment, buy.store, customer, OfferedBonus(o, buy, now), o.id, now);
      hide PromoIs;
      hide OfferedBonus;
      if o.promo !in promos || promos[o.promo].store != buy.store || !promos[o.promo].active {
        return Ok(0);
      }
      var promo := promos[o.promo];
      var bonus := QuoteBonus(o, buy, now);
      if bonus <= 0 {
        return Ok(0);
      }
      if promo.budget.Some? {
        var remaining := promo.budget.value - promo.spent;
        if remaining <= 0 {
          return Ok(0);
        }
        bonus := Min(bonus, remaining);
      }
      var refusal := WriteRefusal(customers, rows, o.id, buy.store, customer);
      if refusal.Some? {
        return Err(refusal.value);
      }
      Commit(EarnOf(o.id, buy.store, customer, bonus, Some(buy.payment), now));
      var ended := promo.budget.Some? && promo.spent + bonus >= promo.budget.value;
      promos := promos[o.promo := promo.(spent := promo.spent + bonus, active := !ended)];
      return Ok(bonus);
    }

    /** Applies the active promotions to a payment, adding up the bonuses. */
    method ApplyToPayment(buy: Purchase, customer: Option<Id>, offers: seq<Offer>,
        now: int) returns (totalBonus: int, failure: Option<Failure>)
      modifies this`rows, this`customers, this`promos, ledger
      ensures (View(), totalBonus, failure) ==
        if customer.None? then (old(View()), 0, None) else ApplyOffers(old(View()), buy, customer.value, offers, now)
      ensures customer.Some? && old(Books(View())) ==>
        Books(View()) && Grew(old(View()), View(), customer.value, totalBonus)
      ensures customer.Some? && old(Member(View(), customer.value, buy.store) && Separate(View(), offers)) ==>
        failure == None && totalBonus == PayoutTotal(old(promos), buy, offers, now)
    {
      hide PromoBonus, PromoIs, Books, Grew, PromosAdvance, OfferedBonus, PayoutTotal, Separate, Member, OnlyOffers,
        Payout, IdFree;
      if customer.Some? && Member(View(), customer.value, buy.store) && Separate(View(), offers) {
        OffersPay(View(), buy, customer.value, offers, now);
      }
      totalBonus, failure := 0, None;
      if customer.None? {
        return;
      }
      ghost var before := View();
      for i := 0 to |offers|
        invariant (View(), totalBonus, None) == ApplyOffers(before, buy, customer.value, offers[..i], now)
      {
        assert offers[..i + 1][..i] == offers[..i];
        var answer := ApplyPromotion(offers[i], buy, customer.value, now);
        if answer.Err? {
          FailureStays(before, buy, customer.value, offers, i + 1, now);
          if Books(before) {
            OffersKeepBooks(before, buy, customer.value, offers, now);
          }
          return totalBonus, Some(answer.error);
        }
        totalBonus := totalBonus + answer.value;
      }
      assert offers[..|offers|] == offers;
      if Books(before) {
        OffersKeepBooks(before, buy, customer.value, offers, now);
      }
      return totalBonus, None;
    }

    /** The whole earn path: base points first and then, when some were awarded, the promotions on top. */
    method EarnForPayment(payment: Id, store: Id, customer: Option<Id>, amount: real, program: Option<Program>,
        multiplier: real,
                          offers: seq<Offer>, id: Id, now: int)
      returns (answer: Answer, bonus: int, failure: Option<Failure>)
      modifies this`rows, this`customers, this`promos, ledger
      ensures customer.None? || program.None? || !program.value.active ==>
        View() == old(View()) && answer == Ok(0) && bonus == 0 && failure == None
      ensures customer.Some? && program.Some? && program.value.active ==>
        var earned := EarnedPoints(amount, program.value.pointsPerUnit, multiplier);
        var (s1, base) := Award(old(View()), payment, store, customer.value, earned, id, now);
        var buy := Purchase(payment, store, amount, BasePoints(amount, program.value.pointsPerUnit));
        && answer == base
        && (base.Ok? && base.value > 0 ==>
              (View(), bonus, failure) == ApplyOffers(s1, buy, customer.value, offers, now))
        && (base.Err? || base.value <= 0 ==> View() == s1 && bonus == 0 && failure == None)
    {
      hide Award, ApplyOffers, EarnedPoints;
      answer := AwardForPayment(payment, store, customer, amount, program, multiplier, id, now);
      if answer.Err? || answer.value <= 0 {
        return answer, 0, None;
      }
      var buy := Purchase(payment, store, amount, BasePoints(amount, program.value.pointsPerUnit));
      bonus, failure := ApplyToPayment(buy, customer, offers, now);
    }

    method CreditPrize(store: Id, customer: Id, points: int, id: Id, now: int) returns (answer: Answer)
      modifies this`rows, this`customers, ledger
      ensures (View(), answer) == GamePrize(old(View()), store, customer, points, id, now)
      ensures PrizeIs(old(View()), View(), answer, store, customer, points, id, now)
    {
      PrizeDoes(View(), store, customer, points, id, now);
      hide PrizeIs;
      if points <= 0 {
        return Ok(0);
      }
      var refusal := WriteRefusal(customers, rows, id, store, customer);
      if refusal.Some? {
        return Err(refusal.value);
      }
      Commit(EarnOf(id, store, customer, points, None, now));
      return Ok(points);
    }

    /** Rewards both sides of a referral by the store's program, or rolls both back. */
    method OnPaidPayment(customer: Option<Id>, store: Id, payment: Id, program: Option<ReferralProgram>, id1: Id,
        id2: Id, now: int)
      returns (answer: Answer)
      modifies this, ledger
      ensures (View(), answer) ==
        if customer.None? || program.None? || !program.value.active then (old(View()), Ok(0))
        else ReferralReward(old(View()), customer.value, store, payment, program.value.referrerPoints,
                            program.value.refereePoints, id1, id2, now)
      ensures customer.Some? && program.Some? && program.value.active ==>
        ReferralIs(old(View()), View(), answer, customer.value, store, payment, program.value.referrerPoints,
          program.value.refereePoints, id1, id2, now)
    {
      if customer.Some? && program.Some? {
        ReferralDoes(View(), customer.value, store, payment, program.value.referrerPoints,
          program.value.refereePoints, id1, id2, now);
      }
      hide ReferralIs, BothGained, SideRows, Member, IdFree, Wrote;
      if customer.None? {
        return Ok(0);
      }
      var referee := customer.value;
      if referee !in referrals || referrals[referee].rewarded || referrals[referee].flagged {
        return Ok(0);
      }
      if program.None? || !program.value.active {
        return Ok(0);
      }
      var referrerPoints, refereePoints := program.value.referrerPoints, program.value.refereePoints;
      var oldRows, oldCustomers, oldJournals := rows, customers, ledger.journals;
      var referrer := referrals[referee].referrer;
      var total := 0;
      if referrerPoints > 0 {
        var refusal := WriteRefusal(customers, rows, id1, store, referrer);
        if refusal.Some? {
          return Err(refusal.value);
        }
        Commit(EarnOf(id1, store, referrer, referrerPoints, None, now));
        total := referrerPoints;
      }
      if refereePoints > 0 {
        var refusal := WriteRefusal(customers, rows, id2, store, referee);
        if refusal.Some? {
          rows, customers, ledger.journals := oldRows, oldCustomers, oldJournals;
          return Err(refusal.value);
        }
        Commit(EarnOf(id2, store, referee, refereePoints, Some(payment), now));
        total := total + refereePoints;
      }
      referrals := referrals[referee := referrals[referee].(rewarded := true)];
      return Ok(total);
    }

    /** The balance mutation behind redeem and adjust. */
    method MutateIn(kind: Kind, store: Id, customer: Id, delta: int, reason: Option<string>, id: Id,
        now: int) returns (answer: Answer)
      modifies this`rows, this`customers, ledger
      ensures (View(), answer) == Mutate(old(View()), kind, store, customer, delta, reason, id, now)
      ensures answer.Ok? <==>
        && customer in old(customers) && old(customers)[customer].store == store
        && old(customers)[customer].balance + delta >= 0
        && forall i :: 0 <= i < |old(rows)| ==> old(rows)[i].id != id
      ensures MutationIs(old(View()), View(), answer, kind, store, customer, delta, reason, id, now)
    {
      MutateDoes(View(), kind, store, customer, delta, reason, id, now);
      if customer !in customers || customers[customer].store != store {
        return Err(UnknownCustomer);
      }
      var newBalance := customers[customer].balance + delta;
      if newBalance < 0 {
        return Err(Insufficient);
      }
      if Taken(rows, id) {
        return Err(IdTaken);
      }
      Commit(Row(id, store, customer, kind, delta, None, reason, now, true, Plain));
      return Ok(delta);
    }

    /** Points spent at the counter: as many as were named, whatever their sign. */
    method Redeem(store: Id, customer: Id, points: int, reason: Option<string>, id: Id, now: int)
      returns (answer: Answer)
      modifies this`rows, this`customers, ledger
      ensures (View(), answer) == RedeemPoints(old(View()), store, customer, points, reason, id, now)
      ensures MutationIs(old(View()), View(), answer, RedeemRow, store, customer,
        if points < 0 then points else -points, reason, id, now)
    {
      answer := MutateIn(RedeemRow, store, customer, -(Abs(points) as int), reason, id, now);
    }

    method Adjust(store: Id, customer: Id, points: int, reason: Option<string>, id: Id, now: int)
      returns (answer: Answer)
      modifies this`rows, this`customers, ledger
      ensures (View(), answer) == AdjustPoints(old(View()), store, customer, points, reason, id, now)
      ensures MutationIs(old(View()), View(), answer, AdjustRow, store, customer, points, reason, id, now)
    {
      answer := MutateIn(AdjustRow, store, customer, points, reason, id, now);
    }

    method RedeemForReward(store: Id, customer: Id, reward: Id, id: Id, now: int) returns (answer: Answer)
      modifies this, ledger
      ensures (View(), answer) == RedeemReward(old(View()), store, customer, reward, id, now)
      ensures RedemptionIs(old(View()), View(), answer, store, customer, reward, id, now)
    {
      RedeemDoes(View(), store, customer, reward, id, now);
      hide RedemptionIs;
      if reward !in rewards || rewards[reward].store != store {
        return Err(UnknownReward);
      }
      var r := rewards[reward];
      if !r.active {
        return Err(NotAvailable);
      }
      if r.stock == 0 {
        return Err(OutOfStock);
      }
      if customer !in customers || customers[customer].store != store {
        return Err(UnknownCustomer);
      }
      if customers[customer].balance < r.cost {
        return Err(Insufficient);
      }
      if Taken(rows, id) {
        return Err(IdTaken);
      }
      Commit(Row(id, store, customer, RedeemRow, -(r.cost as int), None, Some("reward"), now, true,
        ForReward(|redemptions|)));
      if r.stock > 0 {
        rewards := rewards[reward := r.(stock := r.stock - 1)];
      }
      redemptions := redemptions + [Redemption(store, customer, reward, r.cost, Issued)];
      return Ok(r.cost);
    }

    method CancelRedemption(redemption: Id, id: Id, now: int) returns (answer: Answer)
      modifies this, ledger
      ensures (View(), answer) == Cancel(old(View()), redemption, id, now)
      ensures CancellationIs(old(View()), View(), answer, redemption, id, now)
    {
      CancelDoes(View(), redemption, id, now);
      hide CancellationIs;
      if redemption >= |redemptions| {
        return Err(NotFound);
      }
      var r := redemptions[redemption];
      if r.status != Issued {
        return Err(WrongStatus);
      }
      var refusal := WriteRefusal(customers, rows, id, r.store, r.customer);
      if refusal.Some? {
        return Err(refusal.value);
      }
      Commit(Row(id, r.store, r.customer, AdjustRow, r.spent, None, Some(REDEMPTION_CANCELLED_REASON), now, true,
        CancelOf(redemption)));
      if r.reward in rewards && rewards[r.reward].stock >= 0 {
        rewards := rewards[r.reward := rewards[r.reward].(stock := rewards[r.reward].stock + 1)];
      }
      redemptions := redemptions[redemption := r.(status := Cancelled)];
      return Ok(r.spent);
    }

    /** A voucher handed over at the counter. */
    method FulfillRedemption(redemption: Id) returns (answer: Answer)
      modifies this`redemptions
      ensures (View(), answer) == Fulfill(old(View()), redemption)
      ensures FulfilmentIs(old(View()), View(), answer, redemption)
    {
      if redemption >= |redemptions| {
        return Err(NotFound);
      }
      if redemptions[redemption].status != Issued {
        return Err(WrongStatus);
      }
      redemptions := redemptions[redemption := redemptions[redemption].(status := Fulfilled)];
      return Ok(0);
    }

    method ExpireOne(store: Id, customer: Id, cutoff: int, id: Id, now: int) returns (answer: Answer)
      modifies this`rows, this`customers, ledger
      ensures (View(), answer) == ExpireCustomer(old(View()), store, customer, cutoff, id, now)
      ensures ExpiryIs(old(View()), View(), answer, store, customer, cutoff, id, now)
    {
      ExpireDoes(View(), store, customer, cutoff, id, now);
      hide ExpiryIs;
      if customer !in customers || customers[customer].balance <= 0 {
        return Ok(0);
      }
      var expirable := AtRiskBefore(LogOf(rows, customer), customers[customer].balance, cutoff);
      if expirable <= 0 {
        return Ok(0);
      }
      var refusal := WriteRefusal(customers, rows, id, store, customer);
      if refusal.Some? {
        return Err(refusal.value);
      }
      Commit(Row(id, store, customer, ExpireRow, -expirable, None, Some("expired"), now, true, Plain));
      return Ok(expirable);
    }

    /** The sweep over a store's customers; one customer's failure does not stop the rest. */
    method ExpireForStore(store: Id, list: seq<Id>, cutoff: int, ids: Id -> Id, now: int) returns (touched: nat,
        points: int)
      modifies this`rows, this`customers, ledger
      ensures (View(), touched, points) == Sweep(old(View()), store, list, cutoff, ids, now)
    {
      hide ExpireCustomer;
      touched, points := 0, 0;
      ghost var before := View();
      for i := 0 to |list|
        invariant (View(), touched, points) == Sweep(before, store, list[..i], cutoff, ids, now)
      {
        assert list[..i + 1][..i] == list[..i];
        var answer := ExpireOne(store, list[i], cutoff, ids(list[i]), now);
        if answer.Ok? && answer.value > 0 {
          touched := touched + 1;
          points := points + answer.value;
        }
      }
      assert list[..|list|] == list;
    }
  }

  // -------------------------------------------------------- what a sweep takes

  lemma {:induction false} RiskBounds(log: seq<Txn>, balance: int, cutoff: int)
    ensures 0 <= AtRiskBefore(log, balance, cutoff) <= Max(0, balance)
  {
  }

  lemma {:induction false} TakenAppend(rows: seq<Row>, row: Row, x: Id)
    ensures Taken(rows + [row], x) <==> Taken(rows, x) || x == row.id
  {
    if Taken(rows, x) {
      var i :| 0 <= i < |rows| && rows[i].id == x;
      assert (rows + [row])[i].id == x;
    }
    assert (rows + [row])[|rows|] == row;
  }

  /** One customer's expiry takes exactly what is at risk, leaves nothing at risk, and touches nobody else. */
  lemma {:induction false} ExpireOneIsExact(s: State, store: Id, c: Id, cutoff: int, id: Id, now: int)
    requires Books(s) && c in s.customers && s.customers[c].store == store && !Taken(s.rows, id)
    ensures var (s', answer) := ExpireCustomer(s, store, c, cutoff, id, now);
      && answer == Ok(Expirable(s, c, cutoff)) && answer.value >= 0
      && s'.customers == s.customers[c := s.customers[c].(balance := s.customers[c].balance - answer.value)]
      && Expirable(s', c, cutoff) == 0
      && (forall other :: other != c ==> LogOf(s'.rows, other) == LogOf(s.rows, other))
      && (forall x :: Taken(s'.rows, x) ==> Taken(s.rows, x) || x == id)
  {
    hide Books, PostPoints, LogOf, AtRiskBefore, Taken;
    NotOverdrawn(s, c);
    RiskBounds(LogOf(s.rows, c), s.customers[c].balance, cutoff);
    var s' := ExpireCustomer(s, store, c, cutoff, id, now).0;
    if s' != s {
      var n := Expirable(s, c, cutoff);
      var row := Row(id, store, c, ExpireRow, -n, None, Some("expired"), now, true, Plain);
      var log := LogOf(s.rows, c);
      LogOfAppend(s.rows, row, c);
      ExpiryComposes(log, s.customers[c].balance, cutoff, cutoff, now);
      assert LogOf(s'.rows, c) == log + [Expired(log, s.customers[c].balance, cutoff, now)];
      forall other | other != c ensures LogOf(s'.rows, other) == LogOf(s.rows, other) {
        LogOfAppend(s.rows, row, other);
        assert LogOf(s.rows, other) + [] == LogOf(s.rows, other);
      }
      forall x ensures Taken(s'.rows, x) <==> Taken(s.rows, x) || x == id {
        TakenAppend(s.rows, row, x);
      }
    } else {
      assert s.customers[c := s.customers[c]] == s.customers;
    }
  }

  function AtRiskTotal(s: State, list: seq<Id>, cutoff: int): int
    requires forall i :: 0 <= i < |list| ==> list[i] in s.customers
  {
    if list == [] then 0 else AtRiskTotal(s, list[..|list| - 1], cutoff) + Expirable(s, list[|list| - 1], cutoff)
  }

  function CountAtRisk(s: State, list: seq<Id>, cutoff: int): nat
    requires forall i :: 0 <= i < |list| ==> list[i] in s.customers
  {
    if list == [] then 0
    else
      var c := list[|list| - 1];
      CountAtRisk(s, list[..|list| - 1], cutoff) + if Expirable(s, c, cutoff) > 0 then 1 else 0
  }

  /** A batch of customers of one store, each with an unused row id of its own. */
  ghost predicate Batch(s: State, store: Id, list: seq<Id>, ids: Id -> Id) {
    && (forall i :: 0 <= i < |list| ==>
         list[i] in s.customers && s.customers[list[i]].store == store && !Taken(s.rows, ids(list[i])))
    && (forall i, k :: 0 <= i < k < |list| ==> list[i] != list[k] && ids(list[i]) != ids(list[k]))
  }

  /** The state after a sweep: listed customers lost what was at risk, the others did not change. */
  ghost predicate Swept(s: State, s': State, list: seq<Id>, cutoff: int) {
    && s'.customers.Keys == s.customers.Keys
    && (forall c :: c in s.customers ==>
         s'.customers[c].store == s.customers[c].store && s'.customers[c].lifetime == s.customers[c].lifetime)
    && (forall c :: c in s.customers && c in list ==>
         s'.customers[c].balance == s.customers[c].balance - Expirable(s, c, cutoff) && Expirable(s', c, cutoff) == 0)
    && (forall c :: c in s.customers && c !in list ==>
         s'.customers[c].balance == s.customers[c].balance && LogOf(s'.rows, c) == LogOf(s.rows, c))
  }

  predicate IdOfOne(list: seq<Id>, ids: Id -> Id, x: Id) {
    exists i :: 0 <= i < |list| && x == ids(list[i])
  }

  /** The row ids a sweep may have used. */
  ghost predicate OnlyTook(s: State, s': State, list: seq<Id>, ids: Id -> Id) {
    forall x :: Taken(s'.rows, x) ==> Taken(s.rows, x) || IdOfOne(list, ids, x)
  }

  /**
   A sweep takes from every listed customer exactly what is at risk, and reports exactly how many
   customers and points that was; nobody else changes, and lifetime points, the tier basis, never do.
   */
  lemma {:induction false} SweepIsExact(s: State, store: Id, list: seq<Id>, cutoff: int, ids: Id -> Id, now: int)
    requires Books(s) && Batch(s, store, list, ids)
    ensures var (s', touched, points) := Sweep(s, store, list, cutoff, ids, now);
      Books(s') && Swept(s, s', list, cutoff) && OnlyTook(s, s', list, ids) && points == AtRiskTotal(s, list, cutoff)
        && touched == CountAtRisk(s, list, cutoff)
  {
    hide ExpireCustomer, Expirable, Books, Taken, OnlyTook, Swept;
    if list == [] {
      NothingSwept(s, cutoff, ids);
    } else {
      var before, c := list[..|list| - 1], list[|list| - 1];
      BatchPrefix(s, store, list, ids);
      SweepIsExact(s, store, before, cutoff, ids, now);
      var s1 := Sweep(s, store, before, cutoff, ids, now).0;
      SweepOneMore(s, s1, store, before, c, cutoff, ids, now);
      assert before + [c] == list;
    }
  }

  lemma {:induction false} NothingSwept(s: State, cutoff: int, ids: Id -> Id)
    ensures Swept(s, s, [], cutoff) && OnlyTook(s, s, [], ids)
  {
  }

  lemma {:induction false} SweepOneMore(s: State, s1: State, store: Id, list: seq<Id>, c: Id, cutoff: int,
      ids: Id -> Id, now: int)
    requires Books(s1) && Swept(s, s1, list, cutoff) && OnlyTook(s, s1, list, ids)
    requires Batch(s, store, list + [c], ids)
    ensures var (s2, answer) := ExpireCustomer(s1, store, c, cutoff, ids(c), now);
      && Books(s2) && Swept(s, s2, list + [c], cutoff) && OnlyTook(s, s2, list + [c], ids)
      && c in s.customers && answer == Ok(Expirable(s, c, cutoff)) && answer.value >= 0
  {
    hide Books, LogOf, AtRiskBefore, Taken;
    assert (list + [c])[|list|] == c;
    forall i | 0 <= i < |list| ensures list[i] != c && ids(list[i]) != ids(c) {
      assert (list + [c])[i] == list[i];
    }
    assert !Taken(s1.rows, ids(c));
    ExpireOneIsExact(s1, store, c, cutoff, ids(c), now);
    ExpireKeepsBooks(s1, store, c, cutoff, ids(c), now);
    var s2 := ExpireCustomer(s1, store, c, cutoff, ids(c), now).0;
    hide ExpireCustomer;
    SweptOneMore(s, s1, s2, list, c, cutoff);
    TookOneMore(s, s1, s2, list, c, ids);
  }

  lemma {:induction false} BatchPrefix(s: State, store: Id, list: seq<Id>, ids: Id -> Id)
    requires Batch(s, store, list, ids) && list != []
    ensures Batch(s, store, list[..|list| - 1], ids)
  {
    forall i | 0 <= i < |list| - 1 ensures list[..|list| - 1][i] == list[i] {}
  }

  lemma {:induction false} SweptOneMore(s: State, s1: State, s2: State, list: seq<Id>, c: Id, cutoff: int)
    requires Swept(s, s1, list, cutoff) && c in s.customers && c !in list
    requires s2.customers
      == s1.customers[c := s1.customers[c].(balance := s1.customers[c].balance - Expirable(s1, c, cutoff))]
    requires Expirable(s2, c, cutoff) == 0
    requires forall other :: other != c ==> LogOf(s2.rows, other) == LogOf(s1.rows, other)
    ensures Swept(s, s2, list + [c], cutoff)
  {
    hide LogOf, AtRiskBefore;
  }

  lemma {:induction false} TookOneMore(s: State, s1: State, s2: State, list: seq<Id>, c: Id, ids: Id -> Id)
    requires OnlyTook(s, s1, list, ids)
    requires forall x :: Taken(s2.rows, x) ==> Taken(s1.rows, x) || x == ids(c)
    ensures OnlyTook(s, s2, list + [c], ids)
  {
    hide Taken;
    var longer := list + [c];
    assert longer[|list|] == c;
    forall x | Taken(s2.rows, x) ensures Taken(s.rows, x) || IdOfOne(longer, ids, x) {
      if Taken(s1.rows, x) && !Taken(s.rows, x) {
        var i :| 0 <= i < |list| && x == ids(list[i]);
        assert longer[i] == list[i];
      }
    }
  }

  /** Sweeping again at the same cutoff takes nothing from anyone. */
  lemma {:induction false} SecondSweepTakesNothing(s: State, store: Id, list: seq<Id>, cutoff: int, ids: Id -> Id,
      now: int)
    requires forall i :: 0 <= i < |list| ==> list[i] in s.customers && Expirable(s, list[i], cutoff) == 0
    ensures Sweep(s, store, list, cutoff, ids, now) == (s, 0, 0)
  {
    if list != [] {
      var before := list[..|list| - 1];
      forall i | 0 <= i < |before| ensures before[i] in s.customers && Expirable(s, before[i], cutoff) == 0 {
        assert before[i] == list[i];
      }
      SecondSweepTakesNothing(s, store, before, cutoff, ids, now);
    }
  }

  /** The sweep is idempotent: run twice it ends where the first run ended, under any new row ids. */
  lemma {:induction false} SweepIsIdempotent(s: State, store: Id, list: seq<Id>, cutoff: int, ids: Id -> Id,
      ids': Id -> Id, now: int, now': int)
    requires Books(s) && Batch(s, store, list, ids)
    ensures var s' := Sweep(s, store, list, cutoff, ids, now).0;
      Sweep(s', store, list, cutoff, ids', now') == (s', 0, 0)
  {
    SweepIsExact(s, store, list, cutoff, ids, now);
    hide Books;
    SecondSweepTakesNothing(Sweep(s, store, list, cutoff, ids, now).0, store, list, cutoff, ids', now');
  }
}
