/**
 The loyalty points engine: every path that moves points, each one database transaction
 (loyalty.service.ts, campaigns.service.ts, games.service.ts, referrals.service.ts).

 Each path writes a row, a balance column and a journal. The steps are functions on the stored state;
 `LoyaltyService` performs them on mutable tables. The main results hold after any sequence of steps.
 */
module PointsEngine {
  import opened Wrappers
  import opened Ledger
  import opened Currencies
  import opened Fifo
  import opened PointsLedger

  datatype Customer = Customer(store: Id, balance: int, lifetime: int)

  datatype Reward = Reward(store: Id, cost: nat, stock: int, active: bool)

  datatype Status = Issued | Fulfilled | Cancelled

  datatype Redemption = Redemption(store: Id, customer: Id, reward: Id, spent: nat, status: Status)

  datatype Promo = Promo(store: Id, budget: Option<nat>, spent: nat, active: bool)

  datatype Referral = Referral(referrer: Id, rewarded: bool, flagged: bool)

  /** The tables. Redemptions are numbered in the order they are issued; a referral is keyed by its referee. */
  datatype State = State(
    customers: map<Id, Customer>, rows: seq<Row>, journals: seq<Journal>,
    rewards: map<Id, Reward>, redemptions: seq<Redemption>, promos: map<Id, Promo>, referrals: map<Id, Referral>)

  datatype Failure =
    | IdTaken | UnknownCustomer | Insufficient | UnknownReward | NotAvailable | OutOfStock | NotFound | WrongStatus

  type Answer = Result<int, Failure>

  // ------------------------------------------------------ the shared transaction

  predicate Taken(rows: seq<Row>, id: Id) {
    exists i :: 0 <= i < |rows| && rows[i].id == id
  }

  /** The row, the column and the journal of one movement, committed together. */
  function Record(s: State, row: Row): State
    requires row.customer in s.customers
  {
    var c := s.customers[row.customer];
    s.(rows := s.rows + [row],
       customers := s.customers[row.customer := c.(balance := c.balance + row.points,
                                                   lifetime := c.lifetime
                                                     + if row.kind == EarnRow then row.points else 0)],
       journals := PostPoints(s.journals, row, LiveMovement(row)))
  }

  /** A write fails when the row id is taken (its primary key) or the customer is not one of the store. */
  function WriteRefusal(customers: map<Id, Customer>, rows: seq<Row>, id: Id, store: Id,
      customer: Id): Option<Failure> {
    if customer !in customers || customers[customer].store != store then Some(UnknownCustomer)
    else if Taken(rows, id) then Some(IdTaken)
    else None
  }

  function Refusal(s: State, id: Id, store: Id, customer: Id): Option<Failure> {
    WriteRefusal(s.customers, s.rows, id, store, customer)
  }

  /** A payment has earned already. */
  predicate Awarded(rows: seq<Row>, payment: Id) {
    exists i :: 0 <= i < |rows| && rows[i].payment == Some(payment) && rows[i].kind == EarnRow
  }

  function EarnOf(id: Id, store: Id, customer: Id, points: int, payment: Option<Id>, now: int): Row {
    Row(id, store, customer, EarnRow, points, payment, None, now, true, Plain)
  }

  // ------------------------------------------------------------------ the paths

  /** Base points of a paid payment; `earned` is the floored product of amount, rate and tier multiplier. */
  function Award(s: State, payment: Id, store: Id, customer: Id, earned: int, id: Id, now: int): (State, Answer) {
    if earned <= 0 then (s, Ok(0))
    else if Awarded(s.rows, payment) then (s, Ok(0))
    else if Refusal(s, id, store, customer).Some? then (s, Err(Refusal(s, id, store, customer).value))
    else (Record(s, EarnOf(id, store, customer, earned, Some(payment), now)), Ok(earned))
  }

  /** The bonus a promotion still allows. */
  function Capped(p: Promo, bonus: int): int {
    if p.budget.None? then bonus else Min(bonus, p.budget.value - p.spent)
  }

  /** One promotion applied to one payment, capped by its budget; a spent budget ends it. */
  function PromoBonus(s: State, promo: Id, payment: Id, store: Id, customer: Id, bonus: int, id: Id,
      now: int): (State, Answer) {
    if promo !in s.promos || s.promos[promo].store != store || !s.promos[promo].active || bonus <= 0 then (s, Ok(0))
    else
      var p := s.promos[promo];
      var awarded := Capped(p, bonus);
      if awarded <= 0 then (s, Ok(0))
      else if Refusal(s, id, store, customer).Some? then (s, Err(Refusal(s, id, store, customer).value))
      else
        var p' := p.(spent := p.spent + awarded, active := p.budget.None? || p.spent + awarded < p.budget.value);
        (Record(s, EarnOf(id, store, customer, awarded, Some(payment), now)).(promos := s.promos[promo := p']),
          Ok(awarded))
  }

  /** A game prize worth points. */
  function GamePrize(s: State, store: Id, customer: Id, points: int, id: Id, now: int): (State, Answer) {
    if points <= 0 then (s, Ok(0))
    else if Refusal(s, id, store, customer).Some? then (s, Err(Refusal(s, id, store, customer).value))
    else (Record(s, EarnOf(id, store, customer, points, None, now)), Ok(points))
  }

  /** One side of a referral reward; nothing is written for zero points. */
  function ReferralSide(s: State, store: Id, customer: Id, points: int, payment: Option<Id>, id: Id,
      now: int): (State, Answer) {
    if points <= 0 then (s, Ok(0))
    else if Refusal(s, id, store, customer).Some? then (s, Err(Refusal(s, id, store, customer).value))
    else (Record(s, EarnOf(id, store, customer, points, payment, now)), Ok(points))
  }

  /** On the referee's first paid payment both sides are rewarded, once, or neither when one write fails. */
  function ReferralReward(s: State, referee: Id, store: Id, payment: Id, referrerPoints: int, refereePoints: int,
      id1: Id, id2: Id, now: int): (State, Answer) {
    if referee !in s.referrals || s.referrals[referee].rewarded || s.referrals[referee].flagged then (s, Ok(0))
    else
      var (s1, a1) := ReferralSide(s, store, s.referrals[referee].referrer, referrerPoints, None, id1, now);
      if a1.Err? then (s, a1)
      else
        var (s2, a2) := ReferralSide(s1, store, referee, refereePoints, Some(payment), id2, now);
        if a2.Err? then (s, a2)
        else (s2.(referrals := s.referrals[referee := s.referrals[referee].(rewarded := true)]),
          Ok(a1.value + a2.value))
  }

  /** Raw redeem (`delta` negative) and manual adjust (either sign). */
  function Mutate(s: State, kind: Kind, store: Id, customer: Id, delta: int, reason: Option<string>, id: Id,
      now: int): (State, Answer) {
    if customer !in s.customers || s.customers[customer].store != store then (s, Err(UnknownCustomer))
    else if s.customers[customer].balance + delta < 0 then (s, Err(Insufficient))
    else if Taken(s.rows, id) then (s, Err(IdTaken))
    else (Record(s, Row(id, store, customer, kind, delta, None, reason, now, true, Plain)), Ok(delta))
  }

  function RedeemPoints(s: State, store: Id, customer: Id, points: int, reason: Option<string>, id: Id,
      now: int): (State, Answer) {
    Mutate(s, RedeemRow, store, customer, -(Abs(points) as int), reason, id, now)
  }

  function AdjustPoints(s: State, store: Id, customer: Id, points: int, reason: Option<string>, id: Id,
      now: int): (State, Answer) {
    Mutate(s, AdjustRow, store, customer, points, reason, id, now)
  }

  /** Points for a catalogue reward: deduct, take one from a finite stock, issue the voucher. */
  function RedeemReward(s: State, store: Id, customer: Id, reward: Id, id: Id, now: int): (State, Answer) {
    if reward !in s.rewards || s.rewards[reward].store != store then (s, Err(UnknownReward))
    else if !s.rewards[reward].active then (s, Err(NotAvailable))
    else if s.rewards[reward].stock == 0 then (s, Err(OutOfStock))
    else if customer !in s.customers || s.customers[customer].store != store then (s, Err(UnknownCustomer))
    else if s.customers[customer].balance < s.rewards[reward].cost then (s, Err(Insufficient))
    else if Taken(s.rows, id) then (s, Err(IdTaken))
    else
      var r := s.rewards[reward];
      var row := Row(id, store, customer, RedeemRow, -(r.cost as int), None, Some("reward"), now, true,
        ForReward(|s.redemptions|));
      (Record(s, row).(
         rewards := if r.stock > 0 then s.rewards[reward := r.(stock := r.stock - 1)] else s.rewards,
         redemptions := s.redemptions + [Redemption(store, customer, reward, r.cost, Issued)]),
       Ok(r.cost))
  }

  /** Undoes an issued redemption: the points come back under a reversal, a finite stock regains its unit. */
  function Cancel(s: State, redemption: Id, id: Id, now: int): (State, Answer) {
    if redemption >= |s.redemptions| then (s, Err(NotFound))
    else if s.redemptions[redemption].status != Issued then (s, Err(WrongStatus))
    else
      var r := s.redemptions[redemption];
      if Refusal(s, id, r.store, r.customer).Some? then (s, Err(Refusal(s, id, r.store, r.customer).value))
      else
        var row := Row(id, r.store, r.customer, AdjustRow, r.spent, None, Some(REDEMPTION_CANCELLED_REASON), now,
          true, CancelOf(redemption));
        (Record(s, row).(
           rewards := if r.reward in s.rewards && s.rewards[r.reward].stock >= 0
                      then s.rewards[r.reward := s.rewards[r.reward].(stock := s.rewards[r.reward].stock + 1)]
                        else s.rewards,
           redemptions := s.redemptions[redemption := r.(status := Cancelled)]),
         Ok(r.spent))
  }

  function Fulfill(s: State, redemption: Id): (State, Answer) {
    if redemption >= |s.redemptions| then (s, Err(NotFound))
    else if s.redemptions[redemption].status != Issued then (s, Err(WrongStatus))
    else (s.(redemptions := s.redemptions[redemption := s.redemptions[redemption].(status := Fulfilled)]), Ok(0))
  }

  /** What an expiry at this cutoff takes from a customer. */
  function Expirable(s: State, customer: Id, cutoff: int): int
    requires customer in s.customers
  {
    AtRiskBefore(LogOf(s.rows, customer), s.customers[customer].balance, cutoff)
  }

  function ExpireCustomer(s: State, store: Id, customer: Id, cutoff: int, id: Id, now: int): (State, Answer) {
    if customer !in s.customers || s.customers[customer].balance <= 0 then (s, Ok(0))
    else if Expirable(s, customer, cutoff) <= 0 then (s, Ok(0))
    else if Refusal(s, id, store, customer).Some? then (s, Err(Refusal(s, id, store, customer).value))
    else
      var expirable := Expirable(s, customer, cutoff);
      (Record(s, Row(id, store, customer, ExpireRow, -expirable, None, Some("expired"), now, true, Plain)),
        Ok(expirable))
  }

  // ----------------------------------------------------------------------- runs

  datatype Op =
    | AddCustomer(customer: Id, store: Id)
    | AddReward(reward: Id, what: Reward)
    | AddPromo(promo: Id, promotion: Promo)
    | LinkReferral(referee: Id, referrer: Id, flagged: bool)
    | DoAward(payment: Id, store: Id, customer: Id, earned: int, id: Id)
    | DoPromoBonus(promo: Id, payment: Id, store: Id, customer: Id, bonus: int, id: Id)
    | DoGamePrize(store: Id, customer: Id, points: int, id: Id)
    | DoReferralReward(referee: Id, store: Id, payment: Id, referrerPoints: int, refereePoints: int, id1: Id, id2: Id)
    | DoRedeem(store: Id, customer: Id, points: int, reason: Option<string>, id: Id)
    | DoAdjust(store: Id, customer: Id, points: int, reason: Option<string>, id: Id)
    | DoRedeemReward(store: Id, customer: Id, reward: Id, id: Id)
    | DoCancel(redemption: Id, id: Id)
    | DoFulfill(redemption: Id)
    | DoExpire(store: Id, customer: Id, cutoff: int, id: Id)
    | PostMoney(event: Event, reference: Option<Ref>, owner: Option<Id>, currency: Currency, lines: seq<Line>)

  datatype Step = Step(op: Op, now: int)

  function Apply(s: State, step: Step): State {
    var now := step.now;
    match step.op
    case AddCustomer(c, store) =>
      if c in s.customers then s else s.(customers := s.customers[c := Customer(store, 0, 0)])
    case AddReward(r, what) => if r in s.rewards || what.stock < -1 then s else s.(rewards := s.rewards[r := what])
    case AddPromo(p, promotion) => if p in s.promos then s else s.(promos := s.promos[p := promotion.(spent := 0)])
    case LinkReferral(referee, referrer, flagged) =>
      if referee in s.referrals || referee == referrer then s
        else s.(referrals := s.referrals[referee := Referral(referrer, false, flagged)])
    case DoAward(p, store, c, earned, id) => Award(s, p, store, c, earned, id, now).0
    case DoPromoBonus(promo, p, store, c, bonus, id) => PromoBonus(s, promo, p, store, c, bonus, id, now).0
    case DoGamePrize(store, c, points, id) => GamePrize(s, store, c, points, id, now).0
    case DoReferralReward(referee, store, p, n1, n2, id1, id2) =>
      ReferralReward(s, referee, store, p, n1, n2, id1, id2, now).0
    case DoRedeem(store, c, points, reason, id) => RedeemPoints(s, store, c, points, reason, id, now).0
    case DoAdjust(store, c, points, reason, id) => AdjustPoints(s, store, c, points, reason, id, now).0
    case DoRedeemReward(store, c, reward, id) => RedeemReward(s, store, c, reward, id, now).0
    case DoCancel(r, id) => Cancel(s, r, id, now).0
    case DoFulfill(r) => Fulfill(s, r).0
    case DoExpire(store, c, cutoff, id) => ExpireCustomer(s, store, c, cutoff, id, now).0
    case PostMoney(event, reference, owner, currency, lines) =>
      if event.Points? || currency == PTS then s
      else s.(journals := PostTo(s.journals, event, reference, owner, currency, lines).0)
  }

  const EMPTY := State(map[], [], [], map[], [], map[], map[])

  function RunFrom(s: State, steps: seq<Step>): State {
    if steps == [] then s else Apply(RunFrom(s, steps[..|steps| - 1]), steps[|steps| - 1])
  }

  function Run(steps: seq<Step>): State {
    RunFrom(EMPTY, steps)
  }

  // ------------------------------------------------------------- the invariant

  /** Every row is of a known customer, under the customer's store. */
  predicate RowsBelong(customers: map<Id, Customer>, rows: seq<Row>) {
    forall i :: 0 <= i < |rows| ==> rows[i].customer in customers && rows[i].store == customers[rows[i].customer].store
  }

  predicate RowsKnown(s: State) {
    && RowsBelong(s.customers, s.rows)
    && (forall i :: 0 <= i < |s.rows| ==> s.rows[i].confirmed && Shaped(s.rows[i]))
  }

  /** Every balance column is the sum of the customer's rows, in whatever order they are listed. */
  predicate BalancesMatch(customers: map<Id, Customer>, rows: seq<Row>) {
    forall c :: c in customers ==> customers[c].balance == Tally(rows, OfCustomer(c))
  }

  ghost predicate ColumnsMatch(s: State) {
    && BalancesMatch(s.customers, s.rows)
    && (forall c :: c in s.customers ==>
          && s.customers[c].balance >= 0
          && s.customers[c].lifetime == Tally(s.rows, EarnedBy(c))
          && NeverOverdrawn(LogOf(s.rows, c)))
  }

  ghost predicate BudgetsKept(s: State) {
    forall p :: p in s.promos && s.promos[p].budget.Some? ==> s.promos[p].spent <= s.promos[p].budget.value
  }

  ghost predicate RedemptionsKnown(s: State) {
    forall i :: 0 <= i < |s.redemptions| ==>
      s.redemptions[i].customer in s.customers && s.customers[s.redemptions[i].customer].store == s.redemptions[i].store
  }

  /** Points spent on redemptions that were not handed back. */
  function Outstanding(redemptions: seq<Redemption>): int {
    if redemptions == [] then 0
    else
      var r := redemptions[|redemptions| - 1];
      Outstanding(redemptions[..|redemptions| - 1]) + if r.status == Cancelled then 0 else r.spent
  }

  /** The state invariant without the part about redemptions. */
  ghost predicate BooksButRewards(s: State) {
    && RowsKnown(s) && ColumnsMatch(s) && BudgetsKept(s) && RedemptionsKnown(s)
    && Live(s.journals, s.rows) && WellKept(s.journals)
  }

  ghost predicate Books(s: State) {
    BooksButRewards(s) && Outstanding(s.redemptions) == -Tally(s.rows, RewardMovements)
  }

  // ------------------------------------------------------------ one transaction

  lemma {:induction false} PostedOnlyLive(journals: seq<Journal>, rows: seq<Row>, row: Row)
    requires OnlyLive(journals, rows)
    ensures OnlyLive(journals, rows + [row])
    ensures row.points != 0 ==> OnlyLive(journals + [JournalFor(row, LiveMovement(row))], rows + [row])
  {
    hide JournalFor, LiveMovement;
    var js, all := journals + [JournalFor(row, LiveMovement(row))], rows + [row];
    assert all[|rows|] == row;
    forall i | 0 <= i < |journals| && (journals[i].event.Points? || journals[i].currency == PTS)
      ensures exists k ::
        0 <= k < |all| && all[k].points != 0 && js[i] == journals[i] == JournalFor(all[k], LiveMovement(all[k]))
    {
      var k :| 0 <= k < |rows| && rows[k].points != 0 && journals[i] == JournalFor(rows[k], LiveMovement(rows[k]));
      assert all[k] == rows[k];
    }
  }

  lemma {:induction false} KeyIsFree(journals: seq<Journal>, rows: seq<Row>, row: Row)
    requires OnlyLive(journals, rows) && !Taken(rows, row.id)
    ensures !HasKey(journals, Points(LiveMovement(row)), Some(One(row.id)))
  {
  }

  lemma {:induction false} FreshJournalIsKept(journals: seq<Journal>, row: Row)
    requires WellKept(journals) && row.points != 0 && !HasKey(journals, Points(LiveMovement(row)), Some(One(row.id)))
    ensures WellKept(journals + [JournalFor(row, LiveMovement(row))])
  {
    var entries := JournalFor(row, LiveMovement(row)).lines;
    TwoLines(entries[0], entries[1], Where(PTS, PointsLiability, None, None));
  }

  lemma {:induction false} PostedRow(s: State, row: Row)
    requires Live(s.journals, s.rows) && WellKept(s.journals) && !Taken(s.rows, row.id)
    ensures var js := PostPoints(s.journals, row, LiveMovement(row));
      Live(js, s.rows + [row]) && WellKept(js)
  {
    hide LiveMovement, JournalFor, OnlyLive, HasKey;
    var rows := s.rows + [row];
    PostedOnlyLive(s.journals, s.rows, row);
    assert UniqueIds(rows);
    if row.points != 0 {
      PostPointsBooksOnce(s.journals, row, LiveMovement(row));
      KeyIsFree(s.journals, s.rows, row);
      FreshJournalIsKept(s.journals, row);
    }
  }

  /** The columns after a movement match the rows after it. */
  lemma {:induction false} RecordColumns(s: State, row: Row)
    requires RowsKnown(s) && ColumnsMatch(s) && row.customer in s.customers && row.confirmed
    requires s.customers[row.customer].balance + row.points >= 0
    ensures ColumnsMatch(Record(s, row))
  {
    var s' := Record(s, row);
    forall c | c in s'.customers
      ensures s'.customers[c].balance == Tally(s'.rows, OfCustomer(c)) >= 0
      ensures s'.customers[c].lifetime == Tally(s'.rows, EarnedBy(c))
      ensures NeverOverdrawn(LogOf(s'.rows, c))
    {
      TallyAppend(s.rows, row, OfCustomer(c));
      TallyAppend(s.rows, row, EarnedBy(c));
      LogOfAppend(s.rows, row, c);
      if c == row.customer {
        LogSum(s.rows, c);
        NeverOverdrawnAppend(LogOf(s.rows, c), Txn(row.points, row.at));
      } else {
        assert LogOf(s'.rows, c) == LogOf(s.rows, c);
      }
    }
  }

  lemma {:induction false} RecordKnown(s: State, row: Row)
    requires RowsKnown(s) && RedemptionsKnown(s) && BudgetsKept(s)
    requires row.customer in s.customers && s.customers[row.customer].store == row.store && row.confirmed && Shaped(row)
    ensures RowsKnown(Record(s, row)) && RedemptionsKnown(Record(s, row)) && BudgetsKept(Record(s, row))
  {
  }

  /** One movement keeps the books, as long as it does not overdraw the customer. */
  lemma {:induction false} RecordKeepsBooks(s: State, row: Row)
    requires BooksButRewards(s) && Refusal(s, row.id, row.store, row.customer) == None && row.confirmed && Shaped(row)
    requires s.customers[row.customer].balance + row.points >= 0
    ensures BooksButRewards(Record(s, row))
    ensures Tally(Record(s, row).rows, RewardMovements) == Tally(s.rows, RewardMovements)
      + if row.cause == Plain then 0 else row.points
  {
    hide Live, WellKept, ColumnsMatch, RowsKnown, RedemptionsKnown, BudgetsKept;
    TallyAppend(s.rows, row, RewardMovements);
    PostedRow(s, row);
    RecordColumns(s, row);
    RecordKnown(s, row);
  }

  lemma {:induction false} PlainKeepsBooks(s: State, row: Row)
    requires Books(s) && Refusal(s, row.id, row.store, row.customer) == None && row.confirmed && Shaped(row)
      && row.cause == Plain
    requires s.customers[row.customer].balance + row.points >= 0
    ensures Books(Record(s, row))
  {
    hide BooksButRewards;
    RecordKeepsBooks(s, row);
  }

  lemma {:induction false} EarnKeepsBooks(s: State, id: Id, store: Id, customer: Id, points: int,
      payment: Option<Id>, now: int)
    requires Books(s) && Refusal(s, id, store, customer) == None && points > 0
    ensures Books(Record(s, EarnOf(id, store, customer, points, payment, now)))
  {
    PlainKeepsBooks(s, EarnOf(id, store, customer, points, payment, now));
  }

  // ------------------------------------------------------------------ each path

  lemma {:induction false} RecordTouches(s: State, row: Row)
    requires row.customer in s.customers
    ensures var s' := Record(s, row);
      && s'.promos == s.promos && s'.redemptions == s.redemptions && s'.rewards == s.rewards
           && s'.referrals == s.referrals
      && (forall c :: c in s.customers ==> c in s'.customers && s'.customers[c].store == s.customers[c].store)
  {
    hide PostPoints;
  }

  lemma {:induction false} PromoKeepsBooks(s: State, promo: Id, payment: Id, store: Id, customer: Id, bonus: int,
      id: Id, now: int)
    requires Books(s)
    ensures Books(PromoBonus(s, promo, payment, store, customer, bonus, id, now).0)
  {
    hide Books, Record, BudgetsKept, Capped;
    var (s', answer) := PromoBonus(s, promo, payment, store, customer, bonus, id, now);
    if answer.Ok? && answer.value > 0 {
      BudgetsOf(s);
      EarnKeepsBooks(s, id, store, customer, Capped(s.promos[promo], bonus), Some(payment), now);
      var recorded := Record(s, EarnOf(id, store, customer, Capped(s.promos[promo], bonus), Some(payment), now));
      RecordTouches(s, EarnOf(id, store, customer, Capped(s.promos[promo], bonus), Some(payment), now));
      CappedKeepsBudgets(s, s', promo, bonus, s'.promos[promo].active);
      SideTables(recorded, s');
    }
  }

  /** What the books say of rows, columns and journals does not read the other tables. */
  lemma {:induction false} OtherTables(s: State, s': State)
    requires s'.rows == s.rows && s'.customers == s.customers && s'.journals == s.journals
    ensures RowsKnown(s) ==> RowsKnown(s')
    ensures ColumnsMatch(s) ==> ColumnsMatch(s')
    ensures RedemptionsKnown(s) && s'.redemptions == s.redemptions ==> RedemptionsKnown(s')
    ensures BudgetsKept(s) && s'.promos == s.promos ==> BudgetsKept(s')
  {
  }

  lemma {:induction false} SideTables(s: State, s': State)
    requires Books(s) && BudgetsKept(s')
    requires s'.rows == s.rows && s'.customers == s.customers && s'.journals == s.journals
      && s'.redemptions == s.redemptions
    ensures Books(s')
  {
    hide Live, WellKept, ColumnsMatch, RowsKnown, RedemptionsKnown, BudgetsKept;
    OtherTables(s, s');
  }

  lemma {:induction false} BudgetsOf(s: State)
    requires Books(s)
    ensures BudgetsKept(s)
  {
    hide Live, WellKept, ColumnsMatch, RowsKnown, RedemptionsKnown;
  }

  lemma {:induction false} BudgetStays(s: State, s': State)
    requires BudgetsKept(s) && s'.promos == s.promos
    ensures BudgetsKept(s')
  {
  }

  lemma {:induction false} UnspentKeepsBudgets(s: State, s': State, promo: Id, promotion: Promo)
    requires BudgetsKept(s) && s'.promos == s.promos[promo := promotion.(spent := 0)]
    ensures BudgetsKept(s')
  {
  }

  lemma {:induction false} CappedKeepsBudgets(s: State, s': State, promo: Id, bonus: int, active: bool)
    requires BudgetsKept(s) && promo in s.promos && s.promos[promo].spent + Capped(s.promos[promo], bonus) >= 0
    requires var p := s.promos[promo];
      s'.promos == s.promos[promo := p.(spent := p.spent + Capped(p, bonus), active := active)]
    ensures BudgetsKept(s')
  {
  }

  lemma {:induction false} ReferralKeepsBooks(s: State, referee: Id, store: Id, payment: Id, n1: int, n2: int,
      id1: Id, id2: Id, now: int)
    requires Books(s)
    ensures Books(ReferralReward(s, referee, store, payment, n1, n2, id1, id2, now).0)
  {
    hide BooksButRewards, Outstanding, Tally, Refusal, Record, EarnOf;
    var (s', answer) := ReferralReward(s, referee, store, payment, n1, n2, id1, id2, now);
    if s' != s {
      var referrer := s.referrals[referee].referrer;
      var s1 := ReferralSide(s, store, referrer, n1, None, id1, now).0;
      var s2 := ReferralSide(s1, store, referee, n2, Some(payment), id2, now).0;
      if n1 > 0 {
        EarnKeepsBooks(s, id1, store, referrer, n1, None, now);
      }
      if n2 > 0 {
        EarnKeepsBooks(s1, id2, store, referee, n2, Some(payment), now);
      }
      BudgetsOf(s2);
      BudgetStays(s2, s');
      SideTables(s2, s');
    }
  }

  lemma {:induction false} OutstandingAppend(redemptions: seq<Redemption>, r: Redemption)
    ensures Outstanding(redemptions + [r]) == Outstanding(redemptions) + if r.status == Cancelled then 0 else r.spent
  {
    assert (redemptions + [r])[..|redemptions|] == redemptions;
  }

  lemma {:induction false} OutstandingUpdate(redemptions: seq<Redemption>, i: nat, status: Status)
    requires i < |redemptions| && redemptions[i].status != Cancelled
    ensures Outstanding(redemptions[i := redemptions[i].(status := status)])
         == Outstanding(redemptions) - if status == Cancelled then redemptions[i].spent else 0
  {
    var n, updated := |redemptions| - 1, redemptions[i := redemptions[i].(status := status)];
    if i == n {
      assert updated[..n] == redemptions[..n];
    } else {
      OutstandingUpdate(redemptions[..n], i, status);
      assert updated[..n] == redemptions[..n][i := redemptions[i].(status := status)];
    }
  }

  lemma {:induction false} RewardKeepsBooks(s: State, store: Id, customer: Id, reward: Id, id: Id, now: int)
    requires Books(s)
    ensures Books(RedeemReward(s, store, customer, reward, id, now).0)
  {
    hide Live, WellKept, ColumnsMatch, RowsKnown, BudgetsKept, Record, Tally, Taken;
    var (s', answer) := RedeemReward(s, store, customer, reward, id, now);
    if answer.Ok? {
      var r := s.rewards[reward];
      var row := Row(id, store, customer, RedeemRow, -(r.cost as int), None, Some("reward"), now, true,
        ForReward(|s.redemptions|));
      var voucher := Redemption(store, customer, reward, r.cost, Issued);
      RecordKeepsBooks(s, row);
      RecordTouches(s, row);
      var recorded := Record(s, row);
      OutstandingAppend(s.redemptions, voucher);
      assert s' == recorded.(rewards := s'.rewards, redemptions := s.redemptions + [voucher]);
      OtherTables(recorded, s');
    }
  }

  lemma {:induction false} NotOverdrawn(s: State, customer: Id)
    requires Books(s) && customer in s.customers
    ensures s.customers[customer].balance >= 0
  {
  }

  lemma {:induction false} CancelKeepsBooks(s: State, redemption: Id, id: Id, now: int)
    requires Books(s)
    ensures Books(Cancel(s, redemption, id, now).0)
  {
    hide Live, WellKept, ColumnsMatch, RowsKnown, BudgetsKept, Record, Tally, Taken;
    var (s', answer) := Cancel(s, redemption, id, now);
    if answer.Ok? {
      var r := s.redemptions[redemption];
      NotOverdrawn(s, r.customer);
      var row := Row(id, r.store, r.customer, AdjustRow, r.spent, None, Some(REDEMPTION_CANCELLED_REASON), now, true,
        CancelOf(redemption));
      RecordKeepsBooks(s, row);
      RecordTouches(s, row);
      var recorded := Record(s, row);
      OutstandingUpdate(s.redemptions, redemption, Cancelled);
      assert s' == recorded.(rewards := s'.rewards, redemptions :=
        s.redemptions[redemption := r.(status := Cancelled)]);
      OtherTables(recorded, s');
    }
  }

  lemma {:induction false} FulfillKeepsBooks(s: State, redemption: Id)
    requires Books(s)
    ensures Books(Fulfill(s, redemption).0)
  {
    if redemption < |s.redemptions| && s.redemptions[redemption].status == Issued {
      OutstandingUpdate(s.redemptions, redemption, Fulfilled);
    }
  }

  lemma {:induction false} ExpireKeepsBooks(s: State, store: Id, customer: Id, cutoff: int, id: Id, now: int)
    requires Books(s)
    ensures Books(ExpireCustomer(s, store, customer, cutoff, id, now).0)
  {
    var (s', answer) := ExpireCustomer(s, store, customer, cutoff, id, now);
    if s' != s {
      PlainKeepsBooks(s,
        Row(id, store, customer, ExpireRow, -Expirable(s, customer, cutoff), None, Some("expired"), now, true, Plain));
    }
  }

  lemma {:induction false} NewCustomerKeepsBooks(s: State, customer: Id, store: Id)
    requires Books(s) && customer !in s.customers
    ensures Books(s.(customers := s.customers[customer := Customer(store, 0, 0)]))
  {
    NoRowsOf(s.rows, customer);
    assert LogOf(s.rows, customer) == [];
  }

  lemma {:induction false} NoRowsOf(rows: seq<Row>, customer: Id)
    requires forall i :: 0 <= i < |rows| ==> rows[i].customer != customer
    ensures Tally(rows, OfCustomer(customer)) == 0 && Tally(rows, EarnedBy(customer)) == 0
      && LogOf(rows, customer) == []
  {
    if rows != [] {
      NoRowsOf(rows[..|rows| - 1], customer);
    }
  }

  lemma {:induction false} MoneyKeepsLive(journals: seq<Journal>, rows: seq<Row>, event: Event,
      reference: Option<Ref>, owner: Option<Id>, currency: Currency, lines: seq<Line>)
    requires Live(journals, rows) && WellKept(journals) && !event.Points? && currency != PTS
    ensures Live(PostTo(journals, event, reference, owner, currency, lines).0, rows)
  {
    hide Rounded, Side, BalancedJournal;
    var js := PostTo(journals, event, reference, owner, currency, lines).0;
    PostKeepsLedger(journals, event, reference, owner, currency, lines);
    forall i | 0 <= i < |js| && (js[i].event.Points? || js[i].currency == PTS)
      ensures exists k :: 0 <= k < |rows| && rows[k].points != 0 && js[i] == JournalFor(rows[k], LiveMovement(rows[k]))
    {
      assert js[i] == journals[i];
    }
  }

  lemma {:induction false} MoneyKeepsBooks(s: State, event: Event, reference: Option<Ref>, owner: Option<Id>,
      currency: Currency, lines: seq<Line>)
    requires Books(s) && !event.Points? && currency != PTS
    ensures Books(s.(journals := PostTo(s.journals, event, reference, owner, currency, lines).0))
  {
    var js := PostTo(s.journals, event, reference, owner, currency, lines).0;
    PostKeepsLedger(s.journals, event, reference, owner, currency, lines);
    MoneyKeepsLive(s.journals, s.rows, event, reference, owner, currency, lines);
    hide PostTo, Live, WellKept, Tally, Outstanding;
    var s' := s.(journals := js);
    assert ColumnsMatch(s') && RowsKnown(s') && RedemptionsKnown(s') && BudgetsKept(s');
  }

  lemma {:induction false} SimpleEarnsKeepBooks(s: State, payment: Id, store: Id, customer: Id, points: int, id: Id,
      now: int)
    requires Books(s)
    ensures Books(Award(s, payment, store, customer, points, id, now).0)
    ensures Books(GamePrize(s, store, customer, points, id, now).0)
  {
    hide BooksButRewards;
    if points > 0 && Refusal(s, id, store, customer) == None {
      EarnKeepsBooks(s, id, store, customer, points, Some(payment), now);
      EarnKeepsBooks(s, id, store, customer, points, None, now);
    }
  }

  lemma {:induction false} MutateKeepsBooks(s: State, kind: Kind, store: Id, customer: Id, delta: int,
      reason: Option<string>, id: Id, now: int)
    requires Books(s) && (kind == AdjustRow || (kind == RedeemRow && delta <= 0))
    ensures Books(Mutate(s, kind, store, customer, delta, reason, id, now).0)
  {
    hide BooksButRewards;
    if Mutate(s, kind, store, customer, delta, reason, id, now).1.Ok? {
      PlainKeepsBooks(s, Row(id, store, customer, kind, delta, None, reason, now, true, Plain));
    }
  }

  /** The steps that only open an account, an offer or a referral, or post money. */
  predicate IsSetup(op: Op) {
    op.AddCustomer? || op.AddReward? || op.AddPromo? || op.LinkReferral? || op.PostMoney?
  }

  lemma {:induction false} SetupKeepsBooks(s: State, step: Step)
    requires Books(s) && IsSetup(step.op)
    ensures Books(Apply(s, step))
  {
    BudgetsOf(s);
    hide Books, BudgetsKept, PostTo;
    var s' := Apply(s, step);
    if s' != s {
      match step.op {
        case AddCustomer(c, store) => NewCustomerKeepsBooks(s, c, store);
        case AddReward(r, what) => BudgetStays(s, s'); SideTables(s, s');
        case AddPromo(p, promotion) => UnspentKeepsBudgets(s, s', p, promotion); SideTables(s, s');
        case LinkReferral(referee, referrer, flagged) => BudgetStays(s, s'); SideTables(s, s');
        case PostMoney(event, reference, owner, currency, lines) =>
          MoneyKeepsBooks(s, event, reference, owner, currency, lines);
      }
    }
  }

  lemma {:induction false} StepKeepsBooks(s: State, step: Step)
    requires Books(s)
    ensures Books(Apply(s, step))
  {
    var now := step.now;
    hide Books, PostTo, Record;
    hide Award, PromoBonus, GamePrize, ReferralReward, Mutate, RedeemReward, Cancel, Fulfill, ExpireCustomer;
    match step.op {
      case DoAward(p, store, c, earned, id) => SimpleEarnsKeepBooks(s, p, store, c, earned, id, now);
      case DoPromoBonus(promo, p, store, c, bonus, id) => PromoKeepsBooks(s, promo, p, store, c, bonus, id, now);
      case DoGamePrize(store, c, points, id) => SimpleEarnsKeepBooks(s, 0, store, c, points, id, now);
      case DoReferralReward(referee, store, p, n1, n2, id1, id2) =>
        ReferralKeepsBooks(s, referee, store, p, n1, n2, id1, id2, now);
      case DoRedeem(store, c, points, reason, id) =>
        MutateKeepsBooks(s, RedeemRow, store, c, -(Abs(points) as int), reason, id, now);
      case DoAdjust(store, c, points, reason, id) => MutateKeepsBooks(s, AdjustRow, store, c, points, reason, id, now);
      case DoRedeemReward(store, c, reward, id) => RewardKeepsBooks(s, store, c, reward, id, now);
      case DoCancel(r, id) => CancelKeepsBooks(s, r, id, now);
      case DoFulfill(r) => FulfillKeepsBooks(s, r);
      case DoExpire(store, c, cutoff, id) => ExpireKeepsBooks(s, store, c, cutoff, id, now);
      case _ => SetupKeepsBooks(s, step);
    }
  }

  lemma {:induction false} RunFromKeepsBooks(s: State, steps: seq<Step>)
    requires Books(s)
    ensures Books(RunFrom(s, steps))
  {
    hide Books;
    if steps != [] {
      RunFromKeepsBooks(s, steps[..|steps| - 1]);
      StepKeepsBooks(RunFrom(s, steps[..|steps| - 1]), steps[|steps| - 1]);
    }
  }

  lemma {:induction false} RunKeepsBooks(steps: seq<Step>)
    ensures Books(Run(steps))
  {
    RunFromKeepsBooks(EMPTY, steps);
  }

  // ------------------------------------------------------------- main results

  /**
   Three records, one answer: after any sequence of steps a customer's balance column is not negative
   and equals the sum of the customer's rows and the customer's position on points_liability; the
   store's liability is the sum of its rows; lifetime points count the earns and nothing else.
   */
  lemma {:induction false} ThreeWayAgreement(steps: seq<Step>, customer: Id, store: Option<Id>)
    ensures var s := Run(steps); customer in s.customers ==>
      && s.customers[customer].balance >= 0
      && s.customers[customer].balance == Tally(s.rows, OfCustomer(customer))
      && 10000 * s.customers[customer].balance
           == Position(s.journals, Where(PTS, PointsLiability, None, Some(customer)))
      && s.customers[customer].lifetime == Tally(s.rows, EarnedBy(customer))
    ensures var s := Run(steps);
      10000 * Tally(s.rows, InStore(store)) == Position(s.journals, Where(PTS, PointsLiability, store, None))
  {
    RunKeepsBooks(steps);
    var s := Run(steps);
    LedgerMirrorsRows(s.journals, s.rows, customer, store, PointsLiability);
  }

  /** After any sequence of steps points_settled holds the raw redemptions plus the vouchers not cancelled. */
  lemma {:induction false} SettledIsRedeemed(steps: seq<Step>)
    ensures var s := Run(steps);
      Position(s.journals, Where(PTS, PointsSettled, None, None))
        == 10000 * (Outstanding(s.redemptions) - Tally(s.rows, RawRedeem))
  {
    RunKeepsBooks(steps);
    var s := Run(steps);
    LedgerMirrorsRows(s.journals, s.rows, 0, None, PointsSettled);
    SettledRows(s.rows);
  }

  /** A promotion never spends more than its budget. */
  lemma {:induction false} BudgetIsACap(steps: seq<Step>, promo: Id)
    ensures var s := Run(steps); promo in s.promos && s.promos[promo].budget.Some? ==>
      s.promos[promo].spent <= s.promos[promo].budget.value
  {
    RunKeepsBooks(steps);
  }

  // ----------------------------------------------------- expiry over whole runs

  /** Steps carry the database clock, which does not run backwards. */
  predicate ClockRuns(steps: seq<Step>) {
    forall i, k :: 0 <= i < k < |steps| ==> steps[i].now <= steps[k].now
  }

  /** The old rows, then rows of this moment, of which only a reserved one may be ambiguous and an expiry takes. */
  predicate Appends(rows: seq<Row>, after: seq<Row>, now: int, reserved: bool) {
    rows <= after && forall i :: |rows| <= i < |after| ==>
      && after[i].at == now && (Ambiguous(after[i]) ==> reserved)
      && (after[i].kind == ExpireRow ==> after[i].points < 0)
  }

  /** A manual adjustment upwards under the reason the service reserves for cancelled redemptions. */
  predicate ReservedAdjust(step: Step) {
    step.op.DoAdjust? && step.op.points > 0 && step.op.reason == Some(REDEMPTION_CANCELLED_REASON)
  }

  lemma {:induction false} EarnsAppendRows(s: State, a: Id, b: Id, c: Id, customer: Id, points: int, id: Id, now: int)
    ensures Appends(s.rows, Award(s, a, b, customer, points, id, now).0.rows, now, false)
    ensures Appends(s.rows, PromoBonus(s, c, a, b, customer, points, id, now).0.rows, now, false)
    ensures Appends(s.rows, GamePrize(s, b, customer, points, id, now).0.rows, now, false)
  {
    hide PostPoints, Taken, Capped;
  }

  lemma {:induction false} MutationsAppendRows(s: State, kind: Kind, store: Id, customer: Id, delta: int,
      reason: Option<string>, cutoff: int, id: Id, now: int)
    requires kind != ExpireRow
    ensures Appends(s.rows, Mutate(s, kind, store, customer, delta, reason, id, now).0.rows, now,
      kind == AdjustRow && delta > 0 && reason == Some(REDEMPTION_CANCELLED_REASON))
    ensures Appends(s.rows, ExpireCustomer(s, store, customer, cutoff, id, now).0.rows, now, false)
  {
    hide PostPoints, Taken, Expirable;
  }

  lemma {:induction false} VouchersAppendRows(s: State, store: Id, customer: Id, reward: Id, redemption: Id, id: Id,
      now: int)
    ensures Appends(s.rows, RedeemReward(s, store, customer, reward, id, now).0.rows, now, false)
    ensures Appends(s.rows, Cancel(s, redemption, id, now).0.rows, now, false)
  {
    hide PostPoints, Taken;
  }

  lemma {:induction false} StepAppendsRows(s: State, step: Step)
    ensures Appends(s.rows, Apply(s, step).rows, step.now, ReservedAdjust(step))
  {
    var now := step.now;
    hide PostTo, Record, Award, PromoBonus, GamePrize, ReferralReward, Mutate, RedeemReward, Cancel, ExpireCustomer;
    match step.op {
      case DoAward(p, store, c, earned, id) => EarnsAppendRows(s, p, store, 0, c, earned, id, now);
      case DoPromoBonus(promo, p, store, c, bonus, id) => EarnsAppendRows(s, p, store, promo, c, bonus, id, now);
      case DoGamePrize(store, c, points, id) => EarnsAppendRows(s, 0, store, 0, c, points, id, now);
      case DoReferralReward(referee, store, p, n1, n2, id1, id2) =>
        ReferralAppendsRows(s, referee, store, p, n1, n2, id1, id2, now);
      case DoRedeem(store, c, points, reason, id) =>
        MutationsAppendRows(s, RedeemRow, store, c, -(Abs(points) as int), reason, 0, id, now);
      case DoAdjust(store, c, points, reason, id) =>
        MutationsAppendRows(s, AdjustRow, store, c, points, reason, 0, id, now);
      case DoRedeemReward(store, c, reward, id) => VouchersAppendRows(s, store, c, reward, 0, id, now);
      case DoCancel(r, id) => VouchersAppendRows(s, 0, 0, 0, r, id, now);
      case DoExpire(store, c, cutoff, id) => MutationsAppendRows(s, EarnRow, store, c, 0, None, cutoff, id, now);
      case _ =>
    }
  }

  lemma {:induction false} ReferralAppendsRows(s: State, referee: Id, store: Id, payment: Id, n1: int, n2: int,
      id1: Id, id2: Id, now: int)
    ensures var s' := ReferralReward(s, referee, store, payment, n1, n2, id1, id2, now).0;
      && Appends(s.rows, s'.rows, now, false)
      && s'.rewards == s.rewards && s'.redemptions == s.redemptions
  {
    hide PostPoints, Taken;
  }

  /** Without such a step no reachable row is ambiguous. */
  lemma {:induction false} NoReservedNoAmbiguous(steps: seq<Step>)
    requires forall i :: 0 <= i < |steps| ==> !ReservedAdjust(steps[i])
    ensures forall i :: 0 <= i < |Run(steps).rows| ==> !Ambiguous(Run(steps).rows[i])
  {
    if steps != [] {
      var n := |steps| - 1;
      NoReservedNoAmbiguous(steps[..n]);
      StepAppendsRows(Run(steps[..n]), steps[n]);
    }
  }

  lemma {:induction false} RunExpiriesTake(steps: seq<Step>)
    ensures ExpiriesTake(Run(steps).rows)
  {
    hide Apply;
    if steps != [] {
      var n := |steps| - 1;
      RunExpiriesTake(steps[..n]);
      StepAppendsRows(Run(steps[..n]), steps[n]);
    }
  }

  /**
   Where the points went, per store: after any sequence of steps points_expense carries what earns and the
   adjustments upwards that cancel nothing gave, points_settled what redemptions took less what cancellations gave
   back, points_breakage what expiries and adjustments downwards took. Balances are credits minus debits.
   */
  lemma {:induction false} ContraAccountsByCause(steps: seq<Step>, store: Option<Id>)
    ensures var s := Run(steps);
      && Position(s.journals, Where(PTS, PointsExpense, store, None)) == -10000 * Tally(s.rows, Granted(store))
      && Position(s.journals, Where(PTS, PointsSettled, store, None)) == -10000 * Tally(s.rows, Spent(store))
      && Position(s.journals, Where(PTS, PointsBreakage, store, None)) == -10000 * Tally(s.rows, Released(store))
  {
    RunKeepsBooks(steps);
    RunExpiriesTake(steps);
    var s := Run(steps);
    LedgerMirrorsRows(s.journals, s.rows, 0, store, PointsExpense);
    LedgerMirrorsRows(s.journals, s.rows, 0, store, PointsSettled);
    LedgerMirrorsRows(s.journals, s.rows, 0, store, PointsBreakage);
    ContraRows(s.rows, store);
  }

  lemma {:induction false} RunInOrder(steps: seq<Step>)
    requires ClockRuns(steps)
    ensures RowsInOrder(Run(steps).rows)
    ensures forall i :: 0 <= i < |Run(steps).rows| ==> steps != [] && Run(steps).rows[i].at <= steps[|steps| - 1].now
  {
    if steps != [] {
      var before := steps[..|steps| - 1];
      RunInOrder(before);
      var rows, rows' := Run(before).rows, Run(steps).rows;
      StepAppendsRows(Run(before), steps[|steps| - 1]);
      forall i | 0 <= i < |rows| ensures rows'[i].at == rows[i].at <= steps[|steps| - 1].now {
        assert rows'[i] == rows[i];
        assert before[|before| - 1] == steps[|steps| - 2];
      }
    }
  }

  /**
   In every reachable state the expiry of a customer is first in, first out: it takes exactly the
   points left in the lots created before the cutoff, and the replayed queue of the new log is the old
   queue without those lots.
   */
  lemma {:induction false} ReachableExpiryIsFifo(steps: seq<Step>, store: Id, customer: Id, cutoff: int, id: Id,
      now: int)
    requires ClockRuns(steps)
    ensures var s := Run(steps); customer in s.customers ==>
      Expirable(s, customer, cutoff) == LeftBefore(Replay(LogOf(s.rows, customer)), cutoff)
    ensures var s := Run(steps); var (s', answer) := ExpireCustomer(s, store, customer, cutoff, id, now);
      customer in s.customers && answer.Ok? ==>
        && answer.value == Expirable(s, customer, cutoff)
        && s'.customers[customer].balance == s.customers[customer].balance - answer.value
        && Replay(LogOf(s'.rows, customer)) == LotsFrom(Replay(LogOf(s.rows, customer)), cutoff)
  {
    RunKeepsBooks(steps);
    RunInOrder(steps);
    var s := Run(steps);
    if customer in s.customers {
      var log := LogOf(s.rows, customer);
      LogSum(s.rows, customer);
      LogInOrder(s.rows, customer);
      AtRiskIsFifo(log, cutoff);
      var (s', answer) := ExpireCustomer(s, store, customer, cutoff, id, now);
      if answer.Ok? {
        ReplayMirrors(log, cutoff);
        ConsumeOldLots(Replay(log), cutoff);
        if s' == s {
          assert LeftBefore(Replay(log), cutoff) == 0;
        } else {
          var row := Row(id, store, customer, ExpireRow, -Expirable(s, customer, cutoff), None, Some("expired"), now,
            true, Plain);
          LogOfAppend(s.rows, row, customer);
          ExpiryRemovesOldLots(log, cutoff, now);
        }
      }
    }
  }

  // ---------------------------------------------------- once, and undone exactly

  lemma {:induction false} RowsOnlyGrow(s: State, steps: seq<Step>)
    ensures s.rows <= RunFrom(s, steps).rows
  {
    if steps != [] {
      RowsOnlyGrow(s, steps[..|steps| - 1]);
      StepAppendsRows(RunFrom(s, steps[..|steps| - 1]), steps[|steps| - 1]);
    }
  }

  /** A payment that earned points never earns base points again, whatever happens in between. */
  lemma {:induction false} AwardedOnce(s: State, payment: Id, store: Id, customer: Id, earned: int, id: Id, now: int,
                                       steps: seq<Step>, store': Id, customer': Id, earned': int, id': Id, now': int)
    requires var (_, answer) := Award(s, payment, store, customer, earned, id, now); answer.Ok? && answer.value > 0
    ensures var later := RunFrom(Award(s, payment, store, customer, earned, id, now).0, steps);
      Award(later, payment, store', customer', earned', id', now') == (later, Ok(0))
  {
    var s1 := Award(s, payment, store, customer, earned, id, now).0;
    var later := RunFrom(s1, steps);
    RowsOnlyGrow(s1, steps);
    var k := |s.rows|;
    assert later.rows[k] == s1.rows[k] == EarnOf(id, store, customer, earned, Some(payment), now);
    assert Awarded(later.rows, payment);
  }

  /** Vouchers of a reward that still hold a unit of its stock. */
  function HoldingStock(redemptions: seq<Redemption>, reward: Id): nat {
    if redemptions == [] then 0
    else
      var r := redemptions[|redemptions| - 1];
      HoldingStock(redemptions[..|redemptions| - 1], reward)
        + if r.reward == reward && r.status != Cancelled then 1 else 0
  }

  lemma {:induction false} HoldingAppend(redemptions: seq<Redemption>, r: Redemption, reward: Id)
    ensures HoldingStock(redemptions + [r], reward) == HoldingStock(redemptions, reward)
      + if r.reward == reward && r.status != Cancelled then 1 else 0
  {
    assert (redemptions + [r])[..|redemptions|] == redemptions;
  }

  lemma {:induction false} HoldingUpdate(redemptions: seq<Redemption>, i: nat, status: Status, reward: Id)
    requires i < |redemptions| && redemptions[i].status != Cancelled
    ensures HoldingStock(redemptions[i := redemptions[i].(status := status)], reward)
         == HoldingStock(redemptions, reward) - if redemptions[i].reward == reward && status == Cancelled then 1 else 0
  {
    var n, updated := |redemptions| - 1, redemptions[i := redemptions[i].(status := status)];
    if i == n {
      assert updated[..n] == redemptions[..n];
    } else {
      HoldingUpdate(redemptions[..n], i, status, reward);
      assert updated[..n] == redemptions[..n][i := redemptions[i].(status := status)];
    }
  }

  /** What a step, or a run, keeps of one reward: a finite stock plus the vouchers holding a unit of it. */
  ghost predicate StockKept(s: State, s': State, reward: Id)
    requires reward in s.rewards
  {
    && reward in s'.rewards
    && (s.rewards[reward].stock == -1 ==> s'.rewards[reward].stock == -1)
    && (s.rewards[reward].stock >= 0 ==>
         && s'.rewards[reward].stock >= 0
         && s'.rewards[reward].stock + HoldingStock(s'.redemptions, reward)
              == s.rewards[reward].stock + HoldingStock(s.redemptions, reward))
  }

  lemma {:induction false} RedeemKeepsStock(s: State, store: Id, customer: Id, r: Id, id: Id, now: int, reward: Id)
    requires reward in s.rewards && s.rewards[reward].stock >= -1
    ensures StockKept(s, RedeemReward(s, store, customer, r, id, now).0, reward)
  {
    hide PostPoints, Taken, HoldingStock;
    if r in s.rewards {
      HoldingAppend(s.redemptions, Redemption(store, customer, r, s.rewards[r].cost, Issued), reward);
    }
  }

  lemma {:induction false} CancelKeepsStock(s: State, r: Id, id: Id, now: int, reward: Id)
    requires reward in s.rewards && s.rewards[reward].stock >= -1
    ensures StockKept(s, Cancel(s, r, id, now).0, reward)
    ensures StockKept(s, Fulfill(s, r).0, reward)
  {
    hide PostPoints, Taken, HoldingStock;
    if r < |s.redemptions| && s.redemptions[r].status == Issued {
      HoldingUpdate(s.redemptions, r, Cancelled, reward);
      HoldingUpdate(s.redemptions, r, Fulfilled, reward);
    }
  }

  lemma {:induction false} OtherStepsKeepVouchers(s: State, step: Step)
    requires !step.op.DoRedeemReward? && !step.op.DoCancel? && !step.op.DoFulfill? && !step.op.AddReward?
    ensures Apply(s, step).rewards == s.rewards && Apply(s, step).redemptions == s.redemptions
  {
    hide PostPoints, PostTo, Expirable, Taken, Capped;
    match step.op {
      case DoReferralReward(referee, store, p, n1, n2, id1, id2) =>
        ReferralAppendsRows(s, referee, store, p, n1, n2, id1, id2, step.now);
      case _ =>
    }
  }

  lemma {:induction false} StepConservesStock(s: State, step: Step, reward: Id)
    requires reward in s.rewards && s.rewards[reward].stock >= -1
    ensures StockKept(s, Apply(s, step), reward)
  {
    hide RedeemReward, Cancel, Fulfill, Award, PromoBonus, GamePrize, ReferralReward, Mutate, ExpireCustomer, PostTo,
      HoldingStock;
    match step.op {
      case AddReward(_, _) =>
      case DoRedeemReward(store, c, r, id) => RedeemKeepsStock(s, store, c, r, id, step.now, reward);
      case DoCancel(r, id) => CancelKeepsStock(s, r, id, step.now, reward);
      case DoFulfill(r) => CancelKeepsStock(s, r, 0, step.now, reward);
      case _ => OtherStepsKeepVouchers(s, step);
    }
  }

  /**
   A finite stock plus the vouchers holding a unit of it is constant over any run; an unlimited stock stays
   unlimited.
   */
  lemma {:induction false} StockIsConserved(s: State, steps: seq<Step>, reward: Id)
    requires reward in s.rewards && s.rewards[reward].stock >= -1
    ensures StockKept(s, RunFrom(s, steps), reward)
  {
    if steps != [] {
      StockIsConserved(s, steps[..|steps| - 1], reward);
      StepConservesStock(RunFrom(s, steps[..|steps| - 1]), steps[|steps| - 1], reward);
    }
  }

  /** Two rows that take and give back the same points under the settled account leave every balance alone. */
  lemma {:induction false} OppositeRows(rows: seq<Row>, taken: Row, back: Row, account: Account, scope: Option<Id>)
    requires taken.store == back.store && taken.points == -back.points <= 0
    requires LiveMovement(taken) == Redeem && LiveMovement(back) == RedeemReversal
    ensures Tally(rows + [taken] + [back], Via(account, scope)) == Tally(rows, Via(account, scope))
    ensures Tally(rows + [taken] + [back], InStore(scope)) == Tally(rows, InStore(scope))
  {
    TallyAppend(rows, taken, Via(account, scope));
    TallyAppend(rows + [taken], back, Via(account, scope));
    TallyAppend(rows, taken, InStore(scope));
    TallyAppend(rows + [taken], back, InStore(scope));
  }

  /**
   Cancelling a redemption undoes it: balance, lifetime, stock and every points balance of the ledger
   are back where they were, in particular points_settled, which a plain adjustment would leave
   inflated. It can be done once.
   */
  lemma {:induction false} CancelUndoesRedemption(s: State, store: Id, customer: Id, reward: Id, id1: Id, id2: Id,
      t1: int, t2: int, account: Account, scope: Option<Id>)
    requires Books(s) && RedeemReward(s, store, customer, reward, id1, t1).1.Ok?
    requires s.rewards[reward].stock >= -1
    requires !Taken(RedeemReward(s, store, customer, reward, id1, t1).0.rows, id2)
    ensures var s1 := RedeemReward(s, store, customer, reward, id1, t1).0;
      var (s2, answer) := Cancel(s1, |s.redemptions|, id2, t2);
      && answer == Ok(s.rewards[reward].cost)
      && s2.customers == s.customers && s2.rewards == s.rewards
      && Position(s2.journals, Where(PTS, account, scope, None))
           == Position(s.journals, Where(PTS, account, scope, None))
      && Cancel(s2, |s.redemptions|, id2, t2) == (s2, Err(WrongStatus))
  {
    hide PostPoints, ColumnsMatch, RowsKnown, RedemptionsKnown, WellKept, Live, BudgetsKept, Tally, Position,
      Outstanding, Taken;
    RewardKeepsBooks(s, store, customer, reward, id1, t1);
    var s1 := RedeemReward(s, store, customer, reward, id1, t1).0;
    CancelKeepsBooks(s1, |s.redemptions|, id2, t2);
    var s2 := Cancel(s1, |s.redemptions|, id2, t2).0;
    var cost: int := s.rewards[reward].cost;
    var taken := Row(id1, store, customer, RedeemRow, -cost, None, Some("reward"), t1, true,
      ForReward(|s.redemptions|));
    var back := Row(id2, store, customer, AdjustRow, cost, None, Some(REDEMPTION_CANCELLED_REASON), t2, true,
      CancelOf(|s.redemptions|));
    assert s1.redemptions[|s.redemptions|] == Redemption(store, customer, reward, cost, Issued);
    assert s2.rows == s.rows + [taken] + [back];
    OppositeRows(s.rows, taken, back, account, scope);
    LedgerMirrorsRows(s.journals, s.rows, customer, scope, account);
    LedgerMirrorsRows(s2.journals, s2.rows, customer, scope, account);
  }

  // ------------------------------------------------- a cancellation, any time later

  /** A redemption as it may look after more steps: only its status moves, and only from issued. */
  predicate Continues(before: Redemption, after: Redemption) {
    && after.(status := before.status) == before
    && (before.status != Issued ==> after.status == before.status)
  }

  lemma {:induction false} StepContinues(s: State, step: Step, i: nat)
    requires i < |s.redemptions|
    ensures i < |Apply(s, step).redemptions| && Continues(s.redemptions[i], Apply(s, step).redemptions[i])
  {
    hide PostPoints, PostTo, Taken, Award, PromoBonus, GamePrize, ReferralReward, Mutate, ExpireCustomer;
    match step.op {
      case DoRedeemReward(_, _, _, _) =>
      case DoCancel(_, _) =>
      case DoFulfill(_) =>
      case AddReward(_, _) =>
      case _ => OtherStepsKeepVouchers(s, step);
    }
  }

  lemma {:induction false} RunContinues(s: State, steps: seq<Step>, i: nat)
    requires i < |s.redemptions|
    ensures i < |RunFrom(s, steps).redemptions| && Continues(s.redemptions[i], RunFrom(s, steps).redemptions[i])
  {
    if steps != [] {
      RunContinues(s, steps[..|steps| - 1], i);
      StepContinues(RunFrom(s, steps[..|steps| - 1]), steps[|steps| - 1], i);
    }
  }

  /** What one more row does to a points balance of well-kept books. */
  lemma {:induction false} RowMovesPosition(s: State, row: Row, account: Account, scope: Option<Id>)
    requires BooksButRewards(s) && row.customer in s.customers && BooksButRewards(Record(s, row))
    ensures Position(Record(s, row).journals, Where(PTS, account, scope, None))
      - Position(s.journals, Where(PTS, account, scope, None))
      == if account == PointsLiability then (if Counts(InStore(scope), row) then 10000 * row.points else 0)
         else if Counts(Via(account, scope), row) then -10000 * row.points else 0
  {
    hide PostPoints, Position, Tally, Live, WellKept;
    assert Record(s, row).rows == s.rows + [row];
    LedgerMirrorsRows(s.journals, s.rows, row.customer, scope, account);
    LedgerMirrorsRows(Record(s, row).journals, s.rows + [row], row.customer, scope, account);
    TallyAppend(s.rows, row, InStore(scope));
    TallyAppend(s.rows, row, Via(account, scope));
  }

  lemma {:induction false} RedeemMoves(s: State, store: Id, customer: Id, reward: Id, id: Id, now: int,
      account: Account, scope: Option<Id>)
    requires Books(s) && RedeemReward(s, store, customer, reward, id, now).1.Ok?
    ensures var row :=
      Row(id, store, customer, RedeemRow, -(s.rewards[reward].cost as int), None, Some("reward"), now, true,
        ForReward(|s.redemptions|));
      Position(RedeemReward(s, store, customer, reward, id, now).0.journals, Where(PTS, account, scope, None))
      - Position(s.journals, Where(PTS, account, scope, None))
      == if account == PointsLiability then (if Counts(InStore(scope), row) then 10000 * row.points else 0)
         else if Counts(Via(account, scope), row) then -10000 * row.points else 0
  {
    var row := Row(id, store, customer, RedeemRow, -(s.rewards[reward].cost as int), None, Some("reward"), now, true,
      ForReward(|s.redemptions|));
    RedeemRecords(s, store, customer, reward, id, now, row);
    hide RedeemReward, Record, Position, Tally, BooksButRewards, Refusal, Counts;
    RecordKeepsBooks(s, row);
    RowMovesPosition(s, row, account, scope);
  }

  lemma {:induction false} RedeemRecords(s: State, store: Id, customer: Id, reward: Id, id: Id, now: int, row: Row)
    requires RedeemReward(s, store, customer, reward, id, now).1.Ok?
    requires row
      == Row(id, store, customer, RedeemRow, -(s.rewards[reward].cost as int), None, Some("reward"), now, true,
        ForReward(|s.redemptions|))
    ensures Refusal(s, row.id, row.store, row.customer) == None && s.customers[customer].balance + row.points >= 0
    ensures RedeemReward(s, store, customer, reward, id, now).0.journals == Record(s, row).journals
  {
    hide PostPoints, Taken;
  }

  lemma {:induction false} CancelMoves(s: State, i: nat, id: Id, now: int, account: Account, scope: Option<Id>)
    requires Books(s) && Cancel(s, i, id, now).1.Ok?
    ensures var r := s.redemptions[i];
      var row := Row(id, r.store, r.customer, AdjustRow, r.spent, None, Some(REDEMPTION_CANCELLED_REASON), now, true,
        CancelOf(i));
      Position(Cancel(s, i, id, now).0.journals, Where(PTS, account, scope, None))
      - Position(s.journals, Where(PTS, account, scope, None))
      == if account == PointsLiability then (if Counts(InStore(scope), row) then 10000 * row.points else 0)
         else if Counts(Via(account, scope), row) then -10000 * row.points else 0
  {
    var r := s.redemptions[i];
    var row := Row(id, r.store, r.customer, AdjustRow, r.spent, None, Some(REDEMPTION_CANCELLED_REASON), now, true,
      CancelOf(i));
    NotOverdrawn(s, r.customer);
    hide PostPoints, Position, Tally, BooksButRewards, Taken;
    RecordKeepsBooks(s, row);
    RowMovesPosition(s, row, account, scope);
  }

  lemma {:induction false} RedeemIssues(s: State, store: Id, customer: Id, reward: Id, id: Id, now: int)
    requires RedeemReward(s, store, customer, reward, id, now).1.Ok?
    ensures reward in s.rewards && s.rewards[reward].stock != 0
    ensures var s' := RedeemReward(s, store, customer, reward, id, now).0;
      && |s'.redemptions| == |s.redemptions| + 1
      && s'.redemptions[|s.redemptions|] == Redemption(store, customer, reward, s.rewards[reward].cost, Issued)
      && s'.rewards.Keys == s.rewards.Keys
      && s'.rewards[reward]
           == s.rewards[reward].(stock :=
             if s.rewards[reward].stock > 0 then s.rewards[reward].stock - 1 else s.rewards[reward].stock)
  {
    hide PostPoints, Taken;
  }

  lemma {:induction false} CancelAnswers(s: State, i: nat, id: Id, now: int)
    requires Books(s) && i < |s.redemptions|
    ensures Cancel(s, i, id, now).1.Ok? <==> s.redemptions[i].status == Issued && !Taken(s.rows, id)
    ensures var (s', answer) := Cancel(s, i, id, now); var r := s.redemptions[i];
      answer.Ok? ==>
        && answer.value == r.spent
        && r.customer in s.customers
        && s'.customers
             == s.customers[r.customer :=
               s.customers[r.customer].(balance := s.customers[r.customer].balance + r.spent)]
        && s'.rewards == (if r.reward in s.rewards && s.rewards[r.reward].stock >= 0
                          then s.rewards[r.reward := s.rewards[r.reward].(stock := s.rewards[r.reward].stock + 1)]
                            else s.rewards)
        && s'.redemptions == s.redemptions[i := r.(status := Cancelled)]
  {
    hide PostPoints, Taken, Live, WellKept, ColumnsMatch, RowsKnown, BudgetsKept, Tally, Outstanding;
  }

  /**
   A voucher cancelled any time after it was issued: that succeeds exactly while it is still issued, and
   then gives back exactly what the redemption took, from the customer, from every points balance of the
   ledger and from a finite stock, whatever steps came in between.
   */
  lemma {:induction false} CancelGivesBack(s: State, store: Id, customer: Id, reward: Id, id1: Id, t1: int,
      steps: seq<Step>, id2: Id, t2: int, account: Account, scope: Option<Id>)
    requires Books(s) && RedeemReward(s, store, customer, reward, id1, t1).1.Ok? && s.rewards[reward].stock >= -1
    ensures var s1 := RedeemReward(s, store, customer, reward, id1, t1).0;
      var s2 := RunFrom(s1, steps);
      var (s3, answer) := Cancel(s2, |s.redemptions|, id2, t2);
      && |s.redemptions| < |s2.redemptions|
      && (answer.Ok? <==> s2.redemptions[|s.redemptions|].status == Issued && !Taken(s2.rows, id2))
      && (answer.Ok? ==>
            && answer.value == s.rewards[reward].cost
            && customer in s2.customers
            && s3.customers
                 == s2.customers[customer :=
                   s2.customers[customer].(balance := s2.customers[customer].balance + s.rewards[reward].cost)]
            && Position(s3.journals, Where(PTS, account, scope, None))
                 - Position(s2.journals, Where(PTS, account, scope, None))
               == Position(s.journals, Where(PTS, account, scope, None))
                 - Position(s1.journals, Where(PTS, account, scope, None))
            && reward in s2.rewards
            && s3.rewards == (if s.rewards[reward].stock == -1 then s2.rewards
                              else s2.rewards[reward := s2.rewards[reward].(stock := s2.rewards[reward].stock + 1)]))
  {
    hide Books, RedeemReward, Cancel, Position, RunFrom, HoldingStock, Taken;
    var s1 := RedeemReward(s, store, customer, reward, id1, t1).0;
    var i := |s.redemptions|;
    RedeemIssues(s, store, customer, reward, id1, t1);
    RewardKeepsBooks(s, store, customer, reward, id1, t1);
    RunFromKeepsBooks(s1, steps);
    RunContinues(s1, steps, i);
    StockIsConserved(s1, steps, reward);
    var s2 := RunFrom(s1, steps);
    CancelAnswers(s2, i, id2, t2);
    if Cancel(s2, i, id2, t2).1.Ok? {
      RedeemMoves(s, store, customer, reward, id1, t1, account, scope);
      CancelMoves(s2, i, id2, t2, account, scope);
    }
  }

  /** Once cancelled a voucher stays cancelled: no later cancellation hands anything back again. */
  lemma {:induction false} CancelledForGood(s: State, i: nat, id1: Id, t1: int, steps: seq<Step>, id2: Id, t2: int)
    requires Books(s) && i < |s.redemptions| && Cancel(s, i, id1, t1).1.Ok?
    ensures var later := RunFrom(Cancel(s, i, id1, t1).0, steps);
      Cancel(later, i, id2, t2) == (later, Err(WrongStatus))
  {
    hide Books, RunFrom, PostPoints, Taken;
    CancelAnswers(s, i, id1, t1);
    var s1 := Cancel(s, i, id1, t1).0;
    assert s1.redemptions == s.redemptions[i := s.redemptions[i].(status := Cancelled)];
    RunContinues(s1, steps, i);
  }
}
