/**
 Reconciling the books (apps/api/src/ledger/reconciliation.service.ts): the trial balance, the
 comparison of points balances with the ledger, and the backfill that repairs missing points journals.
 Grouped sums come from the database in any order; the loops below fold over them as the service does.
 */
module Reconciliation {
  import opened Wrappers
  import opened Ledger
  import opened Currencies
  import opened Grouping
  import opened PointsLedger
  import opened PointsEngine

  // -------------------------------------------------------------- trial balance

  type BalanceKey = (Account, Direction, Currency)

  function EntryItems(lines: seq<Entry>, currency: Currency): seq<(BalanceKey, int)> {
    if lines == [] then []
    else
      var e := lines[|lines| - 1];
      EntryItems(lines[..|lines| - 1], currency) + [((e.account, e.direction, currency), e.amount)]
  }

  /** The ledger lines of one store, or of the platform, under the columns a trial balance groups by. */
  function BalanceItems(journals: seq<Journal>, store: Option<Id>): seq<(BalanceKey, int)> {
    if journals == [] then []
    else
      var j := journals[|journals| - 1];
      BalanceItems(journals[..|journals| - 1], store)
      + if store.None? || j.store == store then EntryItems(j.lines, j.currency) else []
  }

  function BySide(currency: Currency, direction: Direction): BalanceKey -> bool {
    (key: BalanceKey) => key.1 == direction && key.2 == currency
  }

  function ByAccount(account: Account, currency: Currency, direction: Direction): BalanceKey -> bool {
    (key: BalanceKey) => key.0 == account && key.1 == direction && key.2 == currency
  }

  lemma {:induction false} PickedJoin<K>(a: seq<(K, int)>, b: seq<(K, int)>, pick: K -> bool)
    ensures Picked(a + b, pick) == Picked(a, pick) + Picked(b, pick)
  {
    if b == [] {
      assert a + b == a;
    } else {
      PickedJoin(a, b[..|b| - 1], pick);
      assert (a + b)[..|a + b| - 1] == a + b[..|b| - 1];
    }
  }

  lemma {:induction false} EntryItemsPicked(lines: seq<Entry>, currency: Currency, of: Currency, account: Account,
      direction: Direction, w: Where)
    requires w.account == account && w.customer == None
    ensures Picked(EntryItems(lines, currency), BySide(of, direction)) == if currency
      == of then Side(lines, direction) else 0
    ensures Picked(EntryItems(lines, currency), ByAccount(account, of, direction)) == if currency
      == of then DirectionOf(lines, w, direction) else 0
  {
    if lines != [] {
      var before, e := lines[..|lines| - 1], lines[|lines| - 1];
      EntryItemsPicked(before, currency, of, account, direction, w);
      assert EntryItems(lines, currency)[..|EntryItems(lines, currency)| - 1] == EntryItems(before, currency);
    }
  }

  lemma {:induction false} BalanceItemsPicked(journals: seq<Journal>, store: Option<Id>, currency: Currency,
      account: Account, direction: Direction)
    ensures Picked(BalanceItems(journals, store), BySide(currency, direction))
      == Total(journals, currency, store, direction)
    ensures Picked(BalanceItems(journals, store), ByAccount(account, currency, direction))
         == DirectionTotal(journals, Where(currency, account, store, None), direction)
  {
    if journals != [] {
      var before, j := journals[..|journals| - 1], journals[|journals| - 1];
      BalanceItemsPicked(before, store, currency, account, direction);
      EntryItemsPicked(j.lines, j.currency, currency, account, direction, Where(currency, account, store, None));
      var more := if store.None? || j.store == store then EntryItems(j.lines, j.currency) else [];
      PickedJoin(BalanceItems(before, store), more, BySide(currency, direction));
      PickedJoin(BalanceItems(before, store), more, ByAccount(account, currency, direction));
    }
  }

  lemma {:induction false} GroupedIsTrue(journals: seq<Journal>, store: Option<Id>, grouped: seq<Group<BalanceKey>>,
      account: Account, currency: Currency, direction: Direction)
    requires IsGroupBy(grouped, BalanceItems(journals, store))
    ensures GroupsPicked(grouped, BySide(currency, direction)) == Total(journals, currency, store, direction)
    ensures GroupsPicked(grouped, ByAccount(account, currency, direction))
      == DirectionTotal(journals, Where(currency, account, store, None), direction)
  {
    GroupsAddUp(grouped, BalanceItems(journals, store), BySide(currency, direction));
    GroupsAddUp(grouped, BalanceItems(journals, store), ByAccount(account, currency, direction));
    BalanceItemsPicked(journals, store, currency, account, direction);
  }

  /** The true debit and credit of an account. */
  function AccountRow(journals: seq<Journal>, account: Account, currency: Currency, store: Option<Id>): (int, int) {
    var w := Where(currency, account, store, None);
    (DirectionTotal(journals, w, Debit), DirectionTotal(journals, w, Credit))
  }

  /** Debit and credit of a row of the map, zero when absent. */
  function RowOf<K>(m: map<K, (int, int)>, key: K): (int, int) {
    if key in m then m[key] else (0, 0)
  }

  function AddTo(row: (int, int), direction: Direction, sum: int): (int, int) {
    if direction == Debit then (row.0 + sum, row.1) else (row.0, row.1 + sum)
  }

  /** The maps after the loop has folded over some groups. */
  ghost predicate Tabulated(groups: seq<Group<BalanceKey>>, accounts: map<(Account, Currency), (int, int)>,
      totals: map<Currency, (int, int)>) {
    && (forall a, c ::
         RowOf(accounts, (a, c))
           == (GroupsPicked(groups, ByAccount(a, c, Debit)), GroupsPicked(groups, ByAccount(a, c, Credit))))
    && (forall c ::
         RowOf(totals, c) == (GroupsPicked(groups, BySide(c, Debit)), GroupsPicked(groups, BySide(c, Credit))))
  }

  lemma {:induction false} TabulateOne(groups: seq<Group<BalanceKey>>, g: Group<BalanceKey>,
                                       accounts: map<(Account, Currency), (int, int)>, totals: map<Currency,
                                         (int, int)>)
    requires Tabulated(groups, accounts, totals)
    ensures var (account, direction, currency) := g.key;
      Tabulated(groups + [g],
                accounts[(account, currency) := AddTo(RowOf(accounts, (account, currency)), direction, g.sum)],
                totals[currency := AddTo(RowOf(totals, currency), direction, g.sum)])
  {
    var (account, direction, currency) := g.key;
    hide GroupsPicked;
    var longer := groups + [g];
    var accounts' := accounts[(account, currency) := AddTo(RowOf(accounts, (account, currency)), direction, g.sum)];
    var totals' := totals[currency := AddTo(RowOf(totals, currency), direction, g.sum)];
    forall a, c
      ensures RowOf(accounts', (a, c))
        == (GroupsPicked(longer, ByAccount(a, c, Debit)), GroupsPicked(longer, ByAccount(a, c, Credit)))
    {
      PickedSnoc(groups, g, ByAccount(a, c, Debit));
      PickedSnoc(groups, g, ByAccount(a, c, Credit));
    }
    forall c ensures RowOf(totals', c)
      == (GroupsPicked(longer, BySide(c, Debit)), GroupsPicked(longer, BySide(c, Credit))) {
      PickedSnoc(groups, g, BySide(c, Debit));
      PickedSnoc(groups, g, BySide(c, Credit));
    }
  }

  lemma {:induction false} PickedSnoc<K>(groups: seq<Group<K>>, g: Group<K>, pick: K -> bool)
    ensures GroupsPicked(groups + [g], pick) == GroupsPicked(groups, pick) + if pick(g.key) then g.sum else 0
  {
    assert (groups + [g])[..|groups|] == groups;
  }

  lemma {:induction false} TabulatedIsTrue(journals: seq<Journal>, store: Option<Id>, grouped: seq<Group<BalanceKey>>,
                                           accounts: map<(Account, Currency), (int, int)>, totals: map<Currency,
                                             (int, int)>, account: Account, currency: Currency)
    requires IsGroupBy(grouped, BalanceItems(journals, store)) && Tabulated(grouped, accounts, totals)
    ensures RowOf(accounts, (account, currency)) == AccountRow(journals, account, currency, store)
    ensures RowOf(totals, currency)
      == (Total(journals, currency, store, Debit), Total(journals, currency, store, Credit))
    ensures WellKept(journals) ==> RowOf(totals, currency).0 == RowOf(totals, currency).1
  {
    GroupedIsTrue(journals, store, grouped, account, currency, Debit);
    GroupedIsTrue(journals, store, grouped, account, currency, Credit);
    if WellKept(journals) {
      WellKeptBalances(journals, currency, store);
    }
  }

  /** Accounts whose balance is debits minus credits: assets and expenses. */
  predicate DebitNormal(account: Account) {
    account == SettlementClearing || account == CommissionExpense || account == PointsExpense
  }

  /** A balance as reported: positive on the account's normal side. */
  function NormalBalance(account: Account, position: int): int {
    if DebitNormal(account) then -position else position
  }

  /**
   The trial balance: every account row, its balance on the account's normal side and every currency total
   is true, and on well-kept books the totals are exactly equal, not merely within the tolerance.
   */
  method TrialBalance(journals: seq<Journal>, store: Option<Id>, grouped: seq<Group<BalanceKey>>)
    returns (accounts: map<(Account, Currency), (int, int)>, balances: map<(Account, Currency), int>,
      totals: map<Currency, (int, int)>, inBalance: bool)
    requires IsGroupBy(grouped, BalanceItems(journals, store))
    ensures forall a, c :: RowOf(accounts, (a, c)) == AccountRow(journals, a, c, store)
    ensures balances.Keys == accounts.Keys
    ensures forall a, c :: (a, c) in balances ==>
      balances[(a, c)] ==
        var position := Position(journals, Where(c, a, store, None));
        if a in {SettlementClearing, CommissionExpense, PointsExpense} then -position else position
    ensures forall c :: RowOf(totals, c) == (Total(journals, c, store, Debit), Total(journals, c, store, Credit))
    ensures inBalance <==> forall c :: c in totals ==> -50 <= RowOf(totals, c).0 - RowOf(totals, c).1 <= 50
    ensures WellKept(journals) ==> inBalance && forall c :: c in totals ==> RowOf(totals, c).0 == RowOf(totals, c).1
  {
    hide Tabulated, AccountRow, Total, WellKept, IsGroupBy;
    accounts, totals := map[], map[];
    NothingTabulated();
    for i := 0 to |grouped|
      invariant Tabulated(grouped[..i], accounts, totals)
    {
      var g := grouped[i];
      TabulateOne(grouped[..i], g, accounts, totals);
      var (account, direction, currency) := g.key;
      accounts := accounts[(account, currency) := AddTo(RowOf(accounts, (account, currency)), direction, g.sum)];
      totals := totals[currency := AddTo(RowOf(totals, currency), direction, g.sum)];
      assert grouped[..i] + [g] == grouped[..i + 1];
    }
    assert grouped[..|grouped|] == grouped;
    inBalance := forall c :: c in totals ==> -TOL_UNITS <= RowOf(totals, c).0 - RowOf(totals, c).1 <= TOL_UNITS;
    forall a, c ensures RowOf(accounts, (a, c)) == AccountRow(journals, a, c, store) {
      TabulatedIsTrue(journals, store, grouped, accounts, totals, a, c);
    }
    balances := map key | key in accounts ::
      if DebitNormal(key.0) then accounts[key].0 - accounts[key].1 else accounts[key].1 - accounts[key].0;
    forall a, c | (a, c) in balances
      ensures balances[(a, c)] == NormalBalance(a, Position(journals, Where(c, a, store, None)))
    {
      assert RowOf(accounts, (a, c)) == AccountRow(journals, a, c, store);
      AccountRowIsPosition(journals, a, c, store);
    }
    forall c
      ensures RowOf(totals, c) == (Total(journals, c, store, Debit), Total(journals, c, store, Credit))
      ensures WellKept(journals) ==> RowOf(totals, c).0 == RowOf(totals, c).1
    {
      TabulatedIsTrue(journals, store, grouped, accounts, totals, FeeRevenue, c);
    }
  }

  lemma {:induction false} AccountRowIsPosition(journals: seq<Journal>, account: Account, currency: Currency,
      store: Option<Id>)
    ensures var row := AccountRow(journals, account, currency, store);
      row.1 - row.0 == Position(journals, Where(currency, account, store, None))
  {
    PositionByDirection(journals, Where(currency, account, store, None));
  }

  lemma {:induction false} NothingTabulated()
    ensures Tabulated([], map[], map[])
  {
  }

  // --------------------------------------------------------------- points drift

  type DriftKey = (Option<Id>, Direction)

  function LiabilityEntries(lines: seq<Entry>): seq<(DriftKey, int)> {
    if lines == [] then []
    else
      var e := lines[|lines| - 1];
      LiabilityEntries(lines[..|lines| - 1])
        + if e.account == PointsLiability then [((e.customer, e.direction), e.amount)] else []
  }

  /** The points_liability lines of a scope, under the columns the drift query groups by. */
  function LiabilityItems(journals: seq<Journal>, store: Option<Id>): seq<(DriftKey, int)> {
    if journals == [] then []
    else
      var j := journals[|journals| - 1];
      LiabilityItems(journals[..|journals| - 1], store)
        + if InScope(j, PTS, store) then LiabilityEntries(j.lines) else []
  }

  function Held(customer: Id, direction: Direction): DriftKey -> bool {
    (key: DriftKey) => key == (Some(customer), direction)
  }

  function Liability(journals: seq<Journal>, store: Option<Id>, customer: Option<Id>): int {
    Position(journals, Where(PTS, PointsLiability, store, customer))
  }

  lemma {:induction false} LiabilityEntriesPicked(lines: seq<Entry>, customer: Id, store: Option<Id>)
    ensures Picked(LiabilityEntries(lines), Held(customer, Credit)) - Picked(LiabilityEntries(lines),
      Held(customer, Debit))
         == Effect(lines, Where(PTS, PointsLiability, store, Some(customer)))
  {
    if lines != [] {
      var before, e := lines[..|lines| - 1], lines[|lines| - 1];
      LiabilityEntriesPicked(before, customer, store);
      if e.account == PointsLiability {
        assert LiabilityEntries(lines)[..|LiabilityEntries(lines)| - 1] == LiabilityEntries(before);
      } else {
        assert LiabilityEntries(lines) == LiabilityEntries(before);
      }
    }
  }

  lemma {:induction false} LiabilityItemsPicked(journals: seq<Journal>, store: Option<Id>, customer: Id)
    ensures Picked(LiabilityItems(journals, store), Held(customer, Credit)) - Picked(LiabilityItems(journals, store),
      Held(customer, Debit))
         == Liability(journals, store, Some(customer))
  {
    if journals != [] {
      var before, j := journals[..|journals| - 1], journals[|journals| - 1];
      LiabilityItemsPicked(before, store, customer);
      LiabilityEntriesPicked(j.lines, customer, store);
      var more := if InScope(j, PTS, store) then LiabilityEntries(j.lines) else [];
      PickedJoin(LiabilityItems(before, store), more, Held(customer, Credit));
      PickedJoin(LiabilityItems(before, store), more, Held(customer, Debit));
    }
  }

  /** Credits minus debits the groups hold for a customer. */
  function HeldBy(groups: seq<Group<DriftKey>>, customer: Id): int {
    GroupsPicked(groups, Held(customer, Credit)) - GroupsPicked(groups, Held(customer, Debit))
  }

  lemma {:induction false} HeldIsLiability(journals: seq<Journal>, store: Option<Id>, grouped: seq<Group<DriftKey>>,
      customer: Id)
    requires IsGroupBy(grouped, LiabilityItems(journals, store))
    ensures HeldBy(grouped, customer) == Liability(journals, store, Some(customer))
  {
    GroupsAddUp(grouped, LiabilityItems(journals, store), Held(customer, Credit));
    GroupsAddUp(grouped, LiabilityItems(journals, store), Held(customer, Debit));
    LiabilityItemsPicked(journals, store, customer);
  }

  predicate Grouped(groups: seq<Group<DriftKey>>, customer: Id) {
    exists i :: 0 <= i < |groups| && groups[i].key.0 == Some(customer)
  }

  lemma {:induction false} NotGrouped(groups: seq<Group<DriftKey>>, customer: Id)
    requires !Grouped(groups, customer)
    ensures HeldBy(groups, customer) == 0
  {
    if groups != [] {
      var before := groups[..|groups| - 1];
      assert groups[|groups| - 1].key.0 != Some(customer);
      assert !Grouped(before, customer) by {
        forall i | 0 <= i < |before| ensures before[i].key.0 != Some(customer) {
          assert before[i] == groups[i];
        }
      }
      NotGrouped(before, customer);
    }
  }

  predicate OfStore(c: Customer, store: Option<Id>) {
    store.None? || store == Some(c.store)
  }

  /** The customers the comparison looks at: each once, and all of the scope with a balance or a ledger position. */
  ghost predicate Lists(list: seq<Id>, customers: map<Id, Customer>, store: Option<Id>, grouped: seq<Group<DriftKey>>) {
    && (forall i, k :: 0 <= i < k < |list| ==> list[i] != list[k])
    && (forall i :: 0 <= i < |list| ==> list[i] in customers && OfStore(customers[list[i]], store))
    && (forall c ::
         c in customers && OfStore(customers[c], store) && (customers[c].balance != 0 || Grouped(grouped, c)) ==>
           c in list)
  }

  function ColumnTotal(customers: map<Id, Customer>, list: seq<Id>): int
    requires forall i :: 0 <= i < |list| ==> list[i] in customers
  {
    if list == [] then 0 else ColumnTotal(customers, list[..|list| - 1]) + customers[list[|list| - 1]].balance
  }

  /** No drift: every customer of the scope agrees with the ledger, exactly. */
  ghost predicate ColumnsAgree(customers: map<Id, Customer>, journals: seq<Journal>, store: Option<Id>) {
    forall c :: c in customers && OfStore(customers[c], store) ==>
      10000 * customers[c].balance == Liability(journals, store, Some(c))
  }

  /** What a group adds to a customer's ledger figure. */
  function SignedFor(g: Group<DriftKey>, customer: Id): int {
    if g.key.0 != Some(customer) then 0 else if g.key.1 == Credit then g.sum else -g.sum
  }

  lemma {:induction false} HeldSnoc(groups: seq<Group<DriftKey>>, g: Group<DriftKey>, customer: Id)
    ensures HeldBy(groups + [g], customer) == HeldBy(groups, customer) + SignedFor(g, customer)
  {
    PickedSnoc(groups, g, Held(customer, Credit));
    PickedSnoc(groups, g, Held(customer, Debit));
  }

  lemma {:induction false} NothingHeld()
    ensures forall c :: HeldBy([], c) == 0
  {
  }

  /**
   The drift report. It is clean exactly when every customer of the scope, listed or not, agrees with
   the ledger and the listed balances add up to the whole liability; `drifted` names exactly the
   customers that disagree.
   */
  method PointsDrift(customers: map<Id, Customer>, journals: seq<Journal>, store: Option<Id>,
      grouped: seq<Group<DriftKey>>, list: seq<Id>)
    returns (ok: bool, drifted: seq<Id>, columnTotal: int, ledgerTotal: int)
    requires IsGroupBy(grouped, LiabilityItems(journals, store)) && Lists(list, customers, store, grouped)
    ensures columnTotal == ColumnTotal(customers, list) && ledgerTotal == Liability(journals, store, None)
    ensures forall c :: c in drifted <==>
      c in customers && OfStore(customers[c], store)
        && 10000 * customers[c].balance != Liability(journals, store, Some(c))
    ensures ok <==> ColumnsAgree(customers, journals, store) && 10000 * columnTotal == ledgerTotal
  {
    hide Position, DirectionTotal, LiabilityItems, IsGroupBy, HeldBy;
    NothingHeld();
    var ledgerByCustomer: map<Id, int> := map[];
    for i := 0 to |grouped|
      invariant forall c :: (if c in ledgerByCustomer then ledgerByCustomer[c] else 0) == HeldBy(grouped[..i], c)
    {
      var g := grouped[i];
      assert grouped[..i + 1] == grouped[..i] + [g];
      forall c ensures HeldBy(grouped[..i + 1], c) == HeldBy(grouped[..i], c) + SignedFor(g, c) {
        HeldSnoc(grouped[..i], g, c);
      }
      if g.key.0.Some? {
        var c := g.key.0.value;
        var signed := if g.key.1 == Credit then g.sum else -g.sum;
        ledgerByCustomer := ledgerByCustomer[c := (if c in ledgerByCustomer then ledgerByCustomer[c] else 0) + signed];
      }
    }
    assert grouped[..|grouped|] == grouped;
    forall c ensures HeldBy(grouped, c) == Liability(journals, store, Some(c)) {
      HeldIsLiability(journals, store, grouped, c);
    }
    drifted := [];
    columnTotal := 0;
    for i := 0 to |list|
      invariant forall c :: c in drifted <==>
        c in list[..i] && 10000 * customers[c].balance != Liability(journals, store, Some(c))
      invariant columnTotal == ColumnTotal(customers, list[..i])
    {
      var c := list[i];
      var ledger := if c in ledgerByCustomer then ledgerByCustomer[c] else 0;
      if ledger != 10000 * customers[c].balance {
        drifted := drifted + [c];
      }
      columnTotal := columnTotal + customers[c].balance;
      assert list[..i + 1] == list[..i] + [c];
    }
    assert list[..|list|] == list;
    forall c | c in customers && OfStore(customers[c], store) && c !in list
      ensures 10000 * customers[c].balance == Liability(journals, store, Some(c))
    {
      NotGrouped(grouped, c);
    }
    var w := Where(PTS, PointsLiability, store, None);
    ledgerTotal := DirectionTotal(journals, w, Credit) - DirectionTotal(journals, w, Debit);
    PositionByDirection(journals, w);
    assert |drifted| > 0 ==> drifted[0] in drifted;
    ok := |drifted| == 0 && 10000 * columnTotal == ledgerTotal;
  }

  // ----------------------------------------------------- reachable books: no drift

  /** Points of the rows of a set of customers. */
  function TallyOf(rows: seq<Row>, customers: set<Id>): int {
    if rows == [] then 0
    else
      var row := rows[|rows| - 1];
      TallyOf(rows[..|rows| - 1], customers) + if row.customer in customers then row.points else 0
  }

  lemma {:induction false} TallyOfOneMore(rows: seq<Row>, customers: set<Id>, c: Id)
    requires c !in customers
    ensures TallyOf(rows, customers + {c}) == TallyOf(rows, customers) + Tally(rows, OfCustomer(c))
  {
    if rows != [] {
      TallyOfOneMore(rows[..|rows| - 1], customers, c);
    }
  }

  lemma {:induction false} TallyOfNobody(rows: seq<Row>)
    ensures TallyOf(rows, {}) == 0
  {
    if rows != [] {
      TallyOfNobody(rows[..|rows| - 1]);
    }
  }

  lemma {:induction false} TallyOfStore(rows: seq<Row>, customers: map<Id, Customer>, scope: set<Id>, store: Option<Id>)
    requires forall i :: 0 <= i < |rows| ==>
      rows[i].customer in customers && rows[i].store == customers[rows[i].customer].store
    requires forall c :: c in scope <==> c in customers && OfStore(customers[c], store)
    ensures TallyOf(rows, scope) == Tally(rows, InStore(store))
  {
    if rows != [] {
      TallyOfStore(rows[..|rows| - 1], customers, scope, store);
    }
  }

  /** Customers whose rows sum to nothing do not count. */
  lemma {:induction false} TallyOfIdle(rows: seq<Row>, customers: set<Id>, idle: set<Id>)
    requires customers !! idle && forall c :: c in idle ==> Tally(rows, OfCustomer(c)) == 0
    ensures TallyOf(rows, customers + idle) == TallyOf(rows, customers)
    decreases idle
  {
    if idle == {} {
      assert customers + idle == customers;
    } else {
      var c :| c in idle;
      TallyOfIdle(rows, customers, idle - {c});
      TallyOfOneMore(rows, customers + (idle - {c}), c);
      assert customers + idle == customers + (idle - {c}) + {c};
    }
  }

  function Members(list: seq<Id>): set<Id> {
    set c | c in list
  }

  lemma {:induction false} ColumnTotalIsTally(customers: map<Id, Customer>, rows: seq<Row>, list: seq<Id>)
    requires BalancesMatch(customers, rows) && forall i :: 0 <= i < |list| ==> list[i] in customers
    requires forall i, k :: 0 <= i < k < |list| ==> list[i] != list[k]
    ensures ColumnTotal(customers, list) == TallyOf(rows, Members(list))
  {
    if list == [] {
      TallyOfNobody(rows);
      assert Members(list) == {};
    } else {
      var before, c := list[..|list| - 1], list[|list| - 1];
      ColumnTotalIsTally(customers, rows, before);
      TallyOfOneMore(rows, Members(before), c);
      assert Members(list) == Members(before) + {c};
    }
  }

  lemma {:induction false} ListedBalancesAddUp(customers: map<Id, Customer>, rows: seq<Row>, store: Option<Id>,
      grouped: seq<Group<DriftKey>>, list: seq<Id>)
    requires RowsBelong(customers, rows) && BalancesMatch(customers, rows) && Lists(list, customers, store, grouped)
    ensures ColumnTotal(customers, list) == Tally(rows, InStore(store))
  {
    var listed := Members(list);
    var scope := set c | c in customers && OfStore(customers[c], store);
    ColumnTotalIsTally(customers, rows, list);
    TallyOfStore(rows, customers, scope, store);
    TallyOfIdle(rows, listed, scope - listed);
    assert listed + (scope - listed) == scope;
  }

  /** A customer's rows are all of the customer's store, so the store filter of the query drops none of them. */
  lemma {:induction false} ScopedTallies(customers: map<Id, Customer>, rows: seq<Row>, store: Option<Id>, c: Id)
    requires RowsBelong(customers, rows)
    ensures c in customers && OfStore(customers[c], store) ==>
      Tally(rows, Scoped(store, Some(c))) == Tally(rows, OfCustomer(c))
    ensures Tally(rows, Scoped(store, None)) == Tally(rows, InStore(store))
  {
    if rows != [] {
      ScopedTallies(customers, rows[..|rows| - 1], store, c);
    }
  }

  lemma {:induction false} LiveScopedEffect(journals: seq<Journal>, rows: seq<Row>, store: Option<Id>,
      owner: Option<Id>)
    requires AllPosted(journals, rows)
    ensures PostedEffect(journals, rows, Where(PTS, PointsLiability, store, owner))
      == 10000 * Tally(rows, Scoped(store, owner))
  {
    if rows != [] {
      var before := rows[..|rows| - 1];
      forall k | 0 <= k < |before|
        && before[k].points != 0 ensures JournalFor(before[k], LiveMovement(before[k])) in journals {
        assert before[k] == rows[k];
      }
      LiveScopedEffect(journals, before, store, owner);
    }
  }

  /**
   Balances that are the sums of their rows agree with the ledger as soon as the ledger mirrors the rows,
   in whatever order these are listed.
   */
  lemma {:induction false} MirroredBooksAgree(customers: map<Id, Customer>, rows: seq<Row>, journals: seq<Journal>,
      store: Option<Id>, grouped: seq<Group<DriftKey>>, list: seq<Id>)
    requires RowsBelong(customers, rows) && BalancesMatch(customers, rows) && Live(journals, rows)
      && Lists(list, customers, store, grouped)
    ensures ColumnsAgree(customers, journals, store)
    ensures 10000 * ColumnTotal(customers, list) == Liability(journals, store, None)
  {
    ListedBalancesAddUp(customers, rows, store, grouped, list);
    ScopedTallies(customers, rows, store, 0);
    PositionOfRows(journals, rows, Where(PTS, PointsLiability, store, None));
    LiveScopedEffect(journals, rows, store, None);
    forall c | c in customers && OfStore(customers[c], store)
      ensures 10000 * customers[c].balance == Liability(journals, store, Some(c))
    {
      ScopedTallies(customers, rows, store, c);
      PositionOfRows(journals, rows, Where(PTS, PointsLiability, store, Some(c)));
      LiveScopedEffect(journals, rows, store, Some(c));
    }
  }

  /** After any sequence of points steps the drift report is clean, platform-wide and for every store. */
  lemma {:induction false} ReachableBooksHaveNoDrift(steps: seq<Step>, store: Option<Id>,
      grouped: seq<Group<DriftKey>>, list: seq<Id>)
    requires Lists(list, Run(steps).customers, store, grouped)
    ensures var s := Run(steps);
      ColumnsAgree(s.customers, s.journals, store)
        && 10000 * ColumnTotal(s.customers, list) == Liability(s.journals, store, None)
  {
    RunKeepsBooks(steps);
    var s := Run(steps);
    MirroredBooksAgree(s.customers, s.rows, s.journals, store, grouped, list);
  }
}
