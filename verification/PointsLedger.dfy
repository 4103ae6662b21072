/**
 Points rows and their journals (ledger.service.ts, postPointsMovement).

 Every points path writes a row of the sub-ledger, a balance column and a journal on points_liability.
 The journal of a row is determined by the row and by the movement the writer passes to the ledger;
 this module relates a set of journals to the rows they mirror.
 */
module PointsLedger {
  import opened Wrappers
  import opened Ledger
  import opened Currencies
  import opened Fifo

  /** The reason written when a redemption is cancelled; the backfill recognises it. */
  const REDEMPTION_CANCELLED_REASON := "redemption cancelled"

  datatype Kind = EarnRow | RedeemRow | AdjustRow | ExpireRow

  /**
   Which path wrote a row: an ordinary movement, a reward redemption, or the cancellation of one.
   This is not a column; it records what the live path did when it wrote the row.
   */
  datatype Cause = Plain | ForReward(redemption: Id) | CancelOf(redemption: Id)

  datatype Row = Row(
    id: Id, store: Id, customer: Id, kind: Kind, points: int, payment: Option<Id>,
    reason: Option<string>, at: int, confirmed: bool, cause: Cause)

  /** Redemptions never add points, and only the rows of a voucher name it. */
  predicate Shaped(row: Row) {
    && (row.kind == RedeemRow ==> row.points <= 0)
    && (row.kind == EarnRow ==> row.points > 0)
    && (row.cause.ForReward? ==> row.kind == RedeemRow)
    && (row.cause.CancelOf? ==>
         row.kind == AdjustRow && row.points >= 0 && row.reason == Some(REDEMPTION_CANCELLED_REASON))
  }

  /** A manual positive adjustment that carries the reserved reason. */
  predicate Ambiguous(row: Row) {
    row.kind == AdjustRow && row.points > 0 && row.reason == Some(REDEMPTION_CANCELLED_REASON) && !row.cause.CancelOf?
  }

  function MovementOf(kind: Kind): Movement {
    match kind
    case EarnRow => Earn
    case RedeemRow => Redeem
    case AdjustRow => Adjust
    case ExpireRow => Expire
  }

  /** The movement the live path posts for a row. */
  function LiveMovement(row: Row): Movement {
    if row.cause.CancelOf? then RedeemReversal else MovementOf(row.kind)
  }

  /** The contra account follows from why the points moved. */
  function Contra(movement: Movement, points: int): Account {
    if points > 0 then
      if movement == RedeemReversal then PointsSettled else PointsExpense
    else
      if movement == Redeem then PointsSettled else PointsBreakage
  }

  /** The table of the ledger's own comment: which account a movement of so many points stands against. */
  predicate StandsAgainst(account: Account, movement: Movement, points: int) {
    match account
    case PointsExpense => points > 0 && movement != RedeemReversal
    case PointsSettled => if points > 0 then movement == RedeemReversal else movement == Redeem
    case PointsBreakage => points <= 0 && movement != Redeem
    case _ => false
  }

  lemma {:induction false} ContraIsTable(account: Account, movement: Movement, points: int)
    ensures Contra(movement, points) == account <==> StandsAgainst(account, movement, points)
  {
  }

  function Abs(x: int): nat {
    if x < 0 then -x else x
  }

  function PointsLines(movement: Movement, customer: Id, points: int): seq<Line> {
    var magnitude := Abs(points) as real;
    [ Line(PointsLiability, if points > 0 then Credit else Debit, magnitude, Some(customer)),
      Line(Contra(movement, points), if points > 0 then Debit else Credit, magnitude, None) ]
  }

  /** The stored form of the same journal. */
  function JournalFor(row: Row, movement: Movement): Journal {
    var units := Abs(row.points) * 10000;
    Journal(Points(movement), Some(One(row.id)), Some(row.store), PTS,
            [ Entry(PointsLiability, if row.points > 0 then Credit else Debit, units, Some(row.customer)),
              Entry(Contra(movement, row.points), if row.points > 0 then Debit else Credit, units, None) ])
  }

  function PostPoints(journals: seq<Journal>, row: Row, movement: Movement): seq<Journal> {
    if row.points == 0 then journals
    else PostTo(journals, Points(movement), Some(One(row.id)), Some(row.store), PTS,
      PointsLines(movement, row.customer, row.points)).0
  }

  /** A points journal is never refused: it is booked once per row and movement, and a repeat is a no-op. */
  lemma {:induction false} PostPointsBooksOnce(journals: seq<Journal>, row: Row, movement: Movement)
    requires row.points != 0
    ensures PostPoints(journals, row, movement)
         == if HasKey(journals, Points(movement), Some(One(row.id))) then journals
           else journals + [JournalFor(row, movement)]
  {
    var lines := Rounded(PointsLines(movement, row.customer, row.points));
    var entries := JournalFor(row, movement).lines;
    assert lines == entries;
    TwoLines(entries[0], entries[1], Where(PTS, PointsLiability, None, None));
  }

  /** What a points journal adds to any points balance. */
  function RowEffect(row: Row, movement: Movement, w: Where): int {
    if w.currency != PTS || (w.store.Some? && w.store != Some(row.store)) then 0
    else if w.account == PointsLiability then
      if w.customer.None? || w.customer == Some(row.customer) then row.points * 10000 else 0
    else if StandsAgainst(w.account, movement, row.points) && w.customer.None? then -row.points * 10000
    else 0
  }

  lemma {:induction false} JournalEffectOfRow(row: Row, movement: Movement, w: Where)
    ensures JournalEffect(JournalFor(row, movement), w) == if row.points == 0 then 0 else RowEffect(row, movement, w)
  {
    var entries := JournalFor(row, movement).lines;
    TwoLines(entries[0], entries[1], w);
    ContraIsTable(w.account, movement, row.points);
  }

  // ------------------------------------------------------------ sums over rows

  predicate UniqueIds(rows: seq<Row>) {
    forall i, k :: 0 <= i < k < |rows| ==> rows[i].id != rows[k].id
  }

  /** Which rows a total counts. */
  datatype Sel =
    | OfCustomer(customer: Id)
    | EarnedBy(customer: Id)
    | InStore(store: Option<Id>)
    | Scoped(store: Option<Id>, owner: Option<Id>)
    | Via(account: Account, store: Option<Id>)
    | RawRedeem
    | RewardMovements
    | Granted(store: Option<Id>)
    | Spent(store: Option<Id>)
    | Released(store: Option<Id>)

  predicate Counts(sel: Sel, row: Row) {
    match sel
    case OfCustomer(c) => row.customer == c
    case EarnedBy(c) => row.customer == c && row.kind == EarnRow
    case InStore(store) => store.None? || store == Some(row.store)
    case Scoped(store, owner) =>
      (store.None? || store == Some(row.store)) && (owner.None? || owner == Some(row.customer))
    case Via(account, store) =>
      row.points != 0 && StandsAgainst(account, LiveMovement(row), row.points)
      && (store.None? || store == Some(row.store))
    case RawRedeem => row.kind == RedeemRow && row.cause == Plain
    case RewardMovements => row.cause != Plain
    case Granted(store) =>
      && (store.None? || store == Some(row.store))
      && (row.kind == EarnRow || (row.kind == AdjustRow && row.points > 0 && !row.cause.CancelOf?))
    case Spent(store) =>
      && (store.None? || store == Some(row.store))
      && (row.kind == RedeemRow || row.cause.CancelOf?)
    case Released(store) =>
      && (store.None? || store == Some(row.store))
      && (row.kind == ExpireRow || (row.kind == AdjustRow && row.points < 0))
  }

  function Tally(rows: seq<Row>, sel: Sel): int {
    if rows == [] then 0
    else Tally(rows[..|rows| - 1], sel) + if Counts(sel, rows[|rows| - 1]) then rows[|rows| - 1].points else 0
  }

  lemma {:induction false} TallyAppend(rows: seq<Row>, row: Row, sel: Sel)
    ensures Tally(rows + [row], sel) == Tally(rows, sel) + if Counts(sel, row) then row.points else 0
  {
    assert (rows + [row])[..|rows|] == rows;
  }

  /** A customer's confirmed movements, as the expiry rule reads them. */
  function LogOf(rows: seq<Row>, customer: Id): seq<Txn> {
    if rows == [] then []
    else
      var row := rows[|rows| - 1];
      LogOf(rows[..|rows| - 1], customer)
        + if row.confirmed && row.customer == customer then [Txn(row.points, row.at)] else []
  }

  lemma {:induction false} LogOfAppend(rows: seq<Row>, row: Row, customer: Id)
    ensures LogOf(rows + [row], customer) == LogOf(rows, customer)
      + if row.confirmed && row.customer == customer then [Txn(row.points, row.at)] else []
  {
    assert (rows + [row])[..|rows|] == rows;
  }

  lemma {:induction false} LogSum(rows: seq<Row>, customer: Id)
    requires forall i :: 0 <= i < |rows| ==> rows[i].confirmed
    ensures Sum(LogOf(rows, customer)) == Tally(rows, OfCustomer(customer))
  {
    if rows != [] {
      var before, row := rows[..|rows| - 1], rows[|rows| - 1];
      LogSum(before, customer);
      if row.customer == customer {
        assert LogOf(rows, customer)[..|LogOf(before, customer)|] == LogOf(before, customer);
      } else {
        assert LogOf(rows, customer) == LogOf(before, customer);
      }
    }
  }

  predicate RowsInOrder(rows: seq<Row>) {
    forall i, k :: 0 <= i < k < |rows| ==> rows[i].at <= rows[k].at
  }

  lemma {:induction false} LogInOrder(rows: seq<Row>, customer: Id)
    requires RowsInOrder(rows)
    ensures TimeOrdered(LogOf(rows, customer))
    ensures forall i :: 0 <= i < |LogOf(rows, customer)| ==>
      rows != [] && LogOf(rows, customer)[i].at <= rows[|rows| - 1].at
  {
    if rows != [] {
      var before := rows[..|rows| - 1];
      LogInOrder(before, customer);
      if before != [] {
        assert before[|before| - 1] == rows[|rows| - 2];
      }
    }
  }

  /** The same rows in another order have the same totals. */
  lemma {:induction false} TallyOfSameRows(a: seq<Row>, b: seq<Row>, sel: Sel)
    requires multiset(a) == multiset(b)
    ensures Tally(a, sel) == Tally(b, sel)
  {
    if a == [] {
      assert |multiset(b)| == 0;
    } else {
      var k := PlaceOf(a, b);
      TallyOfSameRows(a[..|a| - 1], b[..k] + b[k + 1..], sel);
      TallyWithout(b, k, sel);
    }
  }

  lemma {:induction false} PlaceOf(a: seq<Row>, b: seq<Row>) returns (k: nat)
    requires multiset(a) == multiset(b) && a != []
    ensures k < |b| && b[k] == a[|a| - 1]
    ensures multiset(a[..|a| - 1]) == multiset(b[..k] + b[k + 1..])
  {
    var n, row := |a| - 1, a[|a| - 1];
    assert row in multiset(b);
    k :| 0 <= k < |b| && b[k] == row;
    var front, rest := multiset(a[..n]), multiset(b[..k] + b[k + 1..]);
    assert a == a[..n] + [row];
    assert b == b[..k] + ([row] + b[k + 1..]);
    assert multiset(a) == front + multiset{row} && multiset(b) == rest + multiset{row};
    assert front == multiset(a) - multiset{row} && rest == multiset(b) - multiset{row};
  }

  lemma {:induction false} TallyWithout(rows: seq<Row>, k: nat, sel: Sel)
    requires k < |rows|
    ensures Tally(rows, sel) == Tally(rows[..k] + rows[k + 1..], sel)
      + if Counts(sel, rows[k]) then rows[k].points else 0
  {
    var n := |rows| - 1;
    if k == n {
      assert rows[..k] + rows[k + 1..] == rows[..n];
    } else {
      TallyWithout(rows[..n], k, sel);
      var rest := rows[..k] + rows[k + 1..];
      assert rest[..n - 1] == rows[..n][..k] + rows[..n][k + 1..] && rest[n - 1] == rows[n];
    }
  }

  // ------------------------------------------------- journals that mirror rows

  /** The points journals are exactly among those the rows call for, each row under its own movement. */
  ghost predicate OnlyLive(journals: seq<Journal>, rows: seq<Row>) {
    forall i :: 0 <= i < |journals| && (journals[i].event.Points? || journals[i].currency == PTS)
      ==> exists k ::
        0 <= k < |rows| && rows[k].points != 0 && journals[i] == JournalFor(rows[k], LiveMovement(rows[k]))
  }

  ghost predicate AllPosted(journals: seq<Journal>, rows: seq<Row>) {
    forall k :: 0 <= k < |rows| && rows[k].points != 0 ==> JournalFor(rows[k], LiveMovement(rows[k])) in journals
  }

  /** The points journals are exactly the ones the live paths post for the rows. */
  ghost predicate Live(journals: seq<Journal>, rows: seq<Row>) {
    OnlyLive(journals, rows) && AllPosted(journals, rows) && OnePerKey(journals) && UniqueIds(rows)
  }

  /** Total effect of the rows that have their journal. */
  function PostedEffect(journals: seq<Journal>, rows: seq<Row>, w: Where): int {
    if rows == [] then 0
    else
      var row := rows[|rows| - 1];
      PostedEffect(journals, rows[..|rows| - 1], w)
      + if row.points != 0
        && JournalFor(row, LiveMovement(row)) in journals then RowEffect(row, LiveMovement(row), w) else 0
  }

  lemma {:induction false} PostedEffectGrows(journals: seq<Journal>, j: Journal, rows: seq<Row>, k: int, w: Where)
    requires UniqueIds(rows) && j !in journals
    requires -1 <= k < |rows|
    requires k == -1 ==> forall i :: 0 <= i < |rows| ==> j != JournalFor(rows[i], LiveMovement(rows[i]))
    requires k >= 0 ==> rows[k].points != 0 && j == JournalFor(rows[k], LiveMovement(rows[k]))
    ensures PostedEffect(journals + [j], rows, w)
         == PostedEffect(journals, rows, w) + if k == -1 then 0 else RowEffect(rows[k], LiveMovement(rows[k]), w)
  {
    if rows != [] {
      var n := |rows| - 1;
      var before, row := rows[..n], rows[n];
      if k == n {
        PostedEffectGrows(journals, j, before, -1, w);
      } else {
        PostedEffectGrows(journals, j, before, k, w);
        assert j != JournalFor(row, LiveMovement(row));
      }
    }
  }

  lemma {:induction false} PostedEffectOfNone(rows: seq<Row>, w: Where)
    ensures PostedEffect([], rows, w) == 0
  {
    if rows != [] {
      PostedEffectOfNone(rows[..|rows| - 1], w);
    }
  }

  /** Any points balance is the sum of the effects of the rows that were posted. */
  lemma {:induction false} PositionOfRows(journals: seq<Journal>, rows: seq<Row>, w: Where)
    requires OnlyLive(journals, rows) && OnePerKey(journals) && UniqueIds(rows) && w.currency == PTS
    ensures Position(journals, w) == PostedEffect(journals, rows, w)
  {
    if journals == [] {
      PostedEffectOfNone(rows, w);
    } else {
      var n := |journals| - 1;
      var before, j := journals[..n], journals[n];
      assert before + [j] == journals;
      forall i | 0 <= i < n ensures before[i] == journals[i] {}
      assert OnlyLive(before, rows) && OnePerKey(before);
      PositionOfRows(before, rows, w);
      if j.event.Points? || j.currency == PTS {
        var k :| 0 <= k < |rows| && rows[k].points != 0 && j == JournalFor(rows[k], LiveMovement(rows[k]));
        JournalEffectOfRow(rows[k], LiveMovement(rows[k]), w);
        PostedEffectGrows(before, j, rows, k, w);
      } else {
        PostedEffectSame(before, j, rows, w);
      }
    }
  }

  lemma {:induction false} PostedEffectSame(journals: seq<Journal>, j: Journal, rows: seq<Row>, w: Where)
    requires !j.event.Points?
    ensures PostedEffect(journals + [j], rows, w) == PostedEffect(journals, rows, w)
  {
    if rows != [] {
      PostedEffectSame(journals, j, rows[..|rows| - 1], w);
    }
  }

  /** The ledger mirrors the rows: liability per customer and per store, and every contra account per store. */
  lemma {:induction false} LedgerMirrorsRows(journals: seq<Journal>, rows: seq<Row>, customer: Id, store: Option<Id>,
      account: Account)
    requires Live(journals, rows)
    ensures Position(journals, Where(PTS, PointsLiability, None, Some(customer)))
      == 10000 * Tally(rows, OfCustomer(customer))
    ensures Position(journals, Where(PTS, PointsLiability, store, None)) == 10000 * Tally(rows, InStore(store))
    ensures account != PointsLiability ==>
      Position(journals, Where(PTS, account, store, None)) == -10000 * Tally(rows, Via(account, store))
  {
    PositionOfRows(journals, rows, Where(PTS, PointsLiability, None, Some(customer)));
    PositionOfRows(journals, rows, Where(PTS, PointsLiability, store, None));
    PositionOfRows(journals, rows, Where(PTS, account, store, None));
    PostedEffectIsTally(journals, rows, customer, store, account);
  }

  lemma {:induction false} PostedEffectIsTally(journals: seq<Journal>, rows: seq<Row>, customer: Id,
      store: Option<Id>, account: Account)
    requires AllPosted(journals, rows)
    ensures PostedEffect(journals, rows, Where(PTS, PointsLiability, None, Some(customer)))
      == 10000 * Tally(rows, OfCustomer(customer))
    ensures PostedEffect(journals, rows, Where(PTS, PointsLiability, store, None))
      == 10000 * Tally(rows, InStore(store))
    ensures account != PointsLiability ==>
      PostedEffect(journals, rows, Where(PTS, account, store, None)) == -10000 * Tally(rows, Via(account, store))
  {
    if rows != [] {
      var before := rows[..|rows| - 1];
      forall k | 0 <= k < |before|
        && before[k].points != 0 ensures JournalFor(before[k], LiveMovement(before[k])) in journals {
        assert before[k] == rows[k];
      }
      PostedEffectIsTally(journals, before, customer, store, account);
    }
  }

  /** Expiries take points. */
  predicate ExpiriesTake(rows: seq<Row>) {
    forall i :: 0 <= i < |rows| && rows[i].kind == ExpireRow ==> rows[i].points < 0
  }

  /** Every contra account by the rows that stand against it: why the points moved, and which way. */
  lemma {:induction false} ContraRows(rows: seq<Row>, store: Option<Id>)
    requires ExpiriesTake(rows) && forall i :: 0 <= i < |rows| ==> Shaped(rows[i])
    ensures Tally(rows, Via(PointsExpense, store)) == Tally(rows, Granted(store))
    ensures Tally(rows, Via(PointsSettled, store)) == Tally(rows, Spent(store))
    ensures Tally(rows, Via(PointsBreakage, store)) == Tally(rows, Released(store))
  {
    if rows != [] {
      ContraRows(rows[..|rows| - 1], store);
    }
  }

  /** The points booked as settled are the raw redemptions and the vouchers that were not handed back. */
  lemma {:induction false} SettledRows(rows: seq<Row>)
    requires forall i :: 0 <= i < |rows| ==> Shaped(rows[i])
    ensures Tally(rows, Via(PointsSettled, None)) == Tally(rows, RawRedeem) + Tally(rows, RewardMovements)
  {
    if rows != [] {
      SettledRows(rows[..|rows| - 1]);
    }
  }
}
