/**
 The points backfill (reconciliation.service.ts, backfillPoints): replays the confirmed rows of the
 sub-ledger, in pages of 500 ordered by id, through the same posting as the live paths. The unique key
 of the journals makes a row that already has its journal a no-op.
 */
module Backfill {
  import opened Wrappers
  import opened Ledger
  import opened Currencies
  import opened PointsLedger
  import opened PointsEngine
  import opened Reconciliation

  const BATCH := 500

  /** The movement the backfill infers from the columns of a row. */
  function InferredMovement(row: Row): Movement {
    if row.points > 0 && row.kind == AdjustRow && row.reason == Some(REDEMPTION_CANCELLED_REASON) then RedeemReversal
    else MovementOf(row.kind)
  }

  /** The backfill infers the movement of the live path for every row with points, except the ambiguous ones. */
  lemma {:induction false} InferredIsLiveIff(row: Row)
    requires Shaped(row) && row.points != 0
    ensures InferredMovement(row) == LiveMovement(row) <==> !Ambiguous(row)
  {
  }

  // ------------------------------------------------------------------ the loop

  function Confirmed(table: seq<Row>): seq<Row> {
    if table == [] then []
    else Confirmed(table[..|table| - 1]) + if table[|table| - 1].confirmed then [table[|table| - 1]] else []
  }

  predicate ById(rows: seq<Row>) {
    forall i, k :: 0 <= i < k < |rows| ==> rows[i].id < rows[k].id
  }

  /** The rows after the cursor, in id order. */
  function After(rows: seq<Row>, cursor: Option<Id>): seq<Row> {
    if rows == [] then []
    else if cursor.Some? && rows[0].id <= cursor.value then After(rows[1..], cursor)
    else rows
  }

  /** One page of the query: confirmed rows after the cursor, at most a batch. */
  function Page(table: seq<Row>, cursor: Option<Id>): seq<Row> {
    var rest := After(Confirmed(table), cursor);
    if |rest| <= BATCH then rest else rest[..BATCH]
  }

  /** What replaying rows does to the journals. */
  function Replayed(journals: seq<Journal>, rows: seq<Row>): seq<Journal> {
    if rows == [] then journals
    else
      var row := rows[|rows| - 1];
      PostPoints(Replayed(journals, rows[..|rows| - 1]), row, InferredMovement(row))
  }

  function WithPoints(rows: seq<Row>): nat {
    if rows == [] then 0 else WithPoints(rows[..|rows| - 1]) + if rows[|rows| - 1].points == 0 then 0 else 1
  }

  lemma {:induction false} ConfirmedById(table: seq<Row>)
    requires ById(table)
    ensures ById(Confirmed(table)) && |Confirmed(table)| <= |table|
    ensures forall i :: 0 <= i < |Confirmed(table)| ==> Confirmed(table)[i].confirmed && Confirmed(table)[i] in table
  {
    if table != [] {
      ConfirmedById(table[..|table| - 1]);
    }
  }

  /** The rows that are visited: the confirmed ones, all of them and no others. */
  lemma {:induction false} ConfirmedIff(table: seq<Row>, row: Row)
    ensures row in Confirmed(table) <==> row in table && row.confirmed
  {
    if table != [] {
      ConfirmedIff(table[..|table| - 1], row);
      assert table == table[..|table| - 1] + [table[|table| - 1]];
    }
  }

  /** Resuming after the k-th row continues with the next one: pages neither drop nor repeat a row. */
  lemma {:induction false} AfterIsSuffix(rows: seq<Row>, k: nat)
    requires ById(rows) && k <= |rows|
    ensures After(rows, if k == 0 then None else Some(rows[k - 1].id)) == rows[k..]
  {
    if k > 0 {
      if k == 1 {
        if |rows| > 1 {
          assert rows[1..][0].id > rows[0].id;
        }
      } else {
        AfterIsSuffix(rows[1..], k - 1);
        assert rows[1..][k - 2] == rows[k - 1] && rows[1..][k - 1..] == rows[k..];
      }
    }
  }

  /** The page at the k-th row holds the next rows, up to a batch; only the last page is short. */
  lemma {:induction false} PageIsSlice(table: seq<Row>, k: nat)
    requires ById(table) && k <= |Confirmed(table)|
    ensures var all := Confirmed(table);
      var page := Page(table, if k == 0 then None else Some(all[k - 1].id));
      && k + |page| <= |all| && page == all[k..k + |page|] && |page| <= 500
      && (|page| < 500 ==> k + |page| == |all|)
  {
    ConfirmedById(table);
    AfterIsSuffix(Confirmed(table), k);
  }

  /** One more row replayed. */
  lemma {:induction false} ReplayedStep(journals: seq<Journal>, rows: seq<Row>, k: nat)
    requires k < |rows|
    ensures Replayed(journals, rows[..k + 1])
      == PostPoints(Replayed(journals, rows[..k]), rows[k], InferredMovement(rows[k]))
    ensures WithPoints(rows[..k + 1]) == WithPoints(rows[..k]) + if rows[k].points == 0 then 0 else 1
  {
    assert rows[..k + 1][..k] == rows[..k];
  }

  /** The rows counted as posted are those with points. */
  lemma {:induction false} WithPointsCounts(a: seq<Row>, row: Row, b: seq<Row>)
    ensures WithPoints([]) == 0
    ensures WithPoints(a + [row] + b) == WithPoints(a) + (if row.points != 0 then 1 else 0) + WithPoints(b)
  {
    if b == [] {
      assert a + [row] + b == a + [row] && (a + [row])[..|a|] == a;
    } else {
      var n := |b| - 1;
      WithPointsCounts(a, row, b[..n]);
      assert (a + [row] + b)[..|a| + 1 + n] == a + [row] + b[..n];
    }
  }

  lemma {:induction false} NothingReplayed(journals: seq<Journal>, rows: seq<Row>)
    ensures Replayed(journals, rows[..0]) == journals && WithPoints(rows[..0]) == 0
  {
  }

  /**
   The cursor loop visits every confirmed row exactly once, in id order, and posts each row with points
   under its inferred movement.
   */
  method BackfillPoints(ledger: LedgerStore, table: seq<Row>) returns (scanned: nat, posted: nat, skipped: nat)
    requires ById(table)
    modifies ledger
    ensures ledger.journals == Replayed(old(ledger.journals), Confirmed(table))
    ensures scanned == |Confirmed(table)| && posted == WithPoints(Confirmed(table)) && skipped == scanned - posted
  {
    hide Replayed, WithPoints, Confirmed, PostTo, PointsLines, Page, ById, WellKept, HasKey;
    ghost var before := ledger.journals;
    ghost var all := Confirmed(table);
    NothingReplayed(before, all);
    var cursor: Option<Id> := None;
    scanned, posted, skipped := 0, 0, 0;
    while true
      invariant scanned <= |all| && cursor == if scanned == 0 then None else Some(all[scanned - 1].id)
      invariant ledger.journals == Replayed(before, all[..scanned])
      invariant posted == WithPoints(all[..scanned]) && skipped + posted == scanned
      decreases |all| - scanned
    {
      PageIsSlice(table, scanned);
      var rows := Page(table, cursor);
      if |rows| == 0 {
        break;
      }
      ghost var start := scanned;
      for i := 0 to |rows|
        invariant scanned == start + i
        invariant ledger.journals == Replayed(before, all[..scanned])
        invariant posted == WithPoints(all[..scanned]) && skipped + posted == scanned
      {
        var r := rows[i];
        assert r == all[scanned];
        ReplayedStep(before, all, scanned);
        scanned := scanned + 1;
        if r.points == 0 {
          skipped := skipped + 1;
        } else {
          var movement := if r.points > 0 && r.kind == AdjustRow
            && r.reason == Some(REDEMPTION_CANCELLED_REASON) then RedeemReversal else MovementOf(r.kind);
          var _ := ledger.Post(Points(movement), Some(One(r.id)), Some(r.store), PTS,
            PointsLines(movement, r.customer, r.points));
          posted := posted + 1;
        }
      }
      cursor := Some(rows[|rows| - 1].id);
      if |rows| < BATCH {
        break;
      }
    }
    assert all[..|all|] == all;
  }

  // ------------------------------------------------------------------ the repair

  /** The points journals before the repair: any part of what the live paths post for the rows. */
  ghost predicate PartOfLive(journals: seq<Journal>, rows: seq<Row>) {
    OnlyLive(journals, rows) && OnePerKey(journals) && UniqueIds(rows)
  }

  lemma {:induction false} ReplayedGrows(journals: seq<Journal>, rows: seq<Row>)
    ensures journals <= Replayed(journals, rows)
  {
    if rows != [] {
      ReplayedGrows(journals, rows[..|rows| - 1]);
    }
  }

  lemma {:induction false} ReplayedIsPart(journals: seq<Journal>, all: seq<Row>, n: nat)
    requires PartOfLive(journals, all) && n <= |all|
    requires forall i :: 0 <= i < |all| && all[i].points != 0 ==> InferredMovement(all[i]) == LiveMovement(all[i])
    ensures PartOfLive(Replayed(journals, all[..n]), all)
    ensures forall i :: 0 <= i < n && all[i].points != 0 ==>
      JournalFor(all[i], LiveMovement(all[i])) in Replayed(journals, all[..n])
  {
    if n > 0 {
      ReplayedIsPart(journals, all, n - 1);
      assert all[..n][..n - 1] == all[..n - 1];
      var js, row := Replayed(journals, all[..n - 1]), all[n - 1];
      if row.points != 0 {
        PostPointsBooksOnce(js, row, LiveMovement(row));
        KeyMeansJournal(js, all, n - 1);
        if !HasKey(js, Points(LiveMovement(row)), Some(One(row.id))) {
          OneMoreLive(js, all, n - 1);
        }
      }
    }
  }

  lemma {:induction false} OneMoreLive(journals: seq<Journal>, rows: seq<Row>, k: nat)
    requires PartOfLive(journals, rows) && k < |rows| && rows[k].points != 0
    requires !HasKey(journals, Points(LiveMovement(rows[k])), Some(One(rows[k].id)))
    ensures PartOfLive(journals + [JournalFor(rows[k], LiveMovement(rows[k]))], rows)
  {
    var more := journals + [JournalFor(rows[k], LiveMovement(rows[k]))];
    forall i | 0 <= i < |more| && (more[i].event.Points? || more[i].currency == PTS)
      ensures exists m ::
        0 <= m < |rows| && rows[m].points != 0 && more[i] == JournalFor(rows[m], LiveMovement(rows[m]))
    {
      if i < |journals| {
        assert more[i] == journals[i];
      } else {
        assert more[i] == JournalFor(rows[k], LiveMovement(rows[k]));
      }
    }
  }

  /** Among live journals the key of a row names exactly its journal. */
  lemma {:induction false} KeyMeansJournal(journals: seq<Journal>, rows: seq<Row>, k: nat)
    requires OnlyLive(journals, rows) && UniqueIds(rows) && k < |rows| && rows[k].points != 0
    ensures HasKey(journals, Points(LiveMovement(rows[k])), Some(One(rows[k].id))) <==>
      JournalFor(rows[k], LiveMovement(rows[k])) in journals
  {
    var row := rows[k];
    if HasKey(journals, Points(LiveMovement(row)), Some(One(row.id))) {
      var i :| 0 <= i < |journals| && journals[i].event == Points(LiveMovement(row))
        && journals[i].reference == Some(One(row.id));
      var m :| 0 <= m < |rows| && rows[m].points != 0 && journals[i] == JournalFor(rows[m], LiveMovement(rows[m]));
      assert m == k;
    }
    if JournalFor(row, LiveMovement(row)) in journals {
      var i :| 0 <= i < |journals| && journals[i] == JournalFor(row, LiveMovement(row));
    }
  }

  lemma {:induction false} PostKeepsKeys(journals: seq<Journal>, row: Row, movement: Movement, id: Id, other: Movement)
    ensures HasKey(journals, Points(other), Some(One(id))) ==>
      HasKey(PostPoints(journals, row, movement), Points(other), Some(One(id)))
    ensures row.points != 0 ==> HasKey(PostPoints(journals, row, movement), Points(movement), Some(One(row.id)))
  {
    if row.points == 0 {
      NoPointsNoJournal(journals, row, movement);
    } else {
      PostPointsBooksOnce(journals, row, movement);
      var js := journals + [JournalFor(row, movement)];
      assert js[|journals|] == JournalFor(row, movement);
      assert forall i :: 0 <= i < |journals| ==> js[i] == journals[i];
    }
  }

  /** After the replay every row with points has a journal under its inferred movement. */
  lemma {:induction false} InferredIsPosted(journals: seq<Journal>, rows: seq<Row>, k: nat)
    requires k < |rows| && rows[k].points != 0
    ensures HasKey(Replayed(journals, rows), Points(InferredMovement(rows[k])), Some(One(rows[k].id)))
  {
    hide HasKey, PostPoints;
    var n := |rows| - 1;
    var row := rows[n];
    PostKeepsKeys(Replayed(journals, rows[..n]), row, InferredMovement(row), rows[k].id, InferredMovement(rows[k]));
    if k < n {
      InferredIsPosted(journals, rows[..n], k);
    }
  }

  /** So replaying again changes nothing, whatever the rows are. */
  lemma {:induction false} NothingLeft(journals: seq<Journal>, rows: seq<Row>, n: nat)
    requires n <= |rows|
    requires forall k :: 0 <= k < |rows| && rows[k].points != 0 ==>
      HasKey(journals, Points(InferredMovement(rows[k])), Some(One(rows[k].id)))
    ensures Replayed(journals, rows[..n]) == journals
  {
    hide HasKey, PostPoints;
    if n > 0 {
      NothingLeft(journals, rows, n - 1);
      assert rows[..n][..n - 1] == rows[..n - 1];
      var row := rows[n - 1];
      if row.points == 0 {
        NoPointsNoJournal(journals, row, InferredMovement(row));
      } else {
        PostPointsBooksOnce(journals, row, InferredMovement(row));
      }
    }
  }

  /** From any journals at all: the backfill rewrites none of them, and run again it does nothing. */
  lemma {:induction false} BackfillIsIdempotent(journals: seq<Journal>, rows: seq<Row>)
    ensures journals <= Replayed(journals, rows)
    ensures Replayed(Replayed(journals, rows), rows) == Replayed(journals, rows)
  {
    ReplayedGrows(journals, rows);
    forall k | 0 <= k < |rows| && rows[k].points != 0
      ensures HasKey(Replayed(journals, rows), Points(InferredMovement(rows[k])), Some(One(rows[k].id)))
    {
      InferredIsPosted(journals, rows, k);
    }
    assert rows[..|rows|] == rows;
    NothingLeft(Replayed(journals, rows), rows, |rows|);
  }

  /**
   From any part of the live journals the backfill ends with exactly the live journals if and only if no
   confirmed row is a manual positive adjustment under the reserved reason.
   */
  lemma {:induction false} BackfillRestoresLiveJournals(journals: seq<Journal>, rows: seq<Row>)
    requires PartOfLive(journals, rows) && forall i :: 0 <= i < |rows| ==> Shaped(rows[i])
    ensures Live(Replayed(journals, rows), rows) <==> forall i :: 0 <= i < |rows| ==> !Ambiguous(rows[i])
  {
    if forall i :: 0 <= i < |rows| ==> !Ambiguous(rows[i]) {
      forall i | 0 <= i < |rows| && rows[i].points != 0 ensures InferredMovement(rows[i]) == LiveMovement(rows[i]) {
        InferredIsLiveIff(rows[i]);
      }
      assert rows[..|rows|] == rows;
      ReplayedIsPart(journals, rows, |rows|);
    }
    forall i | 0 <= i < |rows| && Ambiguous(rows[i]) ensures !Live(Replayed(journals, rows), rows) {
      AmbiguousIsNotLive(journals, rows, i);
    }
  }

  lemma {:induction false} AmbiguousIsNotLive(journals: seq<Journal>, rows: seq<Row>, k: nat)
    requires k < |rows| && Shaped(rows[k]) && Ambiguous(rows[k])
    ensures !Live(Replayed(journals, rows), rows)
  {
    InferredIsLiveIff(rows[k]);
    InferredIsPosted(journals, rows, k);
    if Live(Replayed(journals, rows), rows) {
      AmbiguousIsUnposted(Replayed(journals, rows), rows, k);
    }
  }

  // -------------------------------------------------- exactly when it is correct

  predicate RowInScope(row: Row, store: Option<Id>, owner: Option<Id>) {
    Counts(Scoped(store, owner), row)
  }

  /** An ambiguous row whose own journal is already there: the backfill books it a second time. */
  predicate BookedTwice(journals: seq<Journal>, row: Row) {
    Ambiguous(row) && JournalFor(row, LiveMovement(row)) in journals
  }

  /** Points the backfill books a second time, in one scope. */
  function DoubleBooked(journals: seq<Journal>, rows: seq<Row>, store: Option<Id>, owner: Option<Id>): nat {
    if rows == [] then 0
    else
      var row := rows[|rows| - 1];
      DoubleBooked(journals, rows[..|rows| - 1], store, owner)
      + if RowInScope(row, store, owner) && BookedTwice(journals, row) then row.points else 0
  }

  lemma {:induction false} ReplayedKeys(journals: seq<Journal>, rows: seq<Row>, id: Id, movement: Movement)
    requires forall i :: 0 <= i < |rows| ==> rows[i].id != id
    ensures HasKey(Replayed(journals, rows), Points(movement), Some(One(id))) <==>
      HasKey(journals, Points(movement), Some(One(id)))
  {
    if rows != [] {
      var before, row := rows[..|rows| - 1], rows[|rows| - 1];
      ReplayedKeys(journals, before, id, movement);
      if row.points != 0 {
        PostPointsBooksOnce(Replayed(journals, before), row, InferredMovement(row));
        var js, js' := Replayed(journals, before), Replayed(journals, rows);
        if js' != js {
          assert js'[..|js|] == js;
          if HasKey(js, Points(movement), Some(One(id))) {
            var i :| 0 <= i < |js| && js[i].event == Points(movement) && js[i].reference == Some(One(id));
            assert js'[i] == js[i];
          }
        }
      }
    }
  }

  /** A row that is not its inferred movement has no journal under it yet. */
  lemma {:induction false} AmbiguousIsUnposted(journals: seq<Journal>, rows: seq<Row>, k: nat)
    requires OnlyLive(journals, rows) && UniqueIds(rows) && k < |rows| && rows[k].points != 0
    requires InferredMovement(rows[k]) != LiveMovement(rows[k])
    ensures !HasKey(journals, Points(InferredMovement(rows[k])), Some(One(rows[k].id)))
  {
    forall i | 0 <= i < |journals| && journals[i].event.Points?
      ensures !(journals[i].event == Points(InferredMovement(rows[k]))
        && journals[i].reference == Some(One(rows[k].id)))
    {
      var m :| 0 <= m < |rows| && rows[m].points != 0 && journals[i] == JournalFor(rows[m], LiveMovement(rows[m]));
    }
  }

  /** What the backfill books for a row: nothing for one without points or already booked as inferred. */
  function RepairOf(journals: seq<Journal>, row: Row, w: Where): int {
    var posted := JournalFor(row, LiveMovement(row)) in journals;
    if row.points == 0 || (posted && !Ambiguous(row)) then 0 else RowEffect(row, InferredMovement(row), w)
  }

  function RepairEffect(journals: seq<Journal>, rows: seq<Row>, w: Where): int {
    if rows == [] then 0
    else RepairEffect(journals, rows[..|rows| - 1], w) + RepairOf(journals, rows[|rows| - 1], w)
  }

  /** What replaying one row adds to a points balance, when only rows with other ids were replayed before. */
  lemma {:induction false} OneReplay(journals: seq<Journal>, all: seq<Row>, k: nat, w: Where)
    requires PartOfLive(journals, all) && k < |all| && Shaped(all[k]) && w.currency == PTS
    ensures var js := Replayed(journals, all[..k]);
      Position(PostPoints(js, all[k], InferredMovement(all[k])), w) - Position(js, w) == RepairOf(journals, all[k], w)
  {
    var js, row := Replayed(journals, all[..k]), all[k];
    hide Replayed, Position, PostPoints, OnlyLive, OnePerKey, RowEffect;
    var inferred := InferredMovement(row);
    if row.points == 0 {
      NoPointsNoJournal(js, row, inferred);
    } else {
      PostPointsBooksOnce(js, row, inferred);
      ReplayedKeys(journals, all[..k], row.id, inferred);
      InferredIsLiveIff(row);
      KeyMeansJournal(journals, all, k);
      if inferred != LiveMovement(row) {
        AmbiguousIsUnposted(journals, all, k);
      }
      PositionAppend(js, JournalFor(row, inferred), w);
      JournalEffectOfRow(row, inferred, w);
    }
  }

  lemma {:induction false} NoPointsNoJournal(journals: seq<Journal>, row: Row, movement: Movement)
    requires row.points == 0
    ensures PostPoints(journals, row, movement) == journals
  {
  }

  lemma {:induction false} ReplayedPosition(journals: seq<Journal>, all: seq<Row>, n: nat, w: Where)
    requires PartOfLive(journals, all) && n <= |all| && forall i :: 0 <= i < |all| ==> Shaped(all[i])
    requires w.currency == PTS
    ensures Position(Replayed(journals, all[..n]), w) - Position(journals, w) == RepairEffect(journals, all[..n], w)
  {
    hide OnlyLive, OnePerKey, UniqueIds, Position, PostPoints, RepairOf;
    if n > 0 {
      ReplayedPosition(journals, all, n - 1, w);
      OneReplay(journals, all, n - 1, w);
      assert all[..n][..n - 1] == all[..n - 1];
    }
  }

  /** Any points balance after the backfill: what was booked before, and what the backfill books. */
  lemma {:induction false} RepairedPosition(journals: seq<Journal>, rows: seq<Row>, w: Where)
    requires PartOfLive(journals, rows) && forall i :: 0 <= i < |rows| ==> Shaped(rows[i])
    requires w.currency == PTS
    ensures Position(Replayed(journals, rows), w) == PostedEffect(journals, rows, w) + RepairEffect(journals, rows, w)
  {
    assert rows[..|rows|] == rows;
    ReplayedPosition(journals, rows, |rows|, w);
    PositionOfRows(journals, rows, w);
  }

  lemma {:induction false} LiabilityEffects(journals: seq<Journal>, rows: seq<Row>, store: Option<Id>,
      owner: Option<Id>)
    ensures var w := Where(PTS, PointsLiability, store, owner);
      PostedEffect(journals, rows, w) + RepairEffect(journals, rows, w)
      == 10000 * (Tally(rows, Scoped(store, owner)) + DoubleBooked(journals, rows, store, owner))
  {
    if rows != [] {
      LiabilityEffects(journals, rows[..|rows| - 1], store, owner);
    }
  }

  /**
   The exact outcome, with no condition on the rows: after the backfill a liability, of a customer, a store or
   the platform, is the sum of its rows plus the points booked twice. So it is right exactly when none of its
   ambiguous rows had its journal before.
   */
  lemma {:induction false} BackfillIsExactIff(journals: seq<Journal>, rows: seq<Row>, store: Option<Id>,
      owner: Option<Id>)
    requires PartOfLive(journals, rows) && forall i :: 0 <= i < |rows| ==> Shaped(rows[i])
    ensures var liability := Position(Replayed(journals, rows), Where(PTS, PointsLiability, store, owner));
      && liability == 10000 * (Tally(rows, Scoped(store, owner)) + DoubleBooked(journals, rows, store, owner))
      && (liability == 10000 * Tally(rows, Scoped(store, owner)) <==>
            forall i :: 0 <= i < |rows| && RowInScope(rows[i], store, owner) ==> !BookedTwice(journals, rows[i]))
  {
    RepairedPosition(journals, rows, Where(PTS, PointsLiability, store, owner));
    LiabilityEffects(journals, rows, store, owner);
    DoubleBookedIff(journals, rows, store, owner);
  }

  lemma {:induction false} DoubleBookedIff(journals: seq<Journal>, rows: seq<Row>, store: Option<Id>, owner: Option<Id>)
    ensures DoubleBooked(journals, rows, store, owner) == 0 <==>
      forall i :: 0 <= i < |rows| && RowInScope(rows[i], store, owner) ==> !BookedTwice(journals, rows[i])
  {
    if rows != [] {
      var before, row := rows[..|rows| - 1], rows[|rows| - 1];
      DoubleBookedIff(journals, before, store, owner);
      forall i | 0 <= i < |before| ensures before[i] == rows[i] {}
    }
  }

  // --------------------------------------------------------- the contra accounts

  /** Points of the ambiguous rows of a scope, all of them or those without their journal. */
  function AmbiguousPoints(journals: seq<Journal>, rows: seq<Row>, store: Option<Id>, missing: bool): nat {
    if rows == [] then 0
    else
      var row := rows[|rows| - 1];
      AmbiguousPoints(journals, rows[..|rows| - 1], store, missing)
      + if Ambiguous(row) && RowInScope(row, store, None) && !(missing && BookedTwice(journals, row)) then row.points
        else 0
  }

  lemma {:induction false} AmbiguousPointsIff(journals: seq<Journal>, rows: seq<Row>, store: Option<Id>)
    ensures AmbiguousPoints(journals, rows, store, false) == 0 <==>
      forall i :: 0 <= i < |rows| && RowInScope(rows[i], store, None) ==> !Ambiguous(rows[i])
    ensures AmbiguousPoints(journals, rows, store, true) == 0 <==>
      forall i :: 0 <= i < |rows| && RowInScope(rows[i], store, None) && Ambiguous(rows[i]) ==>
        BookedTwice(journals, rows[i])
  {
    if rows != [] {
      var before, row := rows[..|rows| - 1], rows[|rows| - 1];
      AmbiguousPointsIff(journals, before, store);
      forall i | 0 <= i < |before| ensures before[i] == rows[i] {}
    }
  }

  /** How far a contra account is off after the backfill, over its live balance. */
  function ContraError(journals: seq<Journal>, rows: seq<Row>, account: Account, store: Option<Id>): int {
    if account == PointsSettled then -10000 * AmbiguousPoints(journals, rows, store, false)
    else if account == PointsExpense then 10000 * AmbiguousPoints(journals, rows, store, true)
    else 0
  }

  function ContraErrorOf(journals: seq<Journal>, row: Row, account: Account, store: Option<Id>): int {
    if !Ambiguous(row) || !RowInScope(row, store, None) then 0
    else if account == PointsSettled then -10000 * row.points
    else if account == PointsExpense && !BookedTwice(journals, row) then 10000 * row.points
    else 0
  }

  lemma {:induction false} ContraErrorStep(journals: seq<Journal>, rows: seq<Row>, account: Account, store: Option<Id>)
    requires rows != []
    ensures ContraError(journals, rows, account, store)
      == ContraError(journals, rows[..|rows| - 1], account, store)
        + ContraErrorOf(journals, rows[|rows| - 1], account, store)
  {
    hide Ambiguous, RowInScope, BookedTwice;
  }

  lemma {:induction false} ContraOfRow(journals: seq<Journal>, row: Row, account: Account, store: Option<Id>)
    requires account != PointsLiability && Shaped(row)
    ensures var w := Where(PTS, account, store, None);
      (if row.points != 0
        && JournalFor(row, LiveMovement(row)) in journals then RowEffect(row, LiveMovement(row), w) else 0)
      + RepairOf(journals, row, w)
      == -10000 * (if Counts(Via(account, store), row) then row.points else 0)
        + ContraErrorOf(journals, row, account, store)
  {
    hide JournalFor;
    if row.points != 0 {
      InferredIsLiveIff(row);
      if Ambiguous(row) {
        assert Contra(InferredMovement(row), row.points) == PointsSettled;
        assert Contra(LiveMovement(row), row.points) == PointsExpense;
      } else {
        assert InferredMovement(row) == LiveMovement(row);
      }
    }
  }

  lemma {:induction false} ContraEffects(journals: seq<Journal>, rows: seq<Row>, account: Account, store: Option<Id>)
    requires account != PointsLiability && forall i :: 0 <= i < |rows| ==> Shaped(rows[i])
    ensures var w := Where(PTS, account, store, None);
      PostedEffect(journals, rows, w) + RepairEffect(journals, rows, w)
      == -10000 * Tally(rows, Via(account, store)) + ContraError(journals, rows, account, store)
  {
    hide RepairOf, RowEffect, Counts;
    if rows != [] {
      var row := rows[|rows| - 1];
      ContraEffects(journals, rows[..|rows| - 1], account, store);
      ContraOfRow(journals, row, account, store);
      ContraErrorStep(journals, rows, account, store);
      hide ContraError, ContraErrorOf;
    }
  }

  /**
   The contra accounts, exactly: breakage is always right; points_settled is short by all ambiguous points of the
   scope, so right exactly when there are none; points_expense lacks those that had no journal, so right exactly
   when every ambiguous row had its own.
   */
  lemma {:induction false} BackfillContraIff(journals: seq<Journal>, rows: seq<Row>, store: Option<Id>)
    requires PartOfLive(journals, rows) && forall i :: 0 <= i < |rows| ==> Shaped(rows[i])
    ensures forall account :: account != PointsLiability ==>
      Position(Replayed(journals, rows), Where(PTS, account, store, None))
      == -10000 * Tally(rows, Via(account, store)) + ContraError(journals, rows, account, store)
    ensures ContraError(journals, rows, PointsSettled, store) == 0 <==>
      forall i :: 0 <= i < |rows| && RowInScope(rows[i], store, None) ==> !Ambiguous(rows[i])
    ensures ContraError(journals, rows, PointsExpense, store) == 0 <==>
      forall i :: 0 <= i < |rows| && RowInScope(rows[i], store, None) && Ambiguous(rows[i]) ==>
        BookedTwice(journals, rows[i])
  {
    forall account | account != PointsLiability
      ensures Position(Replayed(journals, rows), Where(PTS, account, store, None))
        == -10000 * Tally(rows, Via(account, store)) + ContraError(journals, rows, account, store)
    {
      RepairedPosition(journals, rows, Where(PTS, account, store, None));
      ContraEffects(journals, rows, account, store);
    }
    AmbiguousPointsIff(journals, rows, store);
  }

  // ------------------------------------------------------------------ two inputs

  /** A goodwill adjustment of 40 points under the reserved reason. */
  function Goodwill(): Row {
    Row(1, 1, 1, AdjustRow, 40, None, Some(REDEMPTION_CANCELLED_REASON), 0, true, Plain)
  }

  lemma {:induction false} GoodwillRow()
    ensures Shaped(Goodwill()) && Ambiguous(Goodwill()) && LiveMovement(Goodwill()) == Adjust
    ensures Tally([Goodwill()], Scoped(None, Some(1))) == 40 && Tally([Goodwill()], Via(PointsSettled, None)) == 0
    ensures AmbiguousPoints([], [Goodwill()], None, false) == 40
  {
    assert [Goodwill()][..0] == [];
  }

  /** Its own journal makes the live books, in which points_settled is not touched. */
  lemma {:induction false} GoodwillBooks()
    ensures var js := [JournalFor(Goodwill(), Adjust)];
      && Live(js, [Goodwill()]) && PartOfLive(js, [Goodwill()]) && PartOfLive([], [Goodwill()])
      && Position(js, Where(PTS, PointsLiability, None, Some(1))) == 400000
      && Position(js, Where(PTS, PointsSettled, None, None)) == 0
  {
    GoodwillRow();
    var row := Goodwill();
    assert row.points == 40 && row.customer == 1 && Contra(Adjust, 40) == PointsExpense;
    JournalEffectOfRow(row, Adjust, Where(PTS, PointsLiability, None, Some(1)));
    JournalEffectOfRow(row, Adjust, Where(PTS, PointsSettled, None, None));
    PositionAppend([], JournalFor(row, Adjust), Where(PTS, PointsLiability, None, Some(1)));
    PositionAppend([], JournalFor(row, Adjust), Where(PTS, PointsSettled, None, None));
    hide JournalFor, JournalEffect, Goodwill, Tally, AmbiguousPoints;
    assert [] + [JournalFor(row, Adjust)] == [JournalFor(row, Adjust)];
    assert [JournalFor(row, Adjust)][0] == JournalFor([row][0], LiveMovement([row][0]));
  }

  /** With its journal there, the repair doubles the liability. */
  lemma {:induction false} BackfillCanDoubleBook()
    ensures var js := [JournalFor(Goodwill(), Adjust)];
      && Live(js, [Goodwill()])
      && Position(js, Where(PTS, PointsLiability, None, Some(1))) == 400000
      && Position(Replayed(js, [Goodwill()]), Where(PTS, PointsLiability, None, Some(1))) == 800000
  {
    GoodwillRow();
    GoodwillBooks();
    var row := Goodwill();
    var js := [JournalFor(row, Adjust)];
    assert JournalFor(row, Adjust) in js;
    assert [row][..0] == [];
    assert DoubleBooked(js, [row], None, Some(1)) == 40;
    hide JournalFor, Replayed, Tally, Position, Live, PartOfLive, Goodwill, AmbiguousPoints, DoubleBooked;
    BackfillIsExactIff(js, [row], None, Some(1));
  }

  /** Without it, the repair books the points to points_settled, where the live books have none. */
  lemma {:induction false} BackfillCanMisbook()
    ensures Position(Replayed([], [Goodwill()]), Where(PTS, PointsSettled, None, None)) == -400000
    ensures var js := [JournalFor(Goodwill(), Adjust)];
      Live(js, [Goodwill()]) && Position(js, Where(PTS, PointsSettled, None, None)) == 0
  {
    GoodwillRow();
    GoodwillBooks();
    hide JournalFor, Replayed, Tally, Position, Live, PartOfLive, Goodwill, AmbiguousPoints;
    BackfillContraIff([], [Goodwill()], None);
  }

  // ------------------------------------------------------------- drift afterwards

  /** What the drift report finds: every column in scope agrees, and so does the total. */
  ghost predicate Clean(customers: map<Id, Customer>, journals: seq<Journal>, store: Option<Id>, list: seq<Id>)
    requires forall i :: 0 <= i < |list| ==> list[i] in customers
  {
    ColumnsAgree(customers, journals, store) && 10000 * ColumnTotal(customers, list) == Liability(journals, store, None)
  }

  /**
   Drift after the repair. When the columns are the sums of the rows and the journals were any part of the
   live ones, the report is clean exactly when no ambiguous row of the scope had its journal before.
   */
  lemma {:induction false} BackfillRemovesDrift(customers: map<Id, Customer>, rows: seq<Row>, journals: seq<Journal>,
      store: Option<Id>, grouped: seq<Grouping.Group<DriftKey>>, list: seq<Id>)
    requires RowsBelong(customers, rows) && BalancesMatch(customers, rows) && Lists(list, customers, store, grouped)
    requires PartOfLive(journals, rows) && forall i :: 0 <= i < |rows| ==> Shaped(rows[i])
    ensures Clean(customers, Replayed(journals, rows), store, list) <==>
      forall i :: 0 <= i < |rows| && RowInScope(rows[i], store, None) ==> !BookedTwice(journals, rows[i])
  {
    hide Replayed, Position, PartOfLive;
    ListedBalancesAddUp(customers, rows, store, grouped, list);
    ScopedTallies(customers, rows, store, 0);
    BackfillIsExactIff(journals, rows, store, None);
    if forall i :: 0 <= i < |rows| && RowInScope(rows[i], store, None) ==> !BookedTwice(journals, rows[i]) {
      forall c | c in customers && OfStore(customers[c], store)
        ensures 10000 * customers[c].balance == Liability(Replayed(journals, rows), store, Some(c))
      {
        ScopedTallies(customers, rows, store, c);
        BackfillIsExactIff(journals, rows, store, Some(c));
      }
    }
  }

  /**
   The whole repair: replay, then report. `group` and `select` are the two queries of the report; they are
   asked after the replay.
   */
  method BackfillAndReport(ledger: LedgerStore, table: seq<Row>, customers: map<Id, Customer>,
                           group: seq<Journal> -> seq<Grouping.Group<DriftKey>>,
                             select: seq<Grouping.Group<DriftKey>> -> seq<Id>)
    returns (scanned: nat, posted: nat, skipped: nat, ok: bool, drifted: seq<Id>)
    requires ById(table)
    requires forall js :: Grouping.IsGroupBy(group(js), LiabilityItems(js, None))
    requires forall groups :: Lists(select(groups), customers, None, groups)
    requires RowsBelong(customers, Confirmed(table)) && BalancesMatch(customers, Confirmed(table))
    requires PartOfLive(ledger.journals, Confirmed(table))
    requires forall i :: 0 <= i < |Confirmed(table)| ==> Shaped(Confirmed(table)[i])
    modifies ledger
    ensures ledger.journals == Replayed(old(ledger.journals), Confirmed(table))
    ensures scanned == |Confirmed(table)| && skipped + posted == scanned
    ensures ok <==> forall i :: 0 <= i < |Confirmed(table)| ==> !BookedTwice(old(ledger.journals), Confirmed(table)[i])
    ensures ok ==> drifted == []
  {
    hide Replayed, Position, PartOfLive, BookedTwice;
    ghost var before := ledger.journals;
    scanned, posted, skipped := BackfillPoints(ledger, table);
    var grouped := group(ledger.journals);
    var list := select(grouped);
    BackfillRemovesDrift(customers, Confirmed(table), before, None, grouped, list);
    var columnTotal, ledgerTotal;
    ok, drifted, columnTotal, ledgerTotal := PointsDrift(customers, ledger.journals, None, grouped, list);
    assert ok <==> Clean(customers, ledger.journals, None, list);
    assert |drifted| > 0 ==> drifted[0] in drifted;
  }

  // -------------------------------------------------- repairing reachable books

  /** Some of the journals: any that concern points were there before, none twice. */
  ghost predicate SomeOf(journals: seq<Journal>, all: seq<Journal>) {
    && OnePerKey(journals)
    && (forall i :: 0 <= i < |journals| && (journals[i].event.Points? || journals[i].currency == PTS) ==>
         journals[i] in all)
  }

  lemma {:induction false} ReorderedRows(rows: seq<Row>, sorted: seq<Row>, customers: map<Id, Customer>,
      journals: seq<Journal>, some: seq<Journal>)
    requires multiset(sorted) == multiset(rows) && ById(sorted)
    requires RowsBelong(customers, rows) && BalancesMatch(customers, rows) && OnlyLive(journals, rows)
      && SomeOf(some, journals)
    requires forall i :: 0 <= i < |rows| ==> Shaped(rows[i])
    ensures RowsBelong(customers, sorted) && BalancesMatch(customers, sorted) && PartOfLive(some, sorted)
    ensures forall i :: 0 <= i < |sorted| ==> Shaped(sorted[i])
  {
    forall row: Row ensures row in rows <==> row in sorted {
      assert row in multiset(rows) <==> row in multiset(sorted);
    }
    forall i | 0 <= i < |sorted|
      ensures Shaped(sorted[i]) && sorted[i].customer in customers
        && sorted[i].store == customers[sorted[i].customer].store
    {
      assert sorted[i] in rows;
    }
    forall c | c in customers ensures customers[c].balance == Tally(sorted, OfCustomer(c)) {
      TallyOfSameRows(rows, sorted, OfCustomer(c));
    }
    forall i | 0 <= i < |some| && (some[i].event.Points? || some[i].currency == PTS)
      ensures exists k ::
        0 <= k < |sorted| && sorted[k].points != 0 && some[i] == JournalFor(sorted[k], LiveMovement(sorted[k]))
    {
      assert some[i] in journals;
      var j :| 0 <= j < |journals| && journals[j] == some[i];
      var m :| 0 <= m < |rows| && rows[m].points != 0 && journals[j] == JournalFor(rows[m], LiveMovement(rows[m]));
      assert rows[m] in sorted;
      var k :| 0 <= k < |sorted| && sorted[k] == rows[m];
    }
  }

  /**
   After any run of the points engine, whatever points journals were lost and in whatever order the ids
   sort, the backfill restores exactly the live journals and a clean report, provided no manual positive
   adjustment used the reserved reason.
   */
  lemma {:induction false} BackfillRepairsReachableBooks(steps: seq<Step>, table: seq<Row>, journals: seq<Journal>,
      store: Option<Id>, grouped: seq<Grouping.Group<DriftKey>>, list: seq<Id>)
    requires ById(table) && multiset(Confirmed(table)) == multiset(Run(steps).rows)
    requires SomeOf(journals, Run(steps).journals)
    requires Lists(list, Run(steps).customers, store, grouped)
    requires forall i :: 0 <= i < |steps| ==> !ReservedAdjust(steps[i])
    ensures var js := Replayed(journals, Confirmed(table));
      Live(js, Confirmed(table)) && Clean(Run(steps).customers, js, store, list)
  {
    var s, rows := Run(steps), Confirmed(table);
    RunKeepsBooks(steps);
    NoReservedNoAmbiguous(steps);
    hide Run, Replayed, Position;
    ConfirmedById(table);
    ReorderedRows(s.rows, rows, s.customers, s.journals, journals);
    forall i | 0 <= i < |rows| ensures !Ambiguous(rows[i]) {
      assert rows[i] in multiset(s.rows);
      var k :| 0 <= k < |s.rows| && s.rows[k] == rows[i];
    }
    BackfillRestoresLiveJournals(journals, rows);
    BackfillRemovesDrift(s.customers, rows, journals, store, grouped, list);
  }
}
