/**
 Expiry warnings (loyalty.service.ts, notifyExpiringForStore): one notice per customer and day of
 expiry, claimed through a unique key before anything is sent.
 */
module Notices {
  import opened Wrappers
  import opened Fifo
  import opened Ledger

  /** A customer to consider: the confirmed log and the balance column. */
  datatype Holder = Holder(customer: Id, log: seq<Txn>, balance: int)

  predicate NotYetDue(t: Txn, cutoff: int, warnCutoff: int) {
    t.points > 0 && cutoff <= t.at < warnCutoff
  }

  /** Time of the oldest earn that is not yet due but will be within the window. */
  function OldestNotYetDue(log: seq<Txn>, cutoff: int, warnCutoff: int): Option<int> {
    if log == [] then None
    else
      var rest, t := OldestNotYetDue(log[..|log| - 1], cutoff, warnCutoff), log[|log| - 1];
      if !NotYetDue(t, cutoff, warnCutoff) then rest
      else if rest.None? then Some(t.at) else Some(Min(rest.value, t.at))
  }

  lemma {:induction false} OldestIsOldest(log: seq<Txn>, cutoff: int, warnCutoff: int)
    ensures OldestNotYetDue(log, cutoff, warnCutoff).None? <==> forall i :: 0 <= i < |log| ==>
      !NotYetDue(log[i], cutoff, warnCutoff)
    ensures var oldest := OldestNotYetDue(log, cutoff, warnCutoff);
      oldest.Some? ==>
        && cutoff <= oldest.value < warnCutoff
        && (exists i :: 0 <= i < |log| && NotYetDue(log[i], cutoff, warnCutoff) && log[i].at == oldest.value)
        && (forall i :: 0 <= i < |log| && NotYetDue(log[i], cutoff, warnCutoff) ==> oldest.value <= log[i].at)
  {
    if log != [] {
      var before := log[..|log| - 1];
      OldestIsOldest(before, cutoff, warnCutoff);
      forall i | 0 <= i < |before| ensures before[i] == log[i] {}
      var oldest := OldestNotYetDue(log, cutoff, warnCutoff);
      if i :| 0 <= i < |before| && NotYetDue(before[i], cutoff, warnCutoff) && Some(before[i].at) == oldest {
        assert log[i].at == before[i].at;
      }
    }
  }

  /** A positive warning always has a date. */
  lemma {:induction false} WarningHasDate(log: seq<Txn>, balance: int, cutoff: int, warnCutoff: int)
    requires cutoff <= warnCutoff && Warned(log, balance, cutoff, warnCutoff) > 0
    ensures OldestNotYetDue(log, cutoff, warnCutoff).Some?
  {
    WarningIsHonest(log, balance, cutoff, warnCutoff, 0);
    OldestIsOldest(log, cutoff, warnCutoff);
    var i :| 0 <= i < |log| && log[i].points > 0 && cutoff <= log[i].at < warnCutoff;
    assert NotYetDue(log[i], cutoff, warnCutoff);
  }

  // ------------------------------------------------------- the day that is announced

  /** When the oldest surviving lot of a window was earned. */
  function FirstLot(lots: seq<Lot>, from: int, to: int): Option<int> {
    if lots == [] then None
    else if from <= lots[0].at < to then Some(lots[0].at)
    else FirstLot(lots[1..], from, to)
  }

  lemma {:induction false} FirstLotIn(lots: seq<Lot>, from: int, to: int)
    requires OldestFirst(lots) && from <= to
    ensures FirstLot(lots, from, to).Some? ==> from <= FirstLot(lots, from, to).value < to
    ensures FirstLot(lots, from, to).None? <==> LeftBefore(lots, from) == LeftBefore(lots, to)
    ensures LeftBefore(lots, from) <= LeftBefore(lots, to)
  {
    if lots != [] {
      TailIsOrdered(lots);
      FirstLotIn(lots[1..], from, to);
    }
  }

  lemma {:induction false} FirstLotSplits(lots: seq<Lot>, from: int, mid: int, to: int)
    requires OldestFirst(lots) && from <= mid <= to
    ensures FirstLot(lots, from, to) == if FirstLot(lots, from, mid).Some? then FirstLot(lots, from, mid)
      else FirstLot(lots, mid, to)
  {
    if lots != [] {
      TailIsOrdered(lots);
      FirstLotSplits(lots[1..], from, mid, to);
      if mid <= lots[0].at {
        NoEarlierLot(lots[1..], from, mid);
      }
    }
  }

  lemma {:induction false} NoEarlierLot(lots: seq<Lot>, from: int, to: int)
    requires OldestFirst(lots) && (lots != [] ==> to <= lots[0].at)
    ensures FirstLot(lots, from, to) == None
  {
    if lots != [] {
      TailIsOrdered(lots);
      NoEarlierLot(lots[1..], from, to);
    }
  }

  lemma {:induction false} EarnCounts(log: seq<Txn>, i: nat)
    requires i < |log| && log[i].points > 0
    ensures EarnedBefore(log, log[i].at) < EarnedBefore(log, log[i].at + 1)
  {
    var n := |log| - 1;
    EarnedIsMonotone(log[..n], log[i].at, log[i].at + 1);
    if i < n {
      EarnCounts(log[..n], i);
    }
  }

  /**
   The source calls the announced day the day the points die. The date it is counted from is that of the oldest
   earn in the window; it is the date of the oldest lot still alive there exactly when consumption so far has
   not used up everything earned until then. Otherwise the announced day is too early.
   */
  lemma {:induction false} AnnouncedDayIsRightIff(log: seq<Txn>, cutoff: int, warnCutoff: int)
    requires TimeOrdered(log) && NeverOverdrawn(log) && cutoff <= warnCutoff
    requires OldestNotYetDue(log, cutoff, warnCutoff).Some?
    ensures var date := OldestNotYetDue(log, cutoff, warnCutoff).value;
      var oldest := FirstLot(Replay(log), cutoff, warnCutoff);
      && (oldest == Some(date) <==> Consumed(log) < EarnedBefore(log, date + 1))
      && (oldest.Some? ==> date <= oldest.value)
      && (oldest.Some? <==> Warned(log, Sum(log), cutoff, warnCutoff) > 0)
  {
    var d := OldestNotYetDue(log, cutoff, warnCutoff).value;
    var lots := Replay(log);
    OldestIsOldest(log, cutoff, warnCutoff);
    var i :| 0 <= i < |log| && NotYetDue(log[i], cutoff, warnCutoff) && log[i].at == d;
    EarnCounts(log, i);
    forall k | 0 <= k < |log| && log[k].points > 0 ensures !(cutoff <= log[k].at < d) {
      assert log[k].at < d ==> !NotYetDue(log[k], cutoff, warnCutoff);
    }
    NothingBetween(log, cutoff, d);
    ReplayMirrors(log, cutoff);
    ReplayMirrors(log, d);
    ReplayMirrors(log, d + 1);
    ReplayMirrors(log, warnCutoff);
    AtRiskIsFifo(log, cutoff);
    AtRiskIsFifo(log, warnCutoff);
    hide Replay, EarnedBefore, Consumed, AtRiskBefore, LeftBefore, Left, OldestNotYetDue, TimeOrdered, NeverOverdrawn;
    FirstLotIn(lots, cutoff, d);
    FirstLotIn(lots, d, d + 1);
    FirstLotIn(lots, d + 1, warnCutoff);
    FirstLotIn(lots, cutoff, warnCutoff);
    FirstLotSplits(lots, cutoff, d, warnCutoff);
    FirstLotSplits(lots, d, d + 1, warnCutoff);
  }

  /** It can be too early: a first earn that was spent again still dates the notice of a later one. */
  lemma {:induction false} AnnouncedDayCanBeEarly()
    ensures var log := [Txn(100, 10), Txn(-100, 11), Txn(50, 12)];
      && Warned(log, 50, 5, 20) == 50
      && OldestNotYetDue(log, 5, 20) == Some(10)
      && Replay(log) == [Lot(12, 50)] && FirstLot(Replay(log), 5, 20) == Some(12)
  {
    var log := [Txn(100, 10), Txn(-100, 11), Txn(50, 12)];
    assert log[..2] == [Txn(100, 10), Txn(-100, 11)];
    assert log[..2][..1] == [Txn(100, 10)];
    assert log[..2][..1][..0] == [];
    assert OldestNotYetDue(log[..2][..1], 5, 20) == Some(10) && OldestNotYetDue(log[..2], 5, 20) == Some(10);
    assert Consumed(log[..2][..1]) == 0 && EarnedBefore(log[..2][..1], 5) == 0
      && EarnedBefore(log[..2][..1], 20) == 100;
    assert Consumed(log[..2]) == 100 && EarnedBefore(log[..2], 5) == 0 && EarnedBefore(log[..2], 20) == 100;
    assert Replay(log[..2][..1]) == [Lot(10, 100)];
    assert Replay(log[..2]) == Consume([Lot(10, 100)], 100) == [];
  }

  // ------------------------------------------------------------------ the notices

  /**
   The notices after looking at the first n customers: nothing lost or changed, a notice for everybody who is
   due one, and no other new ones.
   */
  ghost predicate Noticed(before: map<(Id, int), int>, after: map<(Id, int), int>, holders: seq<Holder>, n: nat,
                          cutoff: int, warnCutoff: int, dayOf: int -> int)
    requires n <= |holders|
  {
    && (forall key :: key in before ==> key in after && after[key] == before[key])
    && (forall i :: 0 <= i < n && Warned(holders[i].log, holders[i].balance, cutoff, warnCutoff) > 0 ==>
          var oldest := OldestNotYetDue(holders[i].log, cutoff, warnCutoff);
          oldest.Some? && (holders[i].customer, dayOf(oldest.value)) in after)
    && (forall key :: key in after && key !in before ==>
          exists i :: 0 <= i < n && Announces(holders[i], key, after[key], cutoff, warnCutoff, dayOf))
  }

  /** A notice to this customer, of the points that expire in the window, for the day of its oldest earn. */
  predicate Announces(h: Holder, key: (Id, int), points: int, cutoff: int, warnCutoff: int, dayOf: int -> int) {
    var oldest := OldestNotYetDue(h.log, cutoff, warnCutoff);
    && points == AtRiskBefore(h.log, h.balance, warnCutoff) - AtRiskBefore(h.log, h.balance, cutoff) > 0
    && oldest.Some? && key == (h.customer, dayOf(oldest.value))
  }

  lemma {:induction false} NoticedOneMore(before: map<(Id, int), int>, after: map<(Id, int), int>,
      holders: seq<Holder>, n: nat,
                                          cutoff: int, warnCutoff: int, dayOf: int -> int, key: (Id, int))
    requires n < |holders| && Noticed(before, after, holders, n, cutoff, warnCutoff, dayOf)
    requires Warned(holders[n].log, holders[n].balance, cutoff, warnCutoff) > 0
    requires var oldest := OldestNotYetDue(holders[n].log, cutoff, warnCutoff);
      oldest.Some? && key == (holders[n].customer, dayOf(oldest.value))
    ensures key in after ==> Noticed(before, after, holders, n + 1, cutoff, warnCutoff, dayOf)
    ensures key !in after ==>
      Noticed(before, after[key := Warned(holders[n].log, holders[n].balance, cutoff, warnCutoff)], holders, n
        + 1, cutoff, warnCutoff, dayOf)
  {
    WarnedIs(holders[n], cutoff, warnCutoff);
    hide Warned, OldestNotYetDue, AtRiskBefore;
    var points := Warned(holders[n].log, holders[n].balance, cutoff, warnCutoff);
    assert Announces(holders[n], key, points, cutoff, warnCutoff, dayOf);
  }

  lemma {:induction false} NoticedAtFirst(notices: map<(Id, int), int>, holders: seq<Holder>, cutoff: int,
      warnCutoff: int, dayOf: int -> int)
    ensures Noticed(notices, notices, holders, 0, cutoff, warnCutoff, dayOf)
  {
    hide Warned, OldestNotYetDue, AtRiskBefore;
  }

  lemma {:induction false} NoticedNobody(before: map<(Id, int), int>, after: map<(Id, int), int>,
      holders: seq<Holder>, n: nat,
                                         cutoff: int, warnCutoff: int, dayOf: int -> int)
    requires n < |holders| && Noticed(before, after, holders, n, cutoff, warnCutoff, dayOf)
    requires Warned(holders[n].log, holders[n].balance, cutoff, warnCutoff) <= 0
    ensures Noticed(before, after, holders, n + 1, cutoff, warnCutoff, dayOf)
  {
    hide Warned, OldestNotYetDue;
  }

  /** The points announced by some notices. */
  ghost function SumOf(notices: map<(Id, int), int>, keys: set<(Id, int)>): int
    requires keys <= notices.Keys
    decreases |keys|
  {
    if keys == {} then 0 else
    var k :| k in keys;
    notices[k] + SumOf(notices, keys - {k})
  }

  ghost function Announced(notices: map<(Id, int), int>): int {
    SumOf(notices, notices.Keys)
  }

  lemma {:induction false} SumPick(notices: map<(Id, int), int>, keys: set<(Id, int)>, k: (Id, int))
    requires keys <= notices.Keys && k in keys
    ensures SumOf(notices, keys) == notices[k] + SumOf(notices, keys - {k})
    decreases |keys|
  {
    var j :| j in keys && SumOf(notices, keys) == notices[j] + SumOf(notices, keys - {j});
    if j != k {
      SumPick(notices, keys - {j}, k);
      SumPick(notices, keys - {k}, j);
      assert keys - {j} - {k} == keys - {k} - {j};
    }
  }

  lemma {:induction false} SumSame(a: map<(Id, int), int>, b: map<(Id, int), int>, keys: set<(Id, int)>)
    requires keys <= a.Keys && keys <= b.Keys && forall k :: k in keys ==> a[k] == b[k]
    ensures SumOf(a, keys) == SumOf(b, keys)
    decreases |keys|
  {
    if keys != {} {
      var k :| k in keys;
      SumPick(a, keys, k);
      SumPick(b, keys, k);
      SumSame(a, b, keys - {k});
    }
  }

  lemma {:induction false} OneMoreNotice(notices: map<(Id, int), int>, key: (Id, int), points: int)
    requires key !in notices
    ensures Announced(notices[key := points]) == Announced(notices) + points
  {
    var more := notices[key := points];
    SumPick(more, more.Keys, key);
    assert more.Keys - {key} == notices.Keys;
    SumSame(more, notices, notices.Keys);
  }

  lemma {:induction false} WarnedIs(h: Holder, cutoff: int, warnCutoff: int)
    ensures Warned(h.log, h.balance, cutoff, warnCutoff)
      == AtRiskBefore(h.log, h.balance, warnCutoff) - AtRiskBefore(h.log, h.balance, cutoff)
  {
  }

  lemma {:induction false} PositiveIsDue(h: Holder, cutoff: int, warnCutoff: int)
    requires cutoff <= warnCutoff && Warned(h.log, h.balance, cutoff, warnCutoff) > 0
    ensures OldestNotYetDue(h.log, cutoff, warnCutoff).Some?
  {
    WarningHasDate(h.log, h.balance, cutoff, warnCutoff);
  }

  class NoticeBook {
    /** The points announced under each (customer, day of expiry). */
    var notices: map<(Id, int), int>

    constructor ()
      ensures notices == map[]
    {
      notices := map[];
    }

    /**
     Warns exactly the customers with a positive warning that were not warned for that day, each about
     exactly what the later sweep takes; `dayOf` is the calendar day on which points of that age expire.
     */
    method NotifyExpiring(holders: seq<Holder>, cutoff: int, warnCutoff: int,
        dayOf: int -> int) returns (notified: nat, points: int)
      requires cutoff <= warnCutoff
      modifies this
      ensures Noticed(old(notices), notices, holders, |holders|, cutoff, warnCutoff, dayOf)
      ensures notified == |notices| - |old(notices)| && points == Announced(notices) - Announced(old(notices))
      ensures notified <= points
      ensures notified == 0 ==> notices == old(notices) && points == 0
    {
      notified, points := 0, 0;
      hide AtRiskBefore, OldestNotYetDue, Noticed, Announced, Warned;
      NoticedAtFirst(notices, holders, cutoff, warnCutoff, dayOf);
      for n := 0 to |holders|
        invariant Noticed(old(notices), notices, holders, n, cutoff, warnCutoff, dayOf)
        invariant notified == |notices| - |old(notices)| && notified <= points
        invariant points == Announced(notices) - Announced(old(notices))
        invariant notified == 0 ==> notices == old(notices) && points == 0
      {
        var h := holders[n];
        WarnedIs(h, cutoff, warnCutoff);
        var alreadyDue := AtRiskBefore(h.log, h.balance, cutoff);
        var atRisk := AtRiskBefore(h.log, h.balance, warnCutoff) - alreadyDue;
        if atRisk <= 0 {
          NoticedNobody(old(notices), notices, holders, n, cutoff, warnCutoff, dayOf);
          continue;
        }
        // The source also skips a customer without such an earn; there is always one.
        PositiveIsDue(h, cutoff, warnCutoff);
        var oldest := OldestNotYetDue(h.log, cutoff, warnCutoff);
        var key := (h.customer, dayOf(oldest.value));
        NoticedOneMore(old(notices), notices, holders, n, cutoff, warnCutoff, dayOf, key);
        if key in notices {
          continue;
        }
        OneMoreNotice(notices, key, atRisk);
        notices := notices[key := atRisk];
        notified := notified + 1;
        points := points + atRisk;
      }
    }
  }

  /** The next run over the same logs and cutoffs warns nobody. */
  method WarnedOnce(book: NoticeBook, holders: seq<Holder>, cutoff: int, warnCutoff: int,
      dayOf: int -> int) returns (notified: nat, points: int)
    requires cutoff <= warnCutoff
    modifies book
    ensures notified == 0 && points == 0
  {
    var _, _ := book.NotifyExpiring(holders, cutoff, warnCutoff, dayOf);
    ghost var after := book.notices;
    notified, points := book.NotifyExpiring(holders, cutoff, warnCutoff, dayOf);
    assert forall key :: key in book.notices ==> key in after;
    assert book.notices.Keys == after.Keys;
  }
}
