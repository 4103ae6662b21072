/**
 Points expiry without a lots table (apps/api/src/loyalty/loyalty.service.ts, atRiskBefore).

 The service keeps no lots: it derives the points still alive from before a cutoff from two sums over
 the transaction log. Here the same log is also replayed through an explicit first-in first-out queue
 of lots, and the two agree.
 */
module Fifo {

  /** A confirmed movement: signed points and the time of writing. */
  datatype Txn = Txn(points: int, at: int)

  function Max(a: int, b: int): int {
    if a < b then b else a
  }

  function Min(a: int, b: int): int {
    if a < b then a else b
  }

  function Sum(log: seq<Txn>): int {
    if log == [] then 0 else Sum(log[..|log| - 1]) + log[|log| - 1].points
  }

  // ---------------------------------------------------------- what the code does

  function EarnedBefore(log: seq<Txn>, cutoff: int): nat {
    if log == [] then 0
    else
      var t := log[|log| - 1];
      EarnedBefore(log[..|log| - 1], cutoff) + if t.points > 0 && t.at < cutoff then t.points else 0
  }

  function Consumed(log: seq<Txn>): nat {
    if log == [] then 0
    else
      var t := log[|log| - 1];
      Consumed(log[..|log| - 1]) + if t.points < 0 then -t.points else 0
  }

  function AtRiskBefore(log: seq<Txn>, balance: int, cutoff: int): int {
    Max(0, Min(Max(0, EarnedBefore(log, cutoff) - Consumed(log)), balance))
  }

  // ------------------------------------------------------------- the lot queue

  datatype Lot = Lot(at: int, left: nat)

  /** Takes `n` points off the oldest lots first. */
  function Consume(lots: seq<Lot>, n: nat): seq<Lot> {
    if n == 0 || lots == [] then lots
    else if lots[0].left <= n then Consume(lots[1..], n - lots[0].left)
    else [lots[0].(left := lots[0].left - n)] + lots[1..]
  }

  function Replay(log: seq<Txn>): seq<Lot> {
    if log == [] then []
    else
      var lots, t := Replay(log[..|log| - 1]), log[|log| - 1];
      if t.points > 0 then lots + [Lot(t.at, t.points)] else Consume(lots, -t.points)
  }

  function LeftBefore(lots: seq<Lot>, cutoff: int): nat {
    if lots == [] then 0
    else (if lots[0].at < cutoff then lots[0].left else 0) + LeftBefore(lots[1..], cutoff)
  }

  function Left(lots: seq<Lot>): nat {
    if lots == [] then 0 else lots[0].left + Left(lots[1..])
  }

  /** The lots created at or after a time. */
  function LotsFrom(lots: seq<Lot>, cutoff: int): seq<Lot> {
    if lots == [] then []
    else (if lots[0].at >= cutoff then [lots[0]] else []) + LotsFrom(lots[1..], cutoff)
  }

  predicate OldestFirst(lots: seq<Lot>) {
    && (forall i :: 0 <= i < |lots| ==> lots[i].left > 0)
    && (forall i, k :: 0 <= i < k < |lots| ==> lots[i].at <= lots[k].at)
  }

  // ------------------------------------------------------------ the logs meant

  predicate TimeOrdered(log: seq<Txn>) {
    forall i, k :: 0 <= i < k < |log| ==> log[i].at <= log[k].at
  }

  predicate NeverOverdrawn(log: seq<Txn>) {
    forall i :: 0 <= i <= |log| ==> Sum(log[..i]) >= 0
  }

  lemma {:induction false} OverdrawnPrefix(log: seq<Txn>)
    requires NeverOverdrawn(log) && log != []
    ensures NeverOverdrawn(log[..|log| - 1]) && Sum(log[..|log| - 1]) >= 0 && Sum(log) >= 0
  {
    var before := log[..|log| - 1];
    forall i | 0 <= i <= |before| ensures Sum(before[..i]) >= 0 {
      assert before[..i] == log[..i];
    }
    assert log[..|log|] == log;
  }

  lemma {:induction false} NeverOverdrawnAppend(log: seq<Txn>, t: Txn)
    requires NeverOverdrawn(log) && Sum(log) + t.points >= 0
    ensures NeverOverdrawn(log + [t]) && Sum(log + [t]) == Sum(log) + t.points
  {
    var longer := log + [t];
    assert longer[..|log|] == log;
    forall i | 0 <= i <= |longer| ensures Sum(longer[..i]) >= 0 {
      if i <= |log| {
        assert longer[..i] == log[..i];
      } else {
        assert longer[..i] == longer;
      }
    }
  }

  // --------------------------------------------------------------- the queue

  lemma {:induction false} LeftBeforeAppend(lots: seq<Lot>, lot: Lot, cutoff: int)
    ensures LeftBefore(lots + [lot], cutoff) == LeftBefore(lots, cutoff) + if lot.at < cutoff then lot.left else 0
    ensures Left(lots + [lot]) == Left(lots) + lot.left
  {
    if lots == [] {
      assert lots + [lot] == [lot];
    } else {
      LeftBeforeAppend(lots[1..], lot, cutoff);
      assert (lots + [lot])[1..] == lots[1..] + [lot];
    }
  }

  lemma {:induction false} LeftBounds(lots: seq<Lot>, cutoff: int)
    requires OldestFirst(lots)
    ensures LeftBefore(lots, cutoff) <= Left(lots)
    ensures lots != [] && lots[0].at >= cutoff ==> LeftBefore(lots, cutoff) == 0
    ensures (forall i :: 0 <= i < |lots| ==> lots[i].at < cutoff) ==> LeftBefore(lots, cutoff) == Left(lots)
  {
    if lots != [] {
      LeftBounds(lots[1..], cutoff);
    }
  }

  lemma {:induction false} ConsumeKeepsOrder(lots: seq<Lot>, n: nat)
    requires OldestFirst(lots)
    ensures OldestFirst(Consume(lots, n))
    ensures lots == [] ==> Consume(lots, n) == []
    ensures lots != [] && Consume(lots, n) != [] ==>
      Consume(lots, n)[0].at >= lots[0].at && Consume(lots, n)[|Consume(lots, n)| - 1].at == lots[|lots| - 1].at
  {
    if n != 0 && lots != [] {
      if lots[0].left <= n {
        TailIsOrdered(lots);
        hide OldestFirst;
        ConsumeKeepsOrder(lots[1..], n - lots[0].left);
      } else {
        PartlyConsumed(lots, n);
      }
    }
  }

  lemma {:induction false} TailIsOrdered(lots: seq<Lot>)
    requires OldestFirst(lots) && lots != []
    ensures OldestFirst(lots[1..]) && (|lots| > 1 ==> lots[0].at <= lots[1].at)
  {
  }

  lemma {:induction false} PartlyConsumed(lots: seq<Lot>, n: nat)
    requires OldestFirst(lots) && n > 0 && lots != [] && lots[0].left > n
    ensures OldestFirst(Consume(lots, n)) && |Consume(lots, n)| == |lots|
    ensures forall i :: 0 <= i < |lots| ==> Consume(lots, n)[i].at == lots[i].at
  {
  }

  lemma {:induction false} ConsumeTakesFromFront(lots: seq<Lot>, n: nat, cutoff: int)
    requires OldestFirst(lots) && n <= Left(lots)
    ensures LeftBefore(Consume(lots, n), cutoff) == Max(0, LeftBefore(lots, cutoff) - n)
    ensures Left(Consume(lots, n)) == Left(lots) - n
  {
    LeftBounds(lots, cutoff);
    if n != 0 && lots != [] {
      LeftBounds(lots[1..], cutoff);
      if lots[0].left <= n {
        ConsumeTakesFromFront(lots[1..], n - lots[0].left, cutoff);
      } else {
        assert Consume(lots, n)[1..] == lots[1..];
      }
    }
  }

  /** First in, first out: consuming n points takes them from the lots before any cutoff first. */
  lemma {:induction false} ConsumeTakesOldest(lots: seq<Lot>, n: nat, cutoff: int)
    requires OldestFirst(lots) && n <= Left(lots)
    ensures OldestFirst(Consume(lots, n))
    ensures lots != [] && Consume(lots, n) != [] ==>
      Consume(lots, n)[0].at >= lots[0].at && Consume(lots, n)[|Consume(lots, n)| - 1].at == lots[|lots| - 1].at
    ensures LeftBefore(Consume(lots, n), cutoff) == Max(0, LeftBefore(lots, cutoff) - n)
    ensures Left(Consume(lots, n)) == Left(lots) - n
  {
    hide Consume, LeftBefore, Left;
    ConsumeKeepsOrder(lots, n);
    ConsumeTakesFromFront(lots, n, cutoff);
  }

  /** Consuming exactly what is left from before a cutoff leaves exactly the later lots. */
  lemma {:induction false} ConsumeOldLots(lots: seq<Lot>, cutoff: int)
    requires OldestFirst(lots)
    ensures Consume(lots, LeftBefore(lots, cutoff)) == LotsFrom(lots, cutoff)
  {
    LeftBounds(lots, cutoff);
    if lots != [] {
      TailIsOrdered(lots);
      hide OldestFirst, Left;
      ConsumeOldLots(lots[1..], cutoff);
      if lots[0].at >= cutoff {
        LeftBounds(lots[1..], cutoff);
        assert Consume(lots[1..], 0) == lots[1..];
        assert [lots[0]] + lots[1..] == lots;
      } else {
        assert [] + LotsFrom(lots[1..], cutoff) == LotsFrom(lots[1..], cutoff);
      }
    }
  }

  // ------------------------------------------------------- the main refinement

  /** In a log all written before the cutoff, the two sums of the formula differ by the balance. */
  lemma {:induction false} AllBeforeCutoff(log: seq<Txn>, cutoff: int)
    requires forall i :: 0 <= i < |log| ==> log[i].at < cutoff
    ensures EarnedBefore(log, cutoff) - Consumed(log) == Sum(log)
  {
    if log != [] {
      AllBeforeCutoff(log[..|log| - 1], cutoff);
    }
  }

  /** The queue that mirrors a log, as seen from one cutoff. */
  ghost predicate Mirrors(lots: seq<Lot>, log: seq<Txn>, cutoff: int) {
    && OldestFirst(lots)
    && (lots != [] ==> log != [] && lots[|lots| - 1].at <= log[|log| - 1].at)
    && Left(lots) == Sum(log)
    && LeftBefore(lots, cutoff) == Max(0, EarnedBefore(log, cutoff) - Consumed(log))
  }

  lemma {:induction false} MirrorEarn(lots: seq<Lot>, log: seq<Txn>, t: Txn, cutoff: int)
    requires Mirrors(lots, log, cutoff) && t.points > 0
    requires forall i :: 0 <= i < |log| ==> log[i].at <= t.at
    ensures Mirrors(lots + [Lot(t.at, t.points)], log + [t], cutoff)
  {
    assert (log + [t])[..|log|] == log;
    LeftBeforeAppend(lots, Lot(t.at, t.points), cutoff);
    if t.at < cutoff {
      AllBeforeCutoff(log, cutoff);
    }
  }

  lemma {:induction false} LastTime(log: seq<Txn>, t: Txn)
    requires forall i :: 0 <= i < |log| ==> log[i].at <= t.at
    ensures log != [] ==> log[|log| - 1].at <= t.at
  {
  }

  lemma {:induction false} MirrorConsume(lots: seq<Lot>, log: seq<Txn>, t: Txn, cutoff: int)
    requires Mirrors(lots, log, cutoff) && t.points <= 0 && Sum(log) + t.points >= 0
    requires forall i :: 0 <= i < |log| ==> log[i].at <= t.at
    ensures Mirrors(Consume(lots, -t.points), log + [t], cutoff)
  {
    hide Consume, LeftBefore, Left, OldestFirst, TimeOrdered, NeverOverdrawn;
    assert (log + [t])[..|log|] == log;
    ConsumeKeepsOrder(lots, -t.points);
    ConsumeTakesOldest(lots, -t.points, cutoff);
    LastTime(log, t);
  }

  lemma {:induction false} ReplayMirrors(log: seq<Txn>, cutoff: int)
    requires TimeOrdered(log) && NeverOverdrawn(log)
    ensures Mirrors(Replay(log), log, cutoff)
  {
    if log != [] {
      var before, t := log[..|log| - 1], log[|log| - 1];
      OverdrawnPrefix(log);
      ReplayMirrors(before, cutoff);
      assert log == before + [t];
      if t.points > 0 {
        MirrorEarn(Replay(before), before, t, cutoff);
      } else {
        MirrorConsume(Replay(before), before, t, cutoff);
      }
    }
  }

  /**
   FIFO without lots: for every time-ordered log that never overdraws, the formula of the service is
   the number of points left in the lots created before the cutoff, and capping it by the balance
   changes nothing.
   */
  lemma {:induction false} AtRiskIsFifo(log: seq<Txn>, cutoff: int)
    requires TimeOrdered(log) && NeverOverdrawn(log)
    ensures AtRiskBefore(log, Sum(log), cutoff) == LeftBefore(Replay(log), cutoff)
    ensures AtRiskBefore(log, Sum(log), cutoff) == Max(0, EarnedBefore(log, cutoff) - Consumed(log))
  {
    ReplayMirrors(log, cutoff);
    LeftBounds(Replay(log), cutoff);
  }

  // --------------------------------------------------------------------- expiry

  /** The row the expiry job appends at time `now`. */
  function Expired(log: seq<Txn>, balance: int, cutoff: int, now: int): Txn {
    Txn(-AtRiskBefore(log, balance, cutoff), now)
  }

  /** One expiry removes exactly the old lots: the queue of the new log holds the younger lots, untouched. */
  lemma {:induction false} ExpiryRemovesOldLots(log: seq<Txn>, cutoff: int, now: int)
    requires TimeOrdered(log) && NeverOverdrawn(log)
    ensures Replay(log + [Expired(log, Sum(log), cutoff, now)]) == LotsFrom(Replay(log), cutoff)
  {
    AtRiskIsFifo(log, cutoff);
    ReplayMirrors(log, cutoff);
    ConsumeOldLots(Replay(log), cutoff);
    assert (log + [Expired(log, Sum(log), cutoff, now)])[..|log|] == log;
  }

  lemma {:induction false} EarnedIsMonotone(log: seq<Txn>, first: int, second: int)
    requires first <= second
    ensures EarnedBefore(log, first) <= EarnedBefore(log, second)
  {
    if log != [] {
      EarnedIsMonotone(log[..|log| - 1], first, second);
    }
  }

  /**
   Expiry composes: expiring at one cutoff and then at a later one removes what expiring once at the
   later one removes. This needs no assumption on the log or the balance. With equal cutoffs it says
   that a second pass removes nothing.
   */
  lemma {:induction false} ExpiryComposes(log: seq<Txn>, balance: int, first: int, second: int, now: int)
    requires first <= second
    ensures var row := Expired(log, balance, first, now);
      AtRiskBefore(log, balance, first) + AtRiskBefore(log + [row], balance + row.points, second)
        == AtRiskBefore(log, balance, second)
    ensures var row := Expired(log, balance, first, now);
      AtRiskBefore(log + [row], balance + row.points, first) == 0
  {
    var row := Expired(log, balance, first, now);
    assert (log + [row])[..|log|] == log;
    EarnedIsMonotone(log, first, second);
  }

  /** The amount the warning announces: what the later cutoff takes beyond what is due today. */
  function Warned(log: seq<Txn>, balance: int, cutoff: int, warnCutoff: int): int {
    AtRiskBefore(log, balance, warnCutoff) - AtRiskBefore(log, balance, cutoff)
  }

  /**
   The warning is honest: it announces exactly what the sweep at the later cutoff takes after today's
   sweep, it is never negative, and when it announces something there is an earn that is not yet due,
   so the date of the notice always exists.
   */
  lemma {:induction false} WarningIsHonest(log: seq<Txn>, balance: int, cutoff: int, warnCutoff: int, now: int)
    requires cutoff <= warnCutoff
    ensures var row := Expired(log, balance, cutoff, now);
      Warned(log, balance, cutoff, warnCutoff) == AtRiskBefore(log + [row], balance + row.points, warnCutoff) >= 0
    ensures Warned(log, balance, cutoff, warnCutoff) > 0 ==>
      exists i :: 0 <= i < |log| && log[i].points > 0 && cutoff <= log[i].at < warnCutoff
  {
    ExpiryComposes(log, balance, cutoff, warnCutoff, now);
    if forall i :: 0 <= i < |log| && log[i].points > 0 ==> !(cutoff <= log[i].at < warnCutoff) {
      NothingBetween(log, cutoff, warnCutoff);
    }
  }

  lemma {:induction false} NothingBetween(log: seq<Txn>, first: int, second: int)
    requires first <= second && forall i :: 0 <= i < |log| && log[i].points > 0 ==> !(first <= log[i].at < second)
    ensures EarnedBefore(log, first) == EarnedBefore(log, second)
  {
    if log != [] {
      NothingBetween(log[..|log| - 1], first, second);
    }
  }
}
