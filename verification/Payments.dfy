/**
 The life of one payment under concurrent callers (apps/api/src/payments/payments.service.ts and
 packages/shared-types/src/index.ts).

 `transition` and `refund` read a snapshot of the row and later commit a write guarded by that snapshot:
 on the old status, respectively on the old refunded amount. Pollers, webhooks, cashiers, expiry and
 refund requests interleave freely between the two. Callers are threads of a state machine; a run is
 any sequence of their steps, and every statement below is about every run.
 */
module Payments {
  import opened Wrappers

  datatype Status = Pending | Scanned | Paid | Expired | Failed | Cancelled | Refunded

  function Transitions(from: Status): set<Status> {
    match from
    case Pending => {Scanned, Paid, Expired, Failed, Cancelled}
    case Scanned => {Paid, Expired, Failed, Cancelled}
    case Paid => {Refunded}
    case Expired => {Paid}
    case Failed => {}
    case Cancelled => {}
    case Refunded => {}
  }

  predicate CanTransition(from: Status, to: Status) {
    to in Transitions(from)
  }

  /** Every legal transition moves strictly down this rank, so there is no cycle and no path longer than four. */
  function Rank(s: Status): nat {
    match s
    case Pending => 4
    case Scanned => 3
    case Expired => 2
    case Paid => 1
    case Failed => 0
    case Cancelled => 0
    case Refunded => 0
  }

  lemma {:induction false} TransitionsDescend(from: Status, to: Status)
    requires CanTransition(from, to)
    ensures Rank(to) < Rank(from)
    ensures from != to
  {
  }

  /** From where each status can be reached; a late receipt revives an expired payment. */
  lemma {:induction false} TransitionsByTarget(from: Status, to: Status)
    ensures CanTransition(from, to) <==>
      match to
      case Pending => false
      case Scanned => from == Pending
      case Paid => from in {Pending, Scanned, Expired}
      case Expired => from in {Pending, Scanned}
      case Failed => from in {Pending, Scanned}
      case Cancelled => from in {Pending, Scanned}
      case Refunded => from == Paid
  {
  }

  // -------------------------------------------------------------------- the row

  /** A history row; a refund slice writes one from paid to paid. */
  datatype Change = Change(from: Option<Status>, to: Status)

  /**
   The payment row, its succeeded refunds, its history, and how often the effects of being paid ran.
   Amounts are whole ledger units.
   */
  datatype Payment = Payment(
    status: Status, amount: nat, refunded: int, paidAt: Option<int>,
    refunds: seq<int>, history: seq<Change>, paidEffects: nat)

  function Created(amount: nat): Payment {
    Payment(Pending, amount, 0, None, [], [Change(None, Pending)], 0)
  }

  datatype Outcome = Moved | NoOp | Illegal | Rejected | Refunds | Conflict | Aborted | EffectsLost

  /**
   Where a caller stands: what it read, or how it ended. The caller that won the move to paid has yet to run
   the effects, after its transaction has committed; if it stops there they are lost.
   */
  datatype Thread =
    | Transitioning(from: Status, seenPaidAt: Option<int>, to: Status)
    | WonPaid
    | Refunding(already: int, slice: int)
    | FullyRefunded
    | Done(outcome: Outcome)

  function ReadTransition(p: Payment, to: Status): Thread {
    if p.status == to then Done(NoOp)
    else if !CanTransition(p.status, to) then Done(Illegal)
    else Transitioning(p.status, p.paidAt, to)
  }

  function CommitTransition(p: Payment, t: Thread, now: int): (Payment, Thread)
    requires t.Transitioning?
  {
    if p.status != t.from then (p, Done(NoOp))
    else
      (p.(status := t.to,
          paidAt := if t.to == Paid then Some(now) else t.seenPaidAt,
          history := p.history + [Change(Some(t.from), t.to)]),
       if t.to == Paid then WonPaid else Done(Moved))
  }

  function EffectsRun(p: Payment): Payment {
    p.(paidEffects := p.paidEffects + 1)
  }

  /** A caller that stops where it stands; a refund that was committed stays one. */
  function Stopped(t: Thread): Thread {
    match t
    case Done(_) => t
    case WonPaid => Done(EffectsLost)
    case FullyRefunded => Done(Refunds)
    case Transitioning(_, _, to) => if to == Refunded then Done(Refunds) else Done(Aborted)
    case Refunding(_, _) => Done(Aborted)
  }

  function ReadRefund(p: Payment, requested: Option<int>): Thread {
    var remaining := p.amount - p.refunded;
    var slice := if requested.Some? then requested.value else remaining;
    if p.status != Paid || remaining <= 0 || slice <= 0 || slice > remaining then Done(Rejected)
    else Refunding(p.refunded, slice)
  }

  function CommitRefund(p: Payment, t: Thread): (Payment, Thread)
    requires t.Refunding?
  {
    if p.refunded != t.already then (p, Done(Conflict))
    else
      (p.(refunded := t.already + t.slice, refunds := p.refunds + [t.slice], history :=
        p.history + [Change(Some(Paid), Paid)]),
       if t.already + t.slice >= p.amount then FullyRefunded else Done(Refunds))
  }

  // ------------------------------------------------------------------- the runs

  datatype State = State(payment: Payment, threads: map<nat, Thread>)

  /**
   A step of one caller. Any caller may try to move a payment anywhere but to refunded; only the
   caller whose refund completed the amount goes on to that. A step a caller cannot take changes nothing.
   */
  datatype Action =
    | StartTransition(caller: nat, to: Status)
    | FinishTransition(caller: nat, now: int)
    | RunEffects(caller: nat)
    | StartRefund(caller: nat, requested: Option<int>)
    | FinishRefund(caller: nat)
    | StartFullRefund(caller: nat)
    | Abort(caller: nat)

  function Apply(s: State, a: Action): State {
    var t := if a.caller in s.threads then Some(s.threads[a.caller]) else None;
    match a
    case StartTransition(c, to) =>
      if t.Some? || to == Refunded then s else s.(threads := s.threads[c := ReadTransition(s.payment, to)])
    case FinishTransition(c, now) =>
      if t.None? || !t.value.Transitioning? then s
      else
        var (p, next) := CommitTransition(s.payment, t.value, now);
        State(p, s.threads[c := next])
    case RunEffects(c) =>
      if t != Some(WonPaid) then s else State(EffectsRun(s.payment), s.threads[c := Done(Moved)])
    case StartRefund(c, requested) =>
      if t.Some? then s else s.(threads := s.threads[c := ReadRefund(s.payment, requested)])
    case FinishRefund(c) =>
      if t.None? || !t.value.Refunding? then s
      else
        var (p, next) := CommitRefund(s.payment, t.value);
        State(p, s.threads[c := next])
    case StartFullRefund(c) =>
      if t != Some(FullyRefunded) then s else s.(threads := s.threads[c := ReadTransition(s.payment, Refunded)])
    case Abort(c) =>
      if t.None? then s else s.(threads := s.threads[c := Stopped(t.value)])
  }

  function Run(s: State, actions: seq<Action>): State {
    if actions == [] then s else Apply(Run(s, actions[..|actions| - 1]), actions[|actions| - 1])
  }

  function Start(amount: nat): State {
    State(Created(amount), map[])
  }

  // -------------------------------------------------------------- the invariant

  function Sum(slices: seq<int>): int {
    if slices == [] then 0 else Sum(slices[..|slices| - 1]) + slices[|slices| - 1]
  }

  /** Settled statuses: money was received. */
  predicate Settled(s: Status) {
    s == Paid || s == Refunded
  }

  /** The rows form one path from creation to the given status, of legal moves and refund rows. */
  predicate IsPath(history: seq<Change>, last: Status) {
    && history != []
    && history[0] == Change(None, Pending)
    && history[|history| - 1].to == last
    && forall i :: 0 < i < |history| ==>
         && history[i].from == Some(history[i - 1].to)
         && (CanTransition(history[i - 1].to, history[i].to) || (history[i - 1].to == Paid && history[i].to == Paid))
  }

  /** The rows that changed the status. */
  function Moves(history: seq<Change>): nat {
    if history == [] then 0
    else
      var c := history[|history| - 1];
      Moves(history[..|history| - 1]) + if c.from.Some? && c.from != Some(c.to) then 1 else 0
  }

  predicate MoneyConserved(p: Payment) {
    && p.refunded == Sum(p.refunds) && 0 <= p.refunded <= p.amount
    && (forall i :: 0 <= i < |p.refunds| ==> p.refunds[i] > 0)
    && (p.status == Refunded ==> p.refunded == p.amount)
    && (p.refunded > 0 ==> Settled(p.status))
  }

  predicate LifeIsLegal(p: Payment) {
    && IsPath(p.history, p.status)
    && Moves(p.history) + Rank(p.status) <= 4
    && (p.paidAt.Some? <==> Settled(p.status))
  }

  /** A caller that won the move to paid and has not run its effects: it still may, or it stopped. */
  predicate Owes(t: Thread) {
    t == WonPaid || t == Done(EffectsLost)
  }

  function Owing(threads: map<nat, Thread>): set<nat> {
    set c | c in threads && Owes(threads[c])
  }

  /** Being paid is answered for once: its effects ran, or exactly one caller owes them. */
  predicate EffectsAccounted(s: State) {
    s.payment.paidEffects + |Owing(s.threads)| == if Settled(s.payment.status) then 1 else 0
  }

  /** What a caller in flight may rely on. */
  predicate Sound(t: Thread, p: Payment) {
    match t
    case Transitioning(from, seen, to) =>
      && CanTransition(from, to)
      && (seen.Some? <==> Settled(from))
      && (p.status == from || Rank(p.status) < Rank(from))
      && (p.status == from ==> seen == p.paidAt)
      && (to == Refunded ==> p.refunded == p.amount)
    case Refunding(already, slice) =>
      slice > 0 && 0 <= already <= p.refunded && already + slice <= p.amount && Settled(p.status)
    case FullyRefunded => p.refunded == p.amount
    case WonPaid => Settled(p.status)
    case Done(_) => true
  }

  ghost predicate Inv(s: State) {
    && MoneyConserved(s.payment) && LifeIsLegal(s.payment) && EffectsAccounted(s)
    && forall c :: c in s.threads ==> Sound(s.threads[c], s.payment)
  }

  lemma {:induction false} AppendChange(history: seq<Change>, c: Change)
    ensures Moves(history + [c]) == Moves(history) + if c.from.Some? && c.from != Some(c.to) then 1 else 0
  {
    assert (history + [c])[..|history|] == history;
  }

  lemma {:induction false} CommitTransitionKeeps(p: Payment, t: Thread, now: int)
    requires MoneyConserved(p) && LifeIsLegal(p) && t.Transitioning? && Sound(t, p)
    ensures var p' := CommitTransition(p, t, now).0; MoneyConserved(p') && LifeIsLegal(p')
  {
    hide IsPath, Moves, Sum;
    if p.status == t.from {
      AppendChange(p.history, Change(Some(t.from), t.to));
      PathGrows(p.history, p.status, t.to);
      TransitionsDescend(t.from, t.to);
    }
  }

  lemma {:induction false} PathGrows(history: seq<Change>, from: Status, to: Status)
    requires IsPath(history, from) && (CanTransition(from, to) || (from == Paid && to == Paid))
    ensures IsPath(history + [Change(Some(from), to)], to)
  {
  }

  /** A committed transition leaves every other caller's expectations intact. */
  lemma {:induction false} TransitionKeepsOthers(p: Payment, t: Thread, now: int, other: Thread)
    requires MoneyConserved(p) && LifeIsLegal(p) && t.Transitioning? && Sound(t, p) && Sound(other, p)
    ensures Sound(other, CommitTransition(p, t, now).0)
  {
    TransitionsDescend(t.from, t.to);
  }

  lemma {:induction false} CommitRefundKeeps(p: Payment, t: Thread)
    requires MoneyConserved(p) && LifeIsLegal(p) && t.Refunding? && Sound(t, p)
    ensures var (p', next) := CommitRefund(p, t); MoneyConserved(p') && LifeIsLegal(p') && Sound(next, p')
  {
    hide IsPath, Moves, Sum;
    if p.refunded == t.already {
      AppendChange(p.history, Change(Some(Paid), Paid));
      PathGrows(p.history, p.status, Paid);
      SumSnoc(p.refunds, t.slice);
    }
  }

  lemma {:induction false} SumSnoc(slices: seq<int>, slice: int)
    ensures Sum(slices + [slice]) == Sum(slices) + slice
  {
    assert (slices + [slice])[..|slices|] == slices;
  }

  lemma {:induction false} RefundKeepsOthers(p: Payment, t: Thread, other: Thread)
    requires MoneyConserved(p) && LifeIsLegal(p) && t.Refunding? && Sound(t, p) && Sound(other, p)
    ensures Sound(other, CommitRefund(p, t).0)
  {
  }

  lemma {:induction false} ReadsAreSound(p: Payment, to: Status, requested: Option<int>)
    requires MoneyConserved(p) && LifeIsLegal(p)
    ensures to != Refunded || p.refunded == p.amount ==> Sound(ReadTransition(p, to), p)
    ensures Sound(ReadRefund(p, requested), p)
    ensures !Owes(ReadTransition(p, to)) && !Owes(ReadRefund(p, requested))
  {
  }

  lemma {:induction false} OwingAfter(threads: map<nat, Thread>, c: nat, t: Thread)
    ensures |Owing(threads[c := t])|
      == |Owing(threads)| - (if c in threads && Owes(threads[c]) then 1 else 0) + (if Owes(t) then 1 else 0)
  {
    hide Owes;
    var before, after := Owing(threads), Owing(threads[c := t]);
    forall k: nat ensures k in after <==> if k == c then Owes(t) else k in before {
    }
    OneChanged(before, after, c, Owes(t));
  }

  lemma {:induction false} OneChanged(before: set<nat>, after: set<nat>, c: nat, held: bool)
    requires forall k: nat :: k in after <==> if k == c then held else k in before
    ensures |after| == |before| - (if c in before then 1 else 0) + (if held then 1 else 0)
  {
    var rest := before - {c};
    if c !in before {
      assert rest == before;
    }
    if held {
      assert after == rest + {c};
    } else {
      assert after == rest;
    }
  }

  lemma {:induction false} ThreadChangeKeepsInv(s: State, c: nat, t: Thread)
    requires Inv(s) && Sound(t, s.payment)
    requires Owes(t) <==> c in s.threads && Owes(s.threads[c])
    ensures Inv(s.(threads := s.threads[c := t]))
  {
    OwingAfter(s.threads, c, t);
  }

  lemma {:induction false} RunEffectsKeepsInv(s: State, c: nat)
    requires Inv(s) && c in s.threads && s.threads[c] == WonPaid
    ensures Inv(State(EffectsRun(s.payment), s.threads[c := Done(Moved)]))
  {
    OwingAfter(s.threads, c, Done(Moved));
    forall k | k in s.threads ensures Sound(s.threads[k], EffectsRun(s.payment)) {
    }
  }

  /** Along a legal move a payment becomes settled exactly by moving to paid. */
  lemma {:induction false} SettledOnce(t: Thread)
    requires t.Transitioning? && CanTransition(t.from, t.to)
    ensures t.to == Paid <==> !Settled(t.from) && Settled(t.to)
    ensures Settled(t.from) ==> Settled(t.to)
  {
  }

  lemma {:induction false} FinishTransitionKeepsInv(s: State, c: nat, now: int)
    requires Inv(s) && c in s.threads && s.threads[c].Transitioning?
    ensures Inv(Apply(s, FinishTransition(c, now)))
  {
    hide MoneyConserved, LifeIsLegal;
    CommitTransitionKeeps(s.payment, s.threads[c], now);
    OwingAfter(s.threads, c, CommitTransition(s.payment, s.threads[c], now).1);
    SettledOnce(s.threads[c]);
    forall k | k in s.threads { TransitionKeepsOthers(s.payment, s.threads[c], now, s.threads[k]); }
  }

  lemma {:induction false} FinishRefundKeepsInv(s: State, c: nat)
    requires Inv(s) && c in s.threads && s.threads[c].Refunding?
    ensures Inv(Apply(s, FinishRefund(c)))
  {
    hide MoneyConserved, LifeIsLegal;
    CommitRefundKeeps(s.payment, s.threads[c]);
    OwingAfter(s.threads, c, CommitRefund(s.payment, s.threads[c]).1);
    forall k | k in s.threads { RefundKeepsOthers(s.payment, s.threads[c], s.threads[k]); }
  }

  lemma {:induction false} StepKeepsInv(s: State, a: Action)
    requires Inv(s)
    ensures Inv(Apply(s, a))
  {
    hide MoneyConserved, LifeIsLegal, CommitTransition, CommitRefund, ReadTransition, ReadRefund;
    match a {
      case StartTransition(c, to) =>
        if c !in s.threads && to != Refunded {
          ReadsAreSound(s.payment, to, None);
          ThreadChangeKeepsInv(s, c, ReadTransition(s.payment, to));
        }
      case FinishTransition(c, now) =>
        if c in s.threads && s.threads[c].Transitioning? {
          FinishTransitionKeepsInv(s, c, now);
        }
      case RunEffects(c) =>
        if c in s.threads && s.threads[c] == WonPaid {
          RunEffectsKeepsInv(s, c);
        }
      case StartRefund(c, requested) =>
        if c !in s.threads {
          ReadsAreSound(s.payment, Paid, requested);
          ThreadChangeKeepsInv(s, c, ReadRefund(s.payment, requested));
        }
      case FinishRefund(c) =>
        if c in s.threads && s.threads[c].Refunding? {
          FinishRefundKeepsInv(s, c);
        }
      case StartFullRefund(c) =>
        if c in s.threads && s.threads[c] == FullyRefunded {
          ReadsAreSound(s.payment, Refunded, None);
          ThreadChangeKeepsInv(s, c, ReadTransition(s.payment, Refunded));
        }
      case Abort(c) =>
        if c in s.threads {
          ThreadChangeKeepsInv(s, c, Stopped(s.threads[c]));
        }
    }
  }

  lemma {:induction false} RunKeepsInv(s: State, actions: seq<Action>)
    requires Inv(s)
    ensures Inv(Run(s, actions))
  {
    if actions != [] {
      RunKeepsInv(s, actions[..|actions| - 1]);
      StepKeepsInv(Run(s, actions[..|actions| - 1]), actions[|actions| - 1]);
    }
  }

  // --------------------------------------------------------------- main results

  /**
   Interleaved refunds conserve money: in every run the refunded amount is the sum of the succeeded
   refunds, each positive, never exceeds the payment, and a payment that says refunded is refunded whole.
   */
  lemma {:induction false} RefundsConserveMoney(amount: nat, actions: seq<Action>)
    ensures var p := Run(Start(amount), actions).payment;
      && p.amount == amount
      && p.refunded == Sum(p.refunds) <= amount
      && (forall i :: 0 <= i < |p.refunds| ==> p.refunds[i] > 0)
      && (p.status == Refunded ==> p.refunded == amount)
      && (p.refunded > 0 ==> Settled(p.status))
  {
    assert Owing(map[]) == {};
    RunKeepsInv(Start(amount), actions);
    AmountIsFixed(Start(amount), actions);
  }

  lemma {:induction false} AmountIsFixed(s: State, actions: seq<Action>)
    ensures Run(s, actions).payment.amount == s.payment.amount
  {
    if actions != [] {
      AmountIsFixed(s, actions[..|actions| - 1]);
    }
  }

  /**
   Paid at most once: in every run the history is one connected path of legal moves and refund rows
   from creation to the current status, with at most four moves; paidAt is set exactly while it is paid or
   refunded; the effects of being paid run at most once, never before it is paid, and if they have not run
   then exactly one caller, the one that won the move, either has yet to run them or stopped before it did.
   */
  lemma {:induction false} PaidAtMostOnce(amount: nat, actions: seq<Action>)
    ensures var p := Run(Start(amount), actions).payment;
      && IsPath(p.history, p.status)
      && Moves(p.history) <= 4
      && (p.paidAt.Some? <==> Settled(p.status))
      && p.paidEffects <= 1
      && (p.paidEffects == 1 ==> Settled(p.status))
    ensures var s := Run(Start(amount), actions);
      Settled(s.payment.status) && s.payment.paidEffects == 0 ==>
        exists c :: Owing(s.threads) == {c} && (s.threads[c] == WonPaid || s.threads[c] == Done(EffectsLost))
  {
    assert Owing(map[]) == {};
    RunKeepsInv(Start(amount), actions);
    var s := Run(Start(amount), actions);
    if Settled(s.payment.status) && s.payment.paidEffects == 0 {
      var c :| c in Owing(s.threads);
      assert |Owing(s.threads) - {c}| == 0;
    }
  }

  /** How a payment may have changed between two points of a run. */
  predicate Advances(p: Payment, p': Payment) {
    && (p'.status == p.status || Rank(p'.status) < Rank(p.status))
    && p.history <= p'.history && p.refunds <= p'.refunds
    && p.refunded <= p'.refunded && p.paidEffects <= p'.paidEffects
    && (p.paidAt.Some? ==> p'.paidAt == p.paidAt)
  }

  lemma {:induction false} StepAdvances(s: State, a: Action)
    requires Inv(s)
    ensures Advances(s.payment, Apply(s, a).payment)
  {
    if a.caller in s.threads && s.threads[a.caller].Transitioning? {
      var t := s.threads[a.caller];
      TransitionsDescend(t.from, t.to);
    }
  }

  /**
   Nothing is undone: status only moves down the rank, history and refunds only grow, and paidAt never changes
   once set.
   */
  lemma {:induction false} RunAdvances(s: State, actions: seq<Action>)
    requires Inv(s)
    ensures Advances(s.payment, Run(s, actions).payment)
  {
    if actions != [] {
      var before := actions[..|actions| - 1];
      RunAdvances(s, before);
      RunKeepsInv(s, before);
      StepAdvances(Run(s, before), actions[|actions| - 1]);
    }
  }

  /**
   When the effects of being paid have run, exactly: in every run, the payment is settled and no caller owes
   them, neither one about to run them nor one that stopped after its commit.
   */
  lemma {:induction false} EffectsRanIff(amount: nat, actions: seq<Action>)
    ensures var s := Run(Start(amount), actions);
      s.payment.paidEffects == 1 <==>
        Settled(s.payment.status) && forall c :: c in s.threads ==> !Owes(s.threads[c])
  {
    assert Owing(map[]) == {};
    RunKeepsInv(Start(amount), actions);
    var s := Run(Start(amount), actions);
    hide Run;
    if forall c :: c in s.threads ==> !Owes(s.threads[c]) {
      assert Owing(s.threads) == {};
    } else {
      var c :| c in s.threads && Owes(s.threads[c]);
      assert c in Owing(s.threads);
    }
  }

  /** They can be lost: a caller that moves the payment to paid and stops after its commit. */
  lemma {:induction false} EffectsCanBeLost(amount: nat)
    ensures var s := Run(Start(amount), [StartTransition(0, Paid), FinishTransition(0, 5), Abort(0)]);
      && s.payment.status == Paid && s.payment.paidEffects == 0
      && s.threads == map[0 := Done(EffectsLost)]
  {
    hide Run, Apply;
    RunThree(Start(amount), StartTransition(0, Paid), FinishTransition(0, 5), Abort(0));
    LostSteps(amount);
  }

  lemma {:induction false} RunThree(s: State, a: Action, b: Action, c: Action)
    ensures Run(s, [a, b, c]) == Apply(Apply(Apply(s, a), b), c)
  {
    hide Apply;
    RunSnoc(s, [], a);
    RunSnoc(s, [a], b);
    RunSnoc(s, [a, b], c);
    assert [] + [a] == [a] && [a] + [b] == [a, b] && [a, b] + [c] == [a, b, c];
  }

  lemma {:induction false} LostSteps(amount: nat)
    ensures var s := Apply(Apply(Apply(Start(amount), StartTransition(0, Paid)), FinishTransition(0, 5)), Abort(0));
      s.payment.status == Paid && s.payment.paidEffects == 0 && s.threads == map[0 := Done(EffectsLost)]
  {
    var s1 := Apply(Start(amount), StartTransition(0, Paid));
    assert s1.threads == map[0 := Transitioning(Pending, None, Paid)];
    var s2 := Apply(s1, FinishTransition(0, 5));
    assert s2.payment.status == Paid && s2.threads == map[0 := WonPaid];
  }

  lemma {:induction false} RunSnoc(s: State, actions: seq<Action>, a: Action)
    ensures Run(s, actions + [a]) == Apply(Run(s, actions), a)
    ensures Run(s, []) == s
  {
    hide Apply;
    assert (actions + [a])[..|actions|] == actions;
  }

  // ----------------------------------------------------- one refund per snapshot

  /** A refund caller whose refund was committed, wherever it went from there. */
  predicate Committed(t: Thread) {
    t == FullyRefunded || t in {Done(Refunds), Done(Moved), Done(NoOp), Done(Illegal)}
    || (t.Transitioning? && t.to == Refunded)
  }

  /** One that was not: still holding the amount it read, or ended without a refund. */
  predicate Uncommitted(t: Thread, already: int) {
    t == Done(Conflict) || t == Done(Aborted) || (t.Refunding? && t.already == already && t.slice > 0)
  }

  ghost predicate OneOf(s: State, c: nat, d: nat, already: int) {
    && c in s.threads && d in s.threads && c != d
    && s.payment.refunded >= already
    && (Committed(s.threads[c]) || Uncommitted(s.threads[c], already))
    && (Committed(s.threads[d]) || Uncommitted(s.threads[d], already))
    && !(Committed(s.threads[c]) && Committed(s.threads[d]))
    && (s.payment.refunded == already ==> !Committed(s.threads[c]) && !Committed(s.threads[d]))
  }

  lemma {:induction false} StepKeepsOneOf(s: State, a: Action, c: nat, d: nat, already: int)
    requires Inv(s) && OneOf(s, c, d, already)
    ensures OneOf(Apply(s, a), c, d, already)
  {
    hide MoneyConserved, LifeIsLegal, EffectsAccounted;
    assert a.caller in s.threads ==> Sound(s.threads[a.caller], s.payment);
  }

  /**
   In every run, of the refund callers that read one refunded amount at most one ever commits: of any two, one
   still holds that amount, or ended in a conflict or aborted.
   */
  lemma {:induction false} OneRefundPerSnapshot(amount: nat, actions: seq<Action>, c: nat, d: nat, more: seq<Action>)
    requires var s := Run(Start(amount), actions);
      && c in s.threads && d in s.threads && c != d && s.threads[c].Refunding? && s.threads[d].Refunding?
      && s.threads[c].already == s.threads[d].already
    ensures var s := Run(Start(amount), actions);
      OneOf(Run(s, more), c, d, s.threads[c].already)
  {
    assert Owing(map[]) == {};
    RunKeepsInv(Start(amount), actions);
    OneRefundFrom(Run(Start(amount), actions), c, d, more);
  }

  lemma {:induction false} OneRefundFrom(s: State, c: nat, d: nat, more: seq<Action>)
    requires Inv(s) && c in s.threads && d in s.threads && c != d
    requires s.threads[c].Refunding? && s.threads[d].Refunding? && s.threads[c].already == s.threads[d].already
    ensures OneOf(Run(s, more), c, d, s.threads[c].already)
  {
    assert Sound(s.threads[c], s.payment);
    if more != [] {
      var before := more[..|more| - 1];
      OneRefundFrom(s, c, d, before);
      RunKeepsInv(s, before);
      StepKeepsOneOf(Run(s, before), more[|more| - 1], c, d, s.threads[c].already);
    }
  }

  // ------------------------------------------------- every refund was asked for

  /** What a caller asked for is a refund of `slice` of this payment: an amount of its own, or all that was left. */
  predicate AsksFor(p: Payment, requested: Option<int>, slice: int) {
    && p.status == Paid && 0 < slice <= p.amount - p.refunded
    && match requested
       case Some(n) => slice == n
       case None => slice == p.amount - p.refunded
  }

  /** At its first step, the i-th of the run, a caller asked for a refund of this slice. */
  predicate AskedAt(amount: nat, actions: seq<Action>, i: nat, c: nat, slice: int) {
    && i < |actions| && actions[i].StartRefund? && actions[i].caller == c
    && var s := Run(Start(amount), actions[..i]);
       c !in s.threads && AsksFor(s.payment, actions[i].requested, slice)
  }

  ghost predicate Asked(amount: nat, actions: seq<Action>, c: nat, slice: int) {
    exists i: nat :: AskedAt(amount, actions, i, c, slice)
  }

  /** The callers that wrote a refund row, in the order of the rows. */
  function Refunders(amount: nat, actions: seq<Action>): seq<nat> {
    if actions == [] then []
    else
      var before, last := actions[..|actions| - 1], actions[|actions| - 1];
      var s := Run(Start(amount), before);
      Refunders(amount, before) + if Apply(s, last).payment.refunds == s.payment.refunds then [] else [last.caller]
  }

  lemma {:induction false} StillAsked(amount: nat, actions: seq<Action>, a: Action, c: nat, slice: int)
    requires Asked(amount, actions, c, slice)
    ensures Asked(amount, actions + [a], c, slice)
  {
    hide Run, AsksFor;
    var i: nat :| AskedAt(amount, actions, i, c, slice);
    assert (actions + [a])[..i] == actions[..i];
    assert AskedAt(amount, actions + [a], i, c, slice);
  }

  lemma {:induction false} NowAsked(amount: nat, actions: seq<Action>, c: nat, requested: Option<int>, slice: int)
    requires var s := Run(Start(amount), actions);
      c !in s.threads && AsksFor(s.payment, requested, slice)
    ensures Asked(amount, actions + [StartRefund(c, requested)], c, slice)
  {
    hide Run, AsksFor;
    var more := actions + [StartRefund(c, requested)];
    assert more[..|actions|] == actions;
    assert AskedAt(amount, more, |actions|, c, slice);
  }

  /** What one step does to refunds: only a caller that holds a slice adds a row, of that slice, and lets go of it. */
  lemma {:induction false} StepRefunds(s: State, a: Action)
    ensures var s', c := Apply(s, a), a.caller;
      && (forall d :: d in s.threads ==> d in s'.threads && (Committed(s.threads[d]) ==> Committed(s'.threads[d])))
      && (forall d :: d in s'.threads && s'.threads[d].Refunding? ==>
            || (d in s.threads && s.threads[d] == s'.threads[d])
            || (a.StartRefund? && d == c && d !in s.threads && s'.threads[d].slice > 0
                && AsksFor(s.payment, a.requested, s'.threads[d].slice)))
      && (s'.payment.refunds != s.payment.refunds ==>
            && c in s.threads && s.threads[c].Refunding? && Committed(s'.threads[c])
            && s'.payment.refunds == s.payment.refunds + [s.threads[c].slice])
  {
    if a.FinishRefund? && a.caller in s.threads && s.threads[a.caller].Refunding? {
      var p, p' := s.payment, Apply(s, a).payment;
      assert p'.refunds != p.refunds ==> p'.refunds == p.refunds + [s.threads[a.caller].slice];
    }
  }

  /**
   In every run, each refund row is a refund that its caller asked for, at its first step and of exactly the amount
   it named or of all that was left then, and no two rows come from one caller.
   */
  lemma {:induction false} RefundsWereAsked(amount: nat, actions: seq<Action>)
    ensures var s, who := Run(Start(amount), actions), Refunders(amount, actions);
      && |who| == |s.payment.refunds|
      && (forall k :: 0 <= k < |who| ==> Asked(amount, actions, who[k], s.payment.refunds[k]))
      && (forall k, l :: 0 <= k < l < |who| ==> who[k] != who[l])
      && (forall k :: 0 <= k < |who| ==> who[k] in s.threads && Committed(s.threads[who[k]]))
      && (forall c :: c in s.threads && s.threads[c].Refunding? ==> Asked(amount, actions, c, s.threads[c].slice))
  {
    hide Apply, AsksFor, AskedAt, Asked;
    if actions != [] {
      var before, a := actions[..|actions| - 1], actions[|actions| - 1];
      RefundsWereAsked(amount, before);
      var s, who := Run(Start(amount), before), Refunders(amount, before);
      assert before + [a] == actions;
      StepRefunds(s, a);
      forall k | 0 <= k < |who| {
        StillAsked(amount, before, a, who[k], s.payment.refunds[k]);
      }
      var s' := Apply(s, a);
      forall c | c in s'.threads && s'.threads[c].Refunding?
        ensures Asked(amount, actions, c, s'.threads[c].slice)
      {
        if c in s.threads && s.threads[c] == s'.threads[c] {
          StillAsked(amount, before, a, c, s.threads[c].slice);
        } else {
          NowAsked(amount, before, c, a.requested, s'.threads[c].slice);
        }
      }
      if a.caller in s.threads && s.threads[a.caller].Refunding? {
        StillAsked(amount, before, a, a.caller, s.threads[a.caller].slice);
      }
    }
  }

  // --------------------------------------------- what an undisturbed caller gets

  lemma {:induction false} RunJoins(s: State, actions: seq<Action>, more: seq<Action>)
    ensures Run(s, actions + more) == Run(Run(s, actions), more)
  {
    hide Apply;
    if more == [] {
      assert actions + more == actions;
    } else {
      RunJoins(s, actions, more[..|more| - 1]);
      assert (actions + more)[..|actions + more| - 1] == actions + more[..|more| - 1];
    }
  }

  /** The steps of a caller that is told of a receipt, and of one that refunds, with nobody in between. */
  function PayingSteps(c: nat, now: int): seq<Action> {
    [StartTransition(c, Paid), FinishTransition(c, now), RunEffects(c)]
  }

  function RefundingSteps(c: nat, requested: Option<int>, now: int): seq<Action> {
    [StartRefund(c, requested), FinishRefund(c), StartFullRefund(c), FinishTransition(c, now)]
  }

  lemma {:induction false} PayingIs(s: State, c: nat, now: int)
    requires c !in s.threads
    ensures var p, p' := s.payment, Run(s, PayingSteps(c, now)).payment;
      p' == if p.status in {Pending, Scanned, Expired}
            then p.(status := Paid, paidAt := Some(now), history := p.history + [Change(Some(p.status), Paid)],
                    paidEffects := p.paidEffects + 1)
            else p
  {
    RunThree(s, StartTransition(c, Paid), FinishTransition(c, now), RunEffects(c));
    hide Run;
    TransitionsByTarget(s.payment.status, Paid);
    var s1 := Apply(s, StartTransition(c, Paid));
    assert s1.payment == s.payment && c in s1.threads;
    if s.payment.status in {Pending, Scanned, Expired} {
      assert s1.threads[c] == Transitioning(s.payment.status, s.payment.paidAt, Paid);
      var s2 := Apply(s1, FinishTransition(c, now));
      assert c in s2.threads && s2.threads[c] == WonPaid;
    } else {
      assert s1.threads[c].Done?;
      assert Apply(s1, FinishTransition(c, now)) == s1 && Apply(s1, RunEffects(c)) == s1;
    }
  }

  /**
   A receipt is never turned away: in every reachable state, a payment that is pending, scanned or expired becomes
   paid, now, by a caller nobody disturbs, and the effects of being paid have then run exactly once. In every other
   status that caller changes nothing.
   */
  lemma {:induction false} ReceiptSettles(amount: nat, actions: seq<Action>, c: nat, now: int)
    requires c !in Run(Start(amount), actions).threads
    ensures var p := Run(Start(amount), actions).payment;
      var p' := Run(Start(amount), actions + PayingSteps(c, now)).payment;
      && (p.status in {Pending, Scanned, Expired} ==>
            p'.status == Paid && p'.paidAt == Some(now) && p'.paidEffects == 1 && p'.refunded == 0)
      && (p.status !in {Pending, Scanned, Expired} ==> p' == p)
  {
    assert Owing(map[]) == {};
    RunKeepsInv(Start(amount), actions);
    RunJoins(Start(amount), actions, PayingSteps(c, now));
    PayingIs(Run(Start(amount), actions), c, now);
    hide Run;
  }

  lemma {:induction false} RefundingIs(s: State, c: nat, requested: Option<int>, slice: int, now: int)
    requires c !in s.threads
    requires slice == if requested.Some? then requested.value else s.payment.amount - s.payment.refunded
    ensures var p, p' := s.payment, Run(s, RefundingSteps(c, requested, now)).payment;
      if p.status == Paid && 0 < slice <= p.amount - p.refunded then
        && p'.refunds == p.refunds + [slice] && p'.refunded == p.refunded + slice
        && p'.status == (if p.refunded + slice == p.amount then Refunded else Paid)
        && p'.amount == p.amount && p'.paidAt == p.paidAt && p'.paidEffects == p.paidEffects
        && p'.history == p.history + [Change(Some(Paid), Paid)]
             + if p.refunded + slice == p.amount then [Change(Some(Paid), Refunded)] else []
      else p' == p
  {
    RunThree(s, StartRefund(c, requested), FinishRefund(c), StartFullRefund(c));
    var three := [StartRefund(c, requested), FinishRefund(c), StartFullRefund(c)];
    RunSnoc(s, three, FinishTransition(c, now));
    assert RefundingSteps(c, requested, now) == three + [FinishTransition(c, now)];
    hide Run;
    var s1 := Apply(s, StartRefund(c, requested));
    assert s1.payment == s.payment && c in s1.threads;
    var s2 := Apply(s1, FinishRefund(c));
    if s.payment.status == Paid && 0 < slice <= s.payment.amount - s.payment.refunded {
      assert s1.threads[c] == Refunding(s.payment.refunded, slice);
      assert c in s2.threads;
      if s.payment.refunded + slice == s.payment.amount {
        assert s2.threads[c] == FullyRefunded;
        TransitionsByTarget(Paid, Refunded);
        var s3 := Apply(s2, StartFullRefund(c));
        assert s3.threads[c] == Transitioning(Paid, s.payment.paidAt, Refunded);
      } else {
        assert s2.threads[c] == Done(Refunds);
      }
    } else {
      assert s1.threads[c] == Done(Rejected) && s2 == s1;
    }
  }

  /**
   A refund that fits is made: in every reachable state, a caller nobody disturbs that asks for an amount, or for
   all that is left, of a paid payment refunds exactly that, and one that completes the amount leaves the payment
   refunded. A request that does not fit changes nothing.
   */
  lemma {:induction false} RefundSettles(amount: nat, actions: seq<Action>, c: nat, requested: Option<int>, now: int)
    requires c !in Run(Start(amount), actions).threads
    ensures var p := Run(Start(amount), actions).payment;
      var p' := Run(Start(amount), actions + RefundingSteps(c, requested, now)).payment;
      var slice := if requested.Some? then requested.value else amount - p.refunded;
      && (p.status == Paid && 0 < slice <= amount - p.refunded ==>
            && p'.refunds == p.refunds + [slice] && p'.refunded == p.refunded + slice
            && p'.status == if p.refunded + slice == amount then Refunded else Paid)
      && (p.status != Paid || !(0 < slice <= amount - p.refunded) ==> p' == p)
  {
    AmountIsFixed(Start(amount), actions);
    RunJoins(Start(amount), actions, RefundingSteps(c, requested, now));
    var s := Run(Start(amount), actions);
    hide Run;
    RefundingIs(s, c, requested, if requested.Some? then requested.value else amount - s.payment.refunded, now);
  }

  // ---------------------------------------------------------------- the service

  /** The row as the service updates it, one database call at a time. */
  class PaymentTable {
    const amount: nat
    var status: Status
    var refunded: int
    var paidAt: Option<int>
    var refunds: seq<int>
    var history: seq<Change>
    var paidEffects: nat

    constructor (amount: nat)
      ensures View() == Created(amount)
    {
      this.amount := amount;
      status, refunded, paidAt, refunds, paidEffects := Pending, 0, None, [], 0;
      history := [Change(None, Pending)];
    }

    ghost function View(): Payment
      reads this
    {
      Payment(status, amount, refunded, paidAt, refunds, history, paidEffects)
    }

    /** First half of `transition`: read the row and judge the move. */
    method BeginTransition(to: Status) returns (t: Thread)
      ensures t == ReadTransition(View(), to)
      ensures t == Done(NoOp) <==> status == to
      ensures t.Transitioning? ==> t == Transitioning(status, paidAt, to)
      ensures t.Transitioning? || t == Done(NoOp) || t == Done(Illegal)
    {
      var from := status;
      if from == to {
        return Done(NoOp);
      }
      if !CanTransition(from, to) {
        return Done(Illegal);
      }
      return Transitioning(from, paidAt, to);
    }

    /** Second half: the guarded update and the history row. */
    method EndTransition(t: Thread, now: int) returns (next: Thread)
      requires t.Transitioning?
      modifies this
      ensures (View(), next) == CommitTransition(old(View()), t, now)
      ensures old(status) != t.from ==> View() == old(View()) && next == Done(NoOp)
      ensures old(status) == t.from ==>
        && View() == old(View()).(status := t.to, history := old(history) + [Change(Some(t.from), t.to)],
             paidAt := if t.to == Paid then Some(now) else t.seenPaidAt)
        && next == if t.to == Paid then WonPaid else Done(Moved)
    {
      if status != t.from {
        return Done(NoOp);
      }
      status := t.to;
      if t.to == Paid {
        paidAt := Some(now);
      } else {
        paidAt := t.seenPaidAt;
      }
      history := history + [Change(Some(t.from), t.to)];
      return if t.to == Paid then WonPaid else Done(Moved);
    }

    /** After the commit: the effects of being paid, by the caller that won the move. */
    method RunPaidEffects(t: Thread) returns (next: Thread)
      requires t == WonPaid
      modifies this
      ensures View() == EffectsRun(old(View())) && next == Done(Moved)
      ensures View() == old(View()).(paidEffects := old(paidEffects) + 1)
    {
      paidEffects := paidEffects + 1;
      return Done(Moved);
    }

    /** First half of `refund`: read, validate, compute the slice. */
    method BeginRefund(requested: Option<int>) returns (t: Thread)
      ensures t == ReadRefund(View(), requested)
      ensures t == Done(Rejected) || t.Refunding?
      ensures requested.Some? ==>
        && (t.Refunding? <==> status == Paid && 0 < requested.value <= amount - refunded)
        && (t.Refunding? ==> t == Refunding(refunded, requested.value))
      ensures requested.None? ==>
        && (t.Refunding? <==> status == Paid && refunded < amount)
        && (t.Refunding? ==> t == Refunding(refunded, amount - refunded))
    {
      if status != Paid {
        return Done(Rejected);
      }
      var remaining := amount - refunded;
      if remaining <= 0 {
        return Done(Rejected);
      }
      var refundAmount := if requested.Some? then requested.value else remaining;
      if refundAmount <= 0 || refundAmount > remaining {
        return Done(Rejected);
      }
      return Refunding(refunded, refundAmount);
    }

    /** Second half: the update guarded by the refunded amount that was read, the refund row and the history row. */
    method EndRefund(t: Thread) returns (next: Thread)
      requires t.Refunding?
      modifies this
      ensures (View(), next) == CommitRefund(old(View()), t)
      ensures old(refunded) != t.already ==> View() == old(View()) && next == Done(Conflict)
      ensures old(refunded) == t.already ==>
        && View() == old(View()).(refunded := old(refunded) + t.slice, refunds := old(refunds) + [t.slice],
             history := old(history) + [Change(Some(Paid), Paid)])
        && next == if refunded >= amount then FullyRefunded else Done(Refunds)
    {
      var newRefunded := t.already + t.slice;
      var fullyRefunded := newRefunded >= amount;
      if refunded != t.already {
        return Done(Conflict);
      }
      refunded := newRefunded;
      refunds := refunds + [t.slice];
      history := history + [Change(Some(Paid), Paid)];
      return if fullyRefunded then FullyRefunded else Done(Refunds);
    }

    /** An undisturbed `transition`: read and commit. It moves exactly when the target can be reached from here. */
    method Transition(to: Status, now: int) returns (outcome: Outcome)
      modifies this
      ensures outcome == Moved <==>
        match to
        case Pending => false
        case Scanned => old(status) == Pending
        case Paid => old(status) in {Pending, Scanned, Expired}
        case Expired => old(status) in {Pending, Scanned}
        case Failed => old(status) in {Pending, Scanned}
        case Cancelled => old(status) in {Pending, Scanned}
        case Refunded => old(status) == Paid
      ensures outcome != Moved ==> View() == old(View()) && outcome == if old(status) == to then NoOp else Illegal
      ensures outcome == Moved ==>
        View() == old(View()).(status := to, history := old(history) + [Change(Some(old(status)), to)],
          paidAt := if to == Paid then Some(now) else old(paidAt),
          paidEffects := old(paidEffects) + if to == Paid then 1 else 0)
    {
      TransitionsByTarget(status, to);
      var t := BeginTransition(to);
      if t.Transitioning? {
        t := EndTransition(t, now);
      }
      if t == WonPaid {
        t := RunPaidEffects(t);
      }
      return t.outcome;
    }

    /**
     An undisturbed `refund`: it succeeds exactly for a positive amount within what is left of a paid payment, takes
     the amount that was asked for, or all that is left, and goes on to refunded when nothing is left.
     */
    method Refund(requested: Option<int>, now: int) returns (ok: bool)
      modifies this
      ensures requested.Some? ==> (ok <==> old(status) == Paid && 0 < requested.value <= amount - old(refunded))
      ensures requested.None? ==> (ok <==> old(status) == Paid && old(refunded) < amount)
      ensures !ok ==> View() == old(View())
      ensures ok ==>
        var slice := if requested.Some? then requested.value else amount - old(refunded);
        && refunded == old(refunded) + slice && refunds == old(refunds) + [slice]
        && status == (if refunded == amount then Refunded else Paid)
        && paidAt == old(paidAt) && paidEffects == old(paidEffects)
    {
      var t := BeginRefund(requested);
      if !t.Refunding? {
        return false;
      }
      t := EndRefund(t);
      if t == FullyRefunded {
        var _ := Transition(Refunded, now);
      }
      return true;
    }

    /** Cancelling: refused once paid, and wherever the graph has no such edge. */
    method Cancel(now: int) returns (outcome: Outcome)
      modifies this
      ensures outcome == Moved <==> old(status) in {Pending, Scanned}
      ensures outcome == Moved ==>
        View() == old(View()).(status := Cancelled, history := old(history) + [Change(Some(old(status)), Cancelled)])
      ensures outcome != Moved ==> View() == old(View()) && outcome == Illegal
    {
      if status == Paid || !CanTransition(status, Cancelled) {
        return Illegal;
      }
      outcome := Transition(Cancelled, now);
    }

    /** Reading a payment past its expiry expires it, if it is still waiting. */
    method ApplyLazyExpiry(expiresAt: int, now: int)
      modifies this
      ensures View() == if old(status) in {Pending, Scanned} && expiresAt < now
        then old(View()).(status := Expired, history := old(history) + [Change(Some(old(status)), Expired)])
        else old(View())
    {
      if (status == Pending || status == Scanned) && expiresAt < now {
        var _ := Transition(Expired, now);
      }
    }
  }
}
