/**
 The in-process value provider (apps/api/src/providers/mock-digital-value.provider.ts): balances that
 move under idempotency keys.

 Wallets, assets, customers, keys and references are numbers; a transaction id is the next unused number.
 A balance is kept per wallet and asset.
 */
module ValueProvider {
  import opened Wrappers
  import opened Numerals

  datatype Slot = Slot(wallet: nat, asset: nat)

  datatype Line = Line(slot: Slot, delta: int)

  datatype Receipt = Receipt(transactionId: nat, reference: nat)

  datatype Movement = Movement(input: seq<Line>, result: Receipt)

  datatype State = State(
    wallets: map<nat, nat>, balances: map<Slot, int>, byKey: map<nat, Movement>, byTxnId: map<nat, Receipt>,
    nextId: nat)

  datatype ValueError =
    | IdempotencyConflict(key: nat)
    | InsufficientBalance(slot: Slot)
    | InvalidAmount(amount: string)

  type Outcome = Result<Receipt, ValueError>

  datatype Kind = Issue | Transfer(source: nat) | Redeem | Burn

  /** A call that moves value: `wallet` receives an issue or a transfer, and pays a redemption or a burn. */
  datatype Call = Call(kind: Kind, key: nat, reference: nat, wallet: nat, asset: nat, amount: string)

  const EMPTY := State(map[], map[], map[], map[], 0)

  // ------------------------------------------------------------ amounts

  function Parse(s: string): Option<nat> {
    if IsNumeral(s) then Some(NumeralValue(s)) else None
  }

  // ------------------------------------------------------------ one movement

  function Balance(balances: map<Slot, int>, slot: Slot): int {
    if slot in balances then balances[slot] else 0
  }

  function LinesOf(c: Call, amount: nat): seq<Line> {
    var here := Slot(c.wallet, c.asset);
    match c.kind
    case Issue => [Line(here, amount)]
    case Transfer(source) => [Line(Slot(source, c.asset), -(amount as int)), Line(here, amount)]
    case Redeem => [Line(here, -(amount as int))]
    case Burn => [Line(here, -(amount as int))]
  }

  predicate Affordable(balances: map<Slot, int>, l: Line) {
    Balance(balances, l.slot) + l.delta >= 0
  }

  /** The first line that a balance cannot bear. */
  function FirstRefused(balances: map<Slot, int>, lines: seq<Line>): Option<Line> {
    if lines == [] then None
    else if !Affordable(balances, lines[0]) then Some(lines[0])
    else FirstRefused(balances, lines[1..])
  }

  function Applied(balances: map<Slot, int>, lines: seq<Line>): map<Slot, int> {
    if lines == [] then balances else
    var front, l := Applied(balances, lines[..|lines| - 1]), lines[|lines| - 1];
    front[l.slot := Balance(front, l.slot) + l.delta]
  }

  function Moved(st: State, key: nat, reference: nat, lines: seq<Line>): (State, Outcome) {
    if key in st.byKey then
      (st, if st.byKey[key].input == lines then Ok(st.byKey[key].result) else Err(IdempotencyConflict(key)))
    else match FirstRefused(st.balances, lines)
    case Some(l) => (st, Err(InsufficientBalance(l.slot)))
    case None =>
      var receipt := Receipt(st.nextId, reference);
      (st.(balances := Applied(st.balances, lines),
           byKey := st.byKey[key := Movement(lines, receipt)],
           byTxnId := st.byTxnId[st.nextId := receipt],
           nextId := st.nextId + 1), Ok(receipt))
  }

  function Step(st: State, c: Call): (State, Outcome) {
    match Parse(c.amount)
    case None => (st, Err(InvalidAmount(c.amount)))
    case Some(n) => Moved(st, c.key, c.reference, LinesOf(c, n))
  }

  // ------------------------------------------------------------ runs

  datatype Event = Event(call: Call, outcome: Outcome)

  function Run(calls: seq<Call>): (State, seq<Event>) {
    if calls == [] then (EMPTY, []) else
    var (st, events) := Run(calls[..|calls| - 1]);
    var c := calls[|calls| - 1];
    var (next, outcome) := Step(st, c);
    (next, events + [Event(c, outcome)])
  }

  function Keys(calls: seq<Call>): set<nat> {
    set i | 0 <= i < |calls| :: calls[i].key
  }

  /** The successful calls, each key's first only: what the caller believes has happened. */
  function Booked(events: seq<Event>): (b: seq<Call>) {
    if events == [] then [] else
    var front, e := Booked(events[..|events| - 1]), events[|events| - 1];
    if e.outcome.Ok? && e.call.key !in Keys(front) then front + [e.call] else front
  }

  function AmountOf(c: Call): nat {
    match Parse(c.amount)
    case Some(n) => n
    case None => 0
  }

  /** What a list of lines adds to a slot. */
  function Delta(lines: seq<Line>, slot: Slot): int {
    if lines == [] then 0 else
    var l := lines[|lines| - 1];
    Delta(lines[..|lines| - 1], slot) + if l.slot == slot then l.delta else 0
  }

  /** What a call of n means for a slot: the receiver gains n, the payer loses n, and nobody else is touched. */
  function Gain(c: Call, n: nat, slot: Slot): int {
    var receives := (c.kind.Issue? || c.kind.Transfer?) && slot == Slot(c.wallet, c.asset);
    var pays := match c.kind
      case Issue => false
      case Transfer(source) => slot == Slot(source, c.asset)
      case Redeem => slot == Slot(c.wallet, c.asset)
      case Burn => slot == Slot(c.wallet, c.asset);
    (if receives then n else 0) - if pays then n else 0
  }

  /** The balance of a slot according to a list of calls. */
  function Position(calls: seq<Call>, slot: Slot): int {
    if calls == [] then 0 else
    var c := calls[|calls| - 1];
    Position(calls[..|calls| - 1], slot) + Gain(c, AmountOf(c), slot)
  }

  /** Issued minus redeemed minus burned. */
  function NetIssued(calls: seq<Call>, asset: nat): int {
    if calls == [] then 0 else
    var c := calls[|calls| - 1];
    NetIssued(calls[..|calls| - 1], asset) + SupplyChange(c, asset)
  }

  function SupplyChange(c: Call, asset: nat): int {
    if c.asset != asset then 0 else
    match c.kind
    case Issue => AmountOf(c)
    case Transfer(_) => 0
    case Redeem => -(AmountOf(c) as int)
    case Burn => -(AmountOf(c) as int)
  }

  ghost function Total(balances: map<Slot, int>, asset: nat): int {
    SumOver(balances, balances.Keys, asset)
  }

  /** The sum of the balances of an asset over some slots. */
  ghost function SumOver(balances: map<Slot, int>, slots: set<Slot>, asset: nat): int
    decreases |slots|
  {
    if slots == {} then 0 else
    var s :| s in slots;
    SumOver(balances, slots - {s}, asset) + if s.asset == asset then Balance(balances, s) else 0
  }

  function Worth(balances: map<Slot, int>, s: Slot, asset: nat): int {
    if s.asset == asset then Balance(balances, s) else 0
  }

  lemma {:induction false} SumPick(balances: map<Slot, int>, slots: set<Slot>, s: Slot, asset: nat)
    requires s in slots
    ensures SumOver(balances, slots, asset) == SumOver(balances, slots - {s}, asset) + Worth(balances, s, asset)
    decreases |slots|
  {
    var t :| t in slots && SumOver(balances, slots, asset)
      == SumOver(balances, slots - {t}, asset) + if t.asset == asset then Balance(balances, t) else 0;
    if s != t {
      SumPick(balances, slots - {t}, s, asset);
      SumPick(balances, slots - {s}, t, asset);
      assert slots - {t} - {s} == slots - {s} - {t};
    }
  }

  lemma {:induction false} SumSame(b1: map<Slot, int>, b2: map<Slot, int>, slots: set<Slot>, asset: nat)
    requires forall s :: s in slots ==> Balance(b1, s) == Balance(b2, s)
    ensures SumOver(b1, slots, asset) == SumOver(b2, slots, asset)
    decreases |slots|
  {
    if slots != {} {
      var s :| s in slots;
      SumPick(b1, slots, s, asset);
      SumPick(b2, slots, s, asset);
      SumSame(b1, b2, slots - {s}, asset);
    }
  }

  lemma {:induction false} TotalAfterUpdate(b: map<Slot, int>, s: Slot, v: int, asset: nat)
    ensures Total(b[s := v], asset) == Total(b, asset) + if s.asset == asset then v - Balance(b, s) else 0
  {
    var b' := b[s := v];
    SumPick(b', b'.Keys, s, asset);
    assert b'.Keys - {s} == b.Keys - {s};
    SumSame(b', b, b.Keys - {s}, asset);
    if s in b {
      SumPick(b, b.Keys, s, asset);
    } else {
      assert b.Keys - {s} == b.Keys;
    }
  }

  function LineSum(lines: seq<Line>, asset: nat): int {
    if lines == [] then 0 else
    var l := lines[|lines| - 1];
    LineSum(lines[..|lines| - 1], asset) + if l.slot.asset == asset then l.delta else 0
  }

  lemma {:induction false} AppliedTotal(b: map<Slot, int>, lines: seq<Line>, asset: nat)
    ensures Total(Applied(b, lines), asset) == Total(b, asset) + LineSum(lines, asset)
  {
    if lines != [] {
      var n := |lines| - 1;
      AppliedTotal(b, lines[..n], asset);
      var front, l := Applied(b, lines[..n]), lines[n];
      TotalAfterUpdate(front, l.slot, Balance(front, l.slot) + l.delta, asset);
    }
  }

  lemma {:induction false} AppliedBalance(b: map<Slot, int>, lines: seq<Line>, slot: Slot)
    ensures Balance(Applied(b, lines), slot) == Balance(b, slot) + Delta(lines, slot)
  {
    if lines != [] {
      AppliedBalance(b, lines[..|lines| - 1], slot);
    }
  }

  lemma {:induction false} OneLine(l: Line, slot: Slot, asset: nat)
    ensures Delta([l], slot) == if l.slot == slot then l.delta else 0
    ensures LineSum([l], asset) == if l.slot.asset == asset then l.delta else 0
  {
    assert [l][..0] == [];
  }

  lemma {:induction false} TwoLines(l: Line, m: Line, slot: Slot, asset: nat)
    ensures Delta([l, m], slot) == Delta([l], slot) + Delta([m], slot)
    ensures LineSum([l, m], asset) == LineSum([l], asset) + LineSum([m], asset)
  {
    assert [l, m][..1] == [l];
    OneLine(m, slot, asset);
  }

  lemma {:induction false} NoneRefused(b: map<Slot, int>, lines: seq<Line>)
    ensures FirstRefused(b, lines) == None <==> forall i :: 0 <= i < |lines| ==> Affordable(b, lines[i])
  {
    if lines != [] {
      NoneRefused(b, lines[1..]);
      assert forall i :: 1 <= i < |lines| ==> lines[i] == lines[1..][i - 1];
      assert forall i :: 0 <= i < |lines| - 1 ==> lines[1..][i] == lines[i + 1];
    }
  }

  /** What the lines of a call do to the supply of an asset. */
  lemma {:induction false} LinesMean(c: Call, n: nat, asset: nat)
    requires Parse(c.amount) == Some(n)
    ensures LineSum(LinesOf(c, n), asset) == SupplyChange(c, asset)
  {
    LinesSplit(c, n, Slot(0, asset), asset);
  }

  lemma {:induction false} LinesSplit(c: Call, n: nat, slot: Slot, asset: nat)
    ensures var lines := LinesOf(c, n);
      && (|lines| == 1 ==>
          && Delta(lines, slot) == (if lines[0].slot == slot then lines[0].delta else 0)
          && LineSum(lines, asset) == if c.asset == asset then lines[0].delta else 0)
      && (|lines| == 2 ==>
          && Delta(lines, slot)
               == (if lines[0].slot == slot then -(n as int) else 0) + (if lines[1].slot == slot then n else 0)
          && LineSum(lines, asset) == 0)
  {
    var lines := LinesOf(c, n);
    OneLine(lines[0], slot, asset);
    if c.kind.Transfer? {
      TwoLines(lines[0], lines[1], slot, asset);
      OneLine(lines[1], slot, asset);
    }
  }

  lemma {:induction false} LinesGain(c: Call, n: nat, slot: Slot)
    ensures Delta(LinesOf(c, n), slot) == Gain(c, n, slot)
  {
    LinesSplit(c, n, slot, c.asset);
  }

  lemma {:induction false} AcceptedStaysNonNegative(b: map<Slot, int>, c: Call, n: nat, slot: Slot)
    requires Balance(b, slot) >= 0 && FirstRefused(b, LinesOf(c, n)) == None
    ensures Balance(b, slot) + Delta(LinesOf(c, n), slot) >= 0
  {
    NoneRefused(b, LinesOf(c, n));
    assert Affordable(b, LinesOf(c, n)[0]);
    LinesSplit(c, n, slot, c.asset);
  }

  // ------------------------------------------------------------ the invariant

  ghost predicate Agrees(st: State, log: seq<Call>) {
    forall slot: Slot :: Balance(st.balances, slot) == Position(log, slot) >= 0
  }

  predicate KeysRecorded(st: State, log: seq<Call>) {
    && st.byKey.Keys == Keys(log)
    && (forall i :: 0 <= i < |log| ==>
        log[i].key in st.byKey && st.byKey[log[i].key].input == LinesOf(log[i], AmountOf(log[i])))
  }

  predicate Distinct(log: seq<Call>) {
    forall i, j :: 0 <= i < j < |log| ==> log[i].key != log[j].key
  }

  predicate ReceiptsKept(st: State) {
    && (forall k :: k in st.byKey ==>
        st.byKey[k].result.transactionId in st.byTxnId
        && st.byTxnId[st.byKey[k].result.transactionId] == st.byKey[k].result)
    && (forall t :: t in st.byTxnId ==> t < st.nextId && st.byTxnId[t].transactionId == t)
    && (forall k, l :: k in st.byKey && l in st.byKey && k != l ==>
        st.byKey[k].result.transactionId != st.byKey[l].result.transactionId)
  }

  ghost predicate SupplyAgrees(st: State, log: seq<Call>) {
    forall asset: nat :: Total(st.balances, asset) == NetIssued(log, asset)
  }

  lemma {:induction false} MoveKeepsBalances(st: State, c: Call, log: seq<Call>)
    requires Agrees(st, log) && SupplyAgrees(st, log)
    requires Parse(c.amount).Some? && FirstRefused(st.balances, LinesOf(c, AmountOf(c))) == None
    ensures var b := Applied(st.balances, LinesOf(c, AmountOf(c)));
      && Agrees(st.(balances := b), log + [c])
      && SupplyAgrees(st.(balances := b), log + [c])
  {
    var n := AmountOf(c);
    var b := Applied(st.balances, LinesOf(c, n));
    assert (log + [c])[..|log|] == log;
    forall slot: Slot ensures Balance(b, slot) == Position(log + [c], slot) >= 0 {
      AppliedBalance(st.balances, LinesOf(c, n), slot);
      AcceptedStaysNonNegative(st.balances, c, n, slot);
      LinesGain(c, n, slot);
    }
    forall asset: nat ensures Total(b, asset) == NetIssued(log + [c], asset) {
      AppliedTotal(st.balances, LinesOf(c, n), asset);
      LinesMean(c, n, asset);
    }
  }

  lemma {:induction false} KeysGrow(log: seq<Call>, c: Call)
    ensures Keys(log + [c]) == Keys(log) + {c.key}
  {
    var longer := log + [c];
    assert longer[|log|] == c;
    forall i | 0 <= i < |log| ensures log[i].key in Keys(longer) {
      assert longer[i] == log[i];
    }
  }

  lemma {:induction false} FreshKeyIsRecorded(st: State, c: Call, m: Movement, log: seq<Call>)
    requires KeysRecorded(st, log) && Distinct(log) && c.key !in st.byKey
    requires m.input == LinesOf(c, AmountOf(c))
    ensures KeysRecorded(st.(byKey := st.byKey[c.key := m]), log + [c]) && Distinct(log + [c])
  {
    KeysGrow(log, c);
    forall i | 0 <= i < |log| ensures log[i].key != c.key {
      assert log[i].key in Keys(log);
    }
  }

  /** Everything that holds after any run. */
  ghost predicate Inv(st: State, log: seq<Call>) {
    && Agrees(st, log)
    && SupplyAgrees(st, log)
    && KeysRecorded(st, log)
    && Distinct(log)
    && ReceiptsKept(st)
  }

  /** The log after one more event. */
  function Book(log: seq<Call>, c: Call, outcome: Outcome): seq<Call> {
    if outcome.Ok? && c.key !in Keys(log) then log + [c] else log
  }

  lemma {:induction false} StepKeepsInv(st: State, c: Call, log: seq<Call>)
    requires Inv(st, log)
    ensures var (next, outcome) := Step(st, c);
      Inv(next, Book(log, c, outcome))
  {
    var (next, outcome) := Step(st, c);
    if Parse(c.amount).Some? && c.key !in st.byKey && outcome.Ok? {
      var n := AmountOf(c);
      var m := Movement(LinesOf(c, n), outcome.value);
      MoveKeepsBalances(st, c, log);
      FreshKeyIsRecorded(st, c, m, log);
      assert next.byKey == st.byKey[c.key := m];
      ReceiptsGrow(st, c.key, m, next);
      assert KeysRecorded(next, log + [c]);
      assert Agrees(next, log + [c]) && SupplyAgrees(next, log + [c]);
    }
  }

  lemma {:induction false} ReceiptsGrow(st: State, key: nat, m: Movement, next: State)
    requires ReceiptsKept(st) && key !in st.byKey && m.result.transactionId == st.nextId
    requires next.byKey == st.byKey[key := m]
    requires next.byTxnId == st.byTxnId[st.nextId := m.result] && next.nextId == st.nextId + 1
    ensures ReceiptsKept(next)
  {
  }

  lemma {:induction false} RunKeepsInv(calls: seq<Call>)
    ensures var (st, events) := Run(calls);
      |events| == |calls| && Inv(st, Booked(events))
  {
    if calls == [] {
      assert Balance(map[], Slot(0, 0)) == 0;
    } else {
      var n := |calls| - 1;
      RunKeepsInv(calls[..n]);
      var (st, events) := Run(calls[..n]);
      var (next, outcome) := Step(st, calls[n]);
      StepKeepsInv(st, calls[n], Booked(events));
      var all := events + [Event(calls[n], outcome)];
      assert all[..|events|] == events;
      assert Booked(all) == Book(Booked(events), calls[n], outcome);
    }
  }

  /** After any calls a balance is what the distinct successful keys moved there, and never negative. */
  lemma {:induction false} BalanceIsTheLedger(calls: seq<Call>, slot: Slot)
    ensures var (st, events) := Run(calls);
      Balance(st.balances, slot) == Position(Booked(events), slot) >= 0
  {
    RunKeepsInv(calls);
  }

  /** The supply of an asset is what was issued, less what was redeemed and burned. */
  lemma {:induction false} SupplyIsConserved(calls: seq<Call>, asset: nat)
    ensures var (st, events) := Run(calls);
      Total(st.balances, asset) == NetIssued(Booked(events), asset)
  {
    RunKeepsInv(calls);
  }

  lemma {:induction false} KeyStays(st: State, key: nat, calls: seq<Call>)
    requires key in st.byKey
    ensures key in RunFrom(st, calls).byKey && RunFrom(st, calls).byKey[key] == st.byKey[key]
  {
    if calls != [] {
      KeyStays(st, key, calls[..|calls| - 1]);
    }
  }

  function RunFrom(st: State, calls: seq<Call>): State {
    if calls == [] then st else Step(RunFrom(st, calls[..|calls| - 1]), calls[|calls| - 1]).0
  }

  /**
   Once a call has succeeded, repeating its key changes nothing whatever happened in between: the same
   movement gets the first receipt again, a different one is refused.
   */
  lemma {:induction false} ReplayChangesNothing(st: State, first: Call, between: seq<Call>, again: Call)
    requires Step(st, first).1.Ok? && again.key == first.key
    ensures var later := RunFrom(Step(st, first).0, between);
      Step(later, again) == (later,
        if Parse(again.amount) == None then Err(InvalidAmount(again.amount))
        else if LinesOf(again, AmountOf(again)) == LinesOf(first, AmountOf(first)) then Step(st, first).1
        else Err(IdempotencyConflict(again.key)))
  {
    KeyStays(Step(st, first).0, first.key, between);
  }

  /** Which calls count as the same movement. A redemption and a burn do; so do amounts written differently. */
  lemma {:induction false} SameLinesIff(a: Call, b: Call)
    ensures LinesOf(a, AmountOf(a)) == LinesOf(b, AmountOf(b)) <==>
      && a.wallet == b.wallet && a.asset == b.asset
      && match a.kind
         case Transfer(s) => b.kind == Transfer(s) && AmountOf(a) == AmountOf(b)
         case Issue => !b.kind.Transfer? && AmountOf(a) == AmountOf(b) && (b.kind == Issue || AmountOf(a) == 0)
         case _ => !b.kind.Transfer? && AmountOf(a) == AmountOf(b) && (b.kind != Issue || AmountOf(a) == 0)
  {
    var l, m := LinesOf(a, AmountOf(a)), LinesOf(b, AmountOf(b));
    if l == m {
      assert l[0] == m[0] && |l| == |m|;
      if a.kind.Transfer? {
        assert l[1] == m[1];
      }
    }
  }

  /**
   So a burn under the key of an accepted redemption of the same amount is answered with that redemption's
   receipt, whatever came in between, and nothing is burned.
   */
  lemma {:induction false} BurnReplaysRedemption(st: State, redeem: Call, between: seq<Call>)
    requires redeem.kind == Redeem && Step(st, redeem).1.Ok?
    ensures var later := RunFrom(Step(st, redeem).0, between);
      Step(later, redeem.(kind := Burn)) == (later, Step(st, redeem).1)
  {
    SameLinesIff(redeem.(kind := Burn), redeem);
    ReplayChangesNothing(st, redeem, between, redeem.(kind := Burn));
  }

  lemma {:induction false} RunOnce(calls: seq<Call>, c: Call)
    ensures var (st, events) := Run(calls);
      Run(calls + [c]) == (Step(st, c).0, events + [Event(c, Step(st, c).1)])
    ensures |Run(calls).1| == |calls|
  {
    assert (calls + [c])[..|calls|] == calls;
    RunKeepsInv(calls);
  }

  /**
   A refused call leaves no trace: taken out of any history, it changes neither the final state nor the outcome
   of any other call, so in particular its key is as free as before.
   */
  lemma {:induction false} FailureLeavesNoTrace(before: seq<Call>, c: Call, after: seq<Call>)
    requires Step(Run(before).0, c).1.Err?
    ensures var (st, events) := Run(before + [c] + after);
      var (st', events') := Run(before + after);
      && st == st'
      && |events'| == |before| + |after|
      && events == events'[..|before|] + [Event(c, Step(Run(before).0, c).1)] + events'[|before|..]
  {
    hide Run, Step;
    if after == [] {
      assert before + [c] + after == before + [c] && before + after == before;
      RunOnce(before, c);
      RefusalChangesNothing(Run(before).0, c);
      var events := Run(before).1;
      assert events[..|before|] == events && events[|before|..] == [];
    } else {
      var n := |after| - 1;
      FailureLeavesNoTrace(before, c, after[..n]);
      assert before + [c] + after == (before + [c] + after[..n]) + [after[n]];
      assert before + after == (before + after[..n]) + [after[n]];
      RunOnce(before + [c] + after[..n], after[n]);
      RunOnce(before + after[..n], after[n]);
    }
  }

  lemma {:induction false} RefusalChangesNothing(st: State, c: Call)
    ensures Step(st, c).1.Err? ==> Step(st, c).0 == st
  {
  }

  /** A fresh payment succeeds exactly when the payer holds the amount, and an issue always does. */
  lemma {:induction false} AcceptedIff(st: State, c: Call)
    requires c.key !in st.byKey && Parse(c.amount).Some?
    requires forall s: Slot :: Balance(st.balances, s) >= 0
    ensures Step(st, c).1.Ok? <==>
      match c.kind
      case Issue => true
      case Transfer(source) => AmountOf(c) <= Balance(st.balances, Slot(source, c.asset))
      case _ => AmountOf(c) <= Balance(st.balances, Slot(c.wallet, c.asset))
  {
    var lines := LinesOf(c, AmountOf(c));
    NoneRefused(st.balances, lines);
    assert Affordable(st.balances, lines[0]) <==> Balance(st.balances, lines[0].slot) + lines[0].delta >= 0;
    if c.kind.Transfer? {
      assert Affordable(st.balances, lines[1]);
    }
  }

  /**
   A call under a fresh key, in full: an amount that is no numeral is refused; a payer that does not hold the amount
   is named and nothing changes; else the receiver gains and the payer loses exactly the amount, and the receipt, with
   the next id and the caller's reference, is kept under the key and under its id.
   */
  lemma {:induction false} FreshCall(st: State, c: Call)
    requires c.key !in st.byKey && forall s: Slot :: Balance(st.balances, s) >= 0
    ensures var (next, outcome) := Step(st, c);
      if !IsNumeral(c.amount) then outcome == Err(InvalidAmount(c.amount)) && next == st
      else
        var n := NumeralValue(c.amount);
        var payer := Slot(if c.kind.Transfer? then c.kind.source else c.wallet, c.asset);
        if !c.kind.Issue? && Balance(st.balances, payer) < n then
          outcome == Err(InsufficientBalance(payer)) && next == st
        else
          && outcome == Ok(Receipt(st.nextId, c.reference))
          && (forall slot: Slot :: Balance(next.balances, slot) == Balance(st.balances, slot) + Gain(c, n, slot))
          && next.byKey.Keys == st.byKey.Keys + {c.key} && next.byKey[c.key].result == outcome.value
          && (forall k :: k in st.byKey ==> next.byKey[k] == st.byKey[k])
          && next.byTxnId == st.byTxnId[st.nextId := outcome.value]
          && next.nextId == st.nextId + 1 && next.wallets == st.wallets
  {
    if IsNumeral(c.amount) {
      var n := NumeralValue(c.amount);
      var lines := LinesOf(c, n);
      FirstIsRefused(st.balances, lines);
      hide Delta, Applied, FirstRefused;
      forall slot: Slot
        ensures Balance(Applied(st.balances, lines), slot) == Balance(st.balances, slot) + Gain(c, n, slot)
      {
        AppliedBalance(st.balances, lines, slot);
        LinesGain(c, n, slot);
      }
    }
  }

  lemma {:induction false} FirstIsRefused(b: map<Slot, int>, lines: seq<Line>)
    requires 1 <= |lines| <= 2 && (|lines| == 2 ==> Affordable(b, lines[1]))
    ensures FirstRefused(b, lines) == if Affordable(b, lines[0]) then None else Some(lines[0])
  {
    if |lines| == 2 {
      assert lines[1..][0] == lines[1] && lines[1..][1..] == [];
      assert FirstRefused(b, lines[1..]) == None;
    } else {
      assert lines[1..] == [];
    }
  }

  // ------------------------------------------------------------ the provider

  class MockDigitalValueProvider {
    var walletsByCustomer: map<nat, nat>
    var balances: map<Slot, int>
    var byKey: map<nat, Movement>
    var byTxnId: map<nat, Receipt>
    var nextId: nat

    function View(): State
      reads this
    {
      State(walletsByCustomer, balances, byKey, byTxnId, nextId)
    }

    constructor ()
      ensures View() == EMPTY
    {
      walletsByCustomer, balances, byKey, byTxnId, nextId := map[], map[], map[], map[], 0;
    }

    method CreateWallet(customer: nat) returns (wallet: nat, existing: bool)
      modifies this
      ensures existing == (customer in old(walletsByCustomer))
      ensures customer in walletsByCustomer && walletsByCustomer[customer] == wallet
      ensures existing ==> View() == old(View())
      ensures !existing ==> wallet == old(nextId) && View() == old(View()).(
          wallets := old(walletsByCustomer)[customer := wallet], nextId := old(nextId) + 1)
    {
      if customer in walletsByCustomer {
        return walletsByCustomer[customer], true;
      }
      wallet, existing := nextId, false;
      nextId := nextId + 1;
      walletsByCustomer := walletsByCustomer[customer := wallet];
    }

    method Move(key: nat, reference: nat, lines: seq<Line>) returns (outcome: Outcome)
      modifies this
      ensures (View(), outcome) == Moved(old(View()), key, reference, lines)
    {
      if key in byKey {
        var prior := byKey[key];
        if prior.input != lines {
          return Err(IdempotencyConflict(key));
        }
        return Ok(prior.result);
      }
      var i := 0;
      while i < |lines|
        invariant 0 <= i <= |lines|
        invariant FirstRefused(balances, lines) == FirstRefused(balances, lines[i..])
      {
        var l := lines[i];
        if Balance(balances, l.slot) + l.delta < 0 {
          return Err(InsufficientBalance(l.slot));
        }
        assert lines[i..][1..] == lines[i + 1..];
        i := i + 1;
      }
      for j := 0 to |lines|
        invariant balances == Applied(old(balances), lines[..j])
        invariant walletsByCustomer == old(walletsByCustomer) && byKey == old(byKey)
        invariant byTxnId == old(byTxnId) && nextId == old(nextId)
      {
        var l := lines[j];
        assert lines[..j + 1][..j] == lines[..j];
        balances := balances[l.slot := Balance(balances, l.slot) + l.delta];
      }
      assert lines[..|lines|] == lines;
      var receipt := Receipt(nextId, reference);
      nextId := nextId + 1;
      byKey := byKey[key := Movement(lines, receipt)];
      byTxnId := byTxnId[receipt.transactionId := receipt];
      return Ok(receipt);
    }

    method Issue(key: nat, reference: nat, to: nat, asset: nat, amount: string) returns (outcome: Outcome)
      modifies this
      ensures (View(), outcome) == Step(old(View()), Call(Kind.Issue, key, reference, to, asset, amount))
    {
      var n := Parse(amount);
      if n == None {
        return Err(InvalidAmount(amount));
      }
      outcome := Move(key, reference, [Line(Slot(to, asset), n.value)]);
    }

    method Transfer(key: nat, reference: nat, source: nat, to: nat, asset: nat, amount: string)
      returns (outcome: Outcome)
      modifies this
      ensures (View(), outcome) == Step(old(View()), Call(Kind.Transfer(source), key, reference, to, asset, amount))
    {
      var n := Parse(amount);
      if n == None {
        return Err(InvalidAmount(amount));
      }
      var debit := Line(Slot(source, asset), -(n.value as int));
      outcome := Move(key, reference, [debit, Line(Slot(to, asset), n.value)]);
    }

    method Redeem(key: nat, reference: nat, source: nat, asset: nat, amount: string) returns (outcome: Outcome)
      modifies this
      ensures (View(), outcome) == Step(old(View()), Call(Kind.Redeem, key, reference, source, asset, amount))
    {
      var n := Parse(amount);
      if n == None {
        return Err(InvalidAmount(amount));
      }
      outcome := Move(key, reference, [Line(Slot(source, asset), -(n.value as int))]);
    }

    method Burn(key: nat, reference: nat, source: nat, asset: nat, amount: string) returns (outcome: Outcome)
      modifies this
      ensures (View(), outcome) == Step(old(View()), Call(Kind.Burn, key, reference, source, asset, amount))
    {
      var n := Parse(amount);
      if n == None {
        return Err(InvalidAmount(amount));
      }
      outcome := Move(key, reference, [Line(Slot(source, asset), -(n.value as int))]);
    }
  }
}
