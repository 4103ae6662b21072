/**
 The double-entry ledger (apps/api/src/ledger/ledger.service.ts).

 Every book-keeping path of the gateway ends in one write, `post`: it rounds each line to the four
 decimals of the ledger column, refuses the journal when the rounded sides differ, drops it when
 there is nothing to book, and lets the unique key on (event, reference) absorb a repeat.
 Stored amounts are integers in units of 10^-4; amounts before rounding are exact decimals.
 */
module Ledger {
  import opened Wrappers
  import opened Currencies

  type Id = nat

  /** Half a cent in ledger units: the tolerance of payouts and tie-outs. */
  const TOL_UNITS := 50

  datatype Account =
    | SettlementClearing | MerchantPayable | FeeRevenue | SubscriptionRevenue
    | CommissionExpense | CommissionPayable
    | PointsLiability | PointsExpense | PointsSettled | PointsBreakage

  datatype Direction = Debit | Credit

  /** Why points moved, as the ledger sees it. */
  datatype Movement = Earn | Redeem | Adjust | Expire | RedeemReversal

  datatype Event =
    | PaymentCaptured | PaymentRefunded | PayoutSettled | SubscriptionCollected
    | CommissionAccrued | CommissionPaid | Points(movement: Movement)

  /** A reference names one row, or a row and one of its parts ("payment:refund", "store:payout"). */
  datatype Ref = One(id: Id) | Two(whole: Id, part: Id)

  datatype Line = Line(account: Account, direction: Direction, amount: real, customer: Option<Id>)

  datatype Entry = Entry(account: Account, direction: Direction, amount: int, customer: Option<Id>)

  datatype Journal = Journal(event: Event, reference: Option<Ref>, store: Option<Id>, currency: Currency,
    lines: seq<Entry>)

  datatype Outcome = Posted | NothingToPost | AlreadyPosted | Unbalanced

  // ------------------------------------------------------------------ rounding

  /** Rounding to four decimals: to the nearest unit, an exact half going away from zero. */
  function Round4(x: real): int {
    if x >= 0.0 then (x * 10000.0 + 0.5).Floor else -((0.5 - x * 10000.0).Floor)
  }

  /** The exact half between two units, where rounding both parts of a sum goes wrong. */
  predicate IsTie(x: real) {
    x * 10000.0 - (x * 10000.0).Floor as real == 0.5
  }

  /** The nearest unit, and of two the one further from zero: this determines it. */
  lemma {:induction false} RoundsToNearest(x: real)
    ensures x >= 0.0 ==> -0.5 < Round4(x) as real - x * 10000.0 <= 0.5
    ensures x <= 0.0 ==> -0.5 <= Round4(x) as real - x * 10000.0 < 0.5
  {
  }

  /** Splitting a whole number of units in two and rounding both parts keeps the sum, unless the split is a tie. */
  lemma {:induction false} RoundSplit(whole: nat, part: real)
    requires 0.0 <= part <= whole as real / 10000.0
    ensures Round4(part) + Round4(whole as real / 10000.0 - part) == if IsTie(part) then whole + 1 else whole
  {
    var p := part * 10000.0;
    var rest := whole as real / 10000.0 - part;
    assert rest * 10000.0 == whole as real - p;
    var f := p.Floor;
    assert f as real <= p < f as real + 1.0;
    if p - f as real < 0.5 {
      assert Round4(part) == f;
      assert whole as real - p + 0.5 > (whole - f) as real;
    } else {
      assert Round4(part) == f + 1;
      if p - f as real == 0.5 {
        assert whole as real - p + 0.5 == (whole - f) as real;
        assert Round4(rest) == whole - f;
      }
    }
  }

  // ------------------------------------------------------------------- posting

  function Rounded(lines: seq<Line>): (r: seq<Entry>)
    ensures |r| == |lines|
  {
    seq(|lines|, i requires 0 <= i < |lines| =>
      Entry(lines[i].account, lines[i].direction, Round4(lines[i].amount), lines[i].customer))
  }

  function Side(lines: seq<Entry>, direction: Direction): int {
    if lines == [] then 0
    else Side(lines[..|lines| - 1], direction)
         + if lines[|lines| - 1].direction == direction then lines[|lines| - 1].amount else 0
  }

  predicate HasKey(journals: seq<Journal>, event: Event, reference: Option<Ref>) {
    exists i :: 0 <= i < |journals| && journals[i].event == event && journals[i].reference == reference
  }

  function PostTo(journals: seq<Journal>, event: Event, reference: Option<Ref>, store: Option<Id>,
      currency: Currency, lines: seq<Line>)
    : (seq<Journal>, Outcome)
  {
    var rounded := Rounded(lines);
    if Side(rounded, Debit) != Side(rounded, Credit) then (journals, Unbalanced)
    else if Side(rounded, Debit) <= 0 then (journals, NothingToPost)
    else if reference.Some? && HasKey(journals, event, reference) then (journals, AlreadyPosted)
    else (journals + [Journal(event, reference, store, currency, rounded)], Posted)
  }

  predicate BalancedJournal(j: Journal) {
    Side(j.lines, Debit) == Side(j.lines, Credit) > 0
  }

  ghost predicate OnePerKey(journals: seq<Journal>) {
    forall i, k :: 0 <= i < k < |journals| && journals[i].reference.Some?
      ==> !(journals[i].event == journals[k].event && journals[i].reference == journals[k].reference)
  }

  /** What the ledger promises of its stored journals. */
  ghost predicate WellKept(journals: seq<Journal>) {
    (forall i :: 0 <= i < |journals| ==> BalancedJournal(journals[i])) && OnePerKey(journals)
  }

  /** The stored journal and its only writer; nothing updates or deletes a journal. */
  class LedgerStore {
    var journals: seq<Journal>

    constructor ()
      ensures journals == []
    {
      journals := [];
    }

    method Post(event: Event, reference: Option<Ref>, store: Option<Id>, currency: Currency,
        lines: seq<Line>) returns (outcome: Outcome)
      modifies this
      ensures (journals, outcome) == PostTo(old(journals), event, reference, store, currency, lines)
      ensures outcome == Unbalanced <==> Side(Rounded(lines), Debit) != Side(Rounded(lines), Credit)
      ensures outcome == NothingToPost <==> Side(Rounded(lines), Debit) == Side(Rounded(lines), Credit) <= 0
      ensures outcome == AlreadyPosted <==>
        && Side(Rounded(lines), Debit) == Side(Rounded(lines), Credit) > 0 && reference.Some?
        && exists i ::
             0 <= i < |old(journals)| && old(journals)[i].event == event && old(journals)[i].reference == reference
      ensures journals == old(journals)
        + if outcome == Posted then [Journal(event, reference, store, currency, Rounded(lines))] else []
      ensures old(WellKept(journals)) ==> WellKept(journals)
      ensures outcome == Posted || outcome == AlreadyPosted ==> reference.None? || HasKey(journals, event, reference)
      ensures outcome == Posted <==> |journals| == |old(journals)| + 1
    {
      var rounded := Rounded(lines);
      var debits := Side(rounded, Debit);
      var credits := Side(rounded, Credit);
      if debits != credits {
        return Unbalanced;
      }
      if debits <= 0 {
        return NothingToPost;
      }
      if reference.Some? && HasKey(journals, event, reference) {
        return AlreadyPosted;
      }
      journals := journals + [Journal(event, reference, store, currency, rounded)];
      assert journals[|journals| - 1].event == event;
      return Posted;
    }
  }

  // ----------------------------------------------------------- zero-sum ledger

  datatype Request = Request(event: Event, reference: Option<Ref>, store: Option<Id>, currency: Currency,
    lines: seq<Line>)

  function PostAll(journals: seq<Journal>, requests: seq<Request>): seq<Journal> {
    if requests == [] then journals
    else
      var r := requests[|requests| - 1];
      PostTo(PostAll(journals, requests[..|requests| - 1]), r.event, r.reference, r.store, r.currency, r.lines).0
  }

  /** The journals a trial balance looks at: one currency, and one store or the whole platform. */
  predicate InScope(j: Journal, currency: Currency, store: Option<Id>) {
    j.currency == currency && (store.None? || j.store == store)
  }

  /** Total of one side over the journals in scope. */
  function Total(journals: seq<Journal>, currency: Currency, store: Option<Id>, direction: Direction): int {
    if journals == [] then 0
    else
      var j := journals[|journals| - 1];
      Total(journals[..|journals| - 1], currency, store, direction)
      + if InScope(j, currency, store) then Side(j.lines, direction) else 0
  }

  lemma {:induction false} PostKeepsLedger(journals: seq<Journal>, event: Event, reference: Option<Ref>,
      store: Option<Id>, currency: Currency, lines: seq<Line>)
    requires WellKept(journals)
    ensures var js := PostTo(journals, event, reference, store, currency, lines).0;
      WellKept(js) && journals <= js
  {
    hide Rounded, Side;
    var js := PostTo(journals, event, reference, store, currency, lines).0;
    if js != journals {
      assert js[..|journals|] == journals;
    }
  }

  /**
   Whatever is asked of `post`, in whatever order, every stored journal nets to exactly zero, so
   does every per-currency trial balance (platform-wide and per store), no (event, reference) is
   booked twice, and history is never rewritten.
   */
  lemma {:induction false} LedgerIsZeroSum(requests: seq<Request>, currency: Currency, store: Option<Id>)
    ensures var js := PostAll([], requests);
      && WellKept(js)
      && Total(js, currency, store, Debit) == Total(js, currency, store, Credit)
  {
    if requests != [] {
      var before := requests[..|requests| - 1];
      LedgerIsZeroSum(before, currency, store);
      var r := requests[|requests| - 1];
      hide PostTo, WellKept, Total;
      PostKeepsLedger(PostAll([], before), r.event, r.reference, r.store, r.currency, r.lines);
    }
    WellKeptBalances(PostAll([], requests), currency, store);
  }

  lemma {:induction false} LedgerOnlyGrows(journals: seq<Journal>, requests: seq<Request>)
    ensures journals <= PostAll(journals, requests)
  {
    if requests != [] {
      LedgerOnlyGrows(journals, requests[..|requests| - 1]);
    }
  }

  // ------------------------------------------------------------------ balances

  /** The filter of a balance query; an absent store or customer leaves that column unconstrained. */
  datatype Where = Where(currency: Currency, account: Account, store: Option<Id>, customer: Option<Id>)

  predicate Selects(w: Where, e: Entry) {
    e.account == w.account && (w.customer.None? || e.customer == w.customer)
  }

  /** Credits minus debits of the selected lines. */
  function Effect(lines: seq<Entry>, w: Where): int {
    if lines == [] then 0
    else
      var e := lines[|lines| - 1];
      Effect(lines[..|lines| - 1], w)
      + if !Selects(w, e) then 0 else if e.direction == Credit then e.amount else -e.amount
  }

  function JournalEffect(j: Journal, w: Where): int {
    if InScope(j, w.currency, w.store) then Effect(j.lines, w) else 0
  }

  /** Credits minus debits over the whole ledger. */
  function Position(journals: seq<Journal>, w: Where): int {
    if journals == [] then 0
    else Position(journals[..|journals| - 1], w) + JournalEffect(journals[|journals| - 1], w)
  }

  lemma {:induction false} PositionAppend(journals: seq<Journal>, j: Journal, w: Where)
    ensures Position(journals + [j], w) == Position(journals, w) + JournalEffect(j, w)
  {
    assert (journals + [j])[..|journals|] == journals;
  }

  function Of(e: Entry, direction: Direction): int {
    if e.direction == direction then e.amount else 0
  }

  function EffectOf(e: Entry, w: Where): int {
    if !Selects(w, e) then 0 else if e.direction == Credit then e.amount else -e.amount
  }

  lemma {:induction false} LastLine(lines: seq<Entry>, last: Entry, w: Where)
    ensures Side(lines + [last], Debit) == Side(lines, Debit) + Of(last, Debit)
    ensures Side(lines + [last], Credit) == Side(lines, Credit) + Of(last, Credit)
    ensures Effect(lines + [last], w) == Effect(lines, w) + EffectOf(last, w)
  {
    assert (lines + [last])[..|lines|] == lines;
  }

  lemma {:induction false} TwoLines(a: Entry, b: Entry, w: Where)
    ensures Side([a, b], Debit) == Of(a, Debit) + Of(b, Debit)
    ensures Side([a, b], Credit) == Of(a, Credit) + Of(b, Credit)
    ensures Effect([a, b], w) == EffectOf(a, w) + EffectOf(b, w)
  {
    LastLine([], a, w);
    LastLine([a], b, w);
    assert [] + [a] == [a] && [a] + [b] == [a, b];
  }

  lemma {:induction false} ThreeLines(a: Entry, b: Entry, c: Entry, w: Where)
    ensures Side([a, b, c], Debit) == Of(a, Debit) + Of(b, Debit) + Of(c, Debit)
    ensures Side([a, b, c], Credit) == Of(a, Credit) + Of(b, Credit) + Of(c, Credit)
    ensures Effect([a, b, c], w) == EffectOf(a, w) + EffectOf(b, w) + EffectOf(c, w)
  {
    TwoLines(a, b, w);
    LastLine([a, b], c, w);
    assert [a, b] + [c] == [a, b, c];
  }

  /** Total of the selected lines of one direction. */
  function DirectionOf(lines: seq<Entry>, w: Where, direction: Direction): int {
    if lines == [] then 0
    else
      var e := lines[|lines| - 1];
      DirectionOf(lines[..|lines| - 1], w, direction)
        + if Selects(w, e) && e.direction == direction then e.amount else 0
  }

  function DirectionTotal(journals: seq<Journal>, w: Where, direction: Direction): int {
    if journals == [] then 0
    else
      var j := journals[|journals| - 1];
      DirectionTotal(journals[..|journals| - 1], w, direction)
      + if InScope(j, w.currency, w.store) then DirectionOf(j.lines, w, direction) else 0
  }

  lemma {:induction false} EffectByDirection(lines: seq<Entry>, w: Where)
    ensures Effect(lines, w) == DirectionOf(lines, w, Credit) - DirectionOf(lines, w, Debit)
  {
    if lines != [] {
      EffectByDirection(lines[..|lines| - 1], w);
    }
  }

  lemma {:induction false} PositionByDirection(journals: seq<Journal>, w: Where)
    ensures Position(journals, w) == DirectionTotal(journals, w, Credit) - DirectionTotal(journals, w, Debit)
  {
    if journals != [] {
      PositionByDirection(journals[..|journals| - 1], w);
      EffectByDirection(journals[|journals| - 1].lines, w);
    }
  }

  /** Debits and credits of well-kept journals are equal in every scope. */
  lemma {:induction false} WellKeptBalances(journals: seq<Journal>, currency: Currency, store: Option<Id>)
    requires WellKept(journals)
    ensures Total(journals, currency, store, Debit) == Total(journals, currency, store, Credit)
  {
    if journals != [] {
      var before := journals[..|journals| - 1];
      forall i | 0 <= i < |before| ensures before[i] == journals[i] {}
      WellKeptBalances(before, currency, store);
    }
  }
}
