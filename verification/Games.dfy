/**
 The prize draw (apps/api/src/games/games.service.ts, claimPrize): a weighted choice, and the raced
 inventory behind it.

 A game's prizes are numbered. A random draw is a real number from the unit interval, scaled by the total
 weight as in the source.
 */
module Games {
  import opened Wrappers

  datatype Prize = Prize(weight: int, stock: int, awarded: int)

  const UNLIMITED := -1
  const MAX_ATTEMPTS := 10

  // ------------------------------------------------------------ the weighted choice

  function WeightSum(weights: seq<int>): int {
    if weights == [] then 0 else WeightSum(weights[..|weights| - 1]) + weights[|weights| - 1]
  }

  /** The weight of the first i prizes. */
  function Prefix(weights: seq<int>, i: nat): int
    requires i <= |weights|
  {
    WeightSum(weights[..i])
  }

  predicate Positive(weights: seq<int>) {
    forall i :: 0 <= i < |weights| ==> weights[i] > 0
  }

  /** A roll falls to prize i. */
  predicate Hits(weights: seq<int>, roll: real, i: nat) {
    i < |weights| && Prefix(weights, i) as real <= roll < Prefix(weights, i + 1) as real
  }

  /** A roll lies past the share of prize i. */
  predicate Past(weights: seq<int>, roll: real, i: nat) {
    i < |weights| && roll >= Prefix(weights, i + 1) as real
  }

  /** The first index whose share the roll does not pass, and the last one if it passes them all. */
  method Choose(weights: seq<int>, start: real) returns (chosen: nat)
    requires weights != []
    ensures chosen < |weights|
    ensures forall i: nat :: i < chosen ==> Past(weights, start, i)
    ensures !Past(weights, start, chosen) || chosen == |weights| - 1
  {
    var roll := start;
    chosen := |weights| - 1;
    for i := 0 to |weights|
      invariant roll == start - Prefix(weights, i) as real
      invariant forall j: nat :: j < i ==> Past(weights, start, j)
      invariant chosen == |weights| - 1
    {
      PrefixStep(weights, i);
      roll := roll - weights[i] as real;
      if roll < 0.0 {
        chosen := i;
        return;
      }
    }
  }

  /** Within the total weight the choice is the prize the roll falls to; the default is never needed. */
  lemma {:induction false} ChoiceHits(weights: seq<int>, roll: real, chosen: nat)
    requires 0.0 <= roll < WeightSum(weights) as real && chosen < |weights|
    requires forall i: nat :: i < chosen ==> Past(weights, roll, i)
    requires !Past(weights, roll, chosen) || chosen == |weights| - 1
    ensures Hits(weights, roll, chosen)
  {
    assert weights[..|weights|] == weights && weights[..0] == [];
    if chosen > 0 {
      assert Past(weights, roll, chosen - 1);
    }
  }

  lemma {:induction false} PrefixStep(weights: seq<int>, i: nat)
    requires i < |weights|
    ensures Prefix(weights, i + 1) == Prefix(weights, i) + weights[i]
  {
    assert weights[..i + 1][..i] == weights[..i];
  }

  lemma {:induction false} PrefixRises(weights: seq<int>, i: nat, j: nat)
    requires Positive(weights) && i <= j <= |weights|
    ensures Prefix(weights, i) + (j - i) <= Prefix(weights, j)
  {
    if i < j {
      PrefixRises(weights, i, j - 1);
      PrefixStep(weights, j - 1);
    }
  }

  /** A roll within the total weight falls to exactly one prize, the one the loop picks. */
  lemma {:induction false} ExactlyOneHit(weights: seq<int>, roll: real) returns (i: nat)
    requires Positive(weights) && 0.0 <= roll < WeightSum(weights) as real
    ensures Hits(weights, roll, i)
    ensures forall j: nat :: Hits(weights, roll, j) ==> j == i
  {
    assert weights[..|weights|] == weights && weights[..0] == [];
    i := FindHit(weights, roll, |weights|);
    forall j: nat | Hits(weights, roll, j) ensures j == i {
      if j < i {
        PrefixRises(weights, j + 1, i);
      } else if i < j {
        PrefixRises(weights, i + 1, j);
      }
    }
  }

  lemma {:induction false} FindHit(weights: seq<int>, roll: real, n: nat) returns (i: nat)
    requires n <= |weights| && 0.0 <= roll < Prefix(weights, n) as real
    ensures Hits(weights, roll, i)
  {
    if n > 0 && roll < Prefix(weights, n - 1) as real {
      i := FindHit(weights, roll, n - 1);
    } else {
      i := n - 1;
    }
  }

  predicate WholeHit(weights: seq<int>, roll: int, i: nat) {
    Hits(weights, roll as real, i)
  }

  /** The whole-number rolls that fall to prize i. */
  function RollsFor(weights: seq<int>, i: nat): set<int>
    requires i < |weights|
  {
    set r: int | 0 <= r < WeightSum(weights) && WholeHit(weights, r, i)
  }

  predicate Within(lo: int, r: int, hi: int) {
    lo <= r < hi
  }

  function Interval(lo: int, hi: int): set<int> {
    set r: int | lo <= r < hi && Within(lo, r, hi)
  }

  lemma {:induction false} IntervalSize(lo: int, hi: int)
    requires lo <= hi
    ensures |Interval(lo, hi)| == hi - lo
    decreases hi - lo
  {
    if lo < hi {
      IntervalSize(lo, hi - 1);
      forall r: int ensures r in Interval(lo, hi) <==> r in Interval(lo, hi - 1) + {hi - 1} {
        assert Within(lo, r, hi) <==> Within(lo, r, hi - 1) || r == hi - 1;
      }
      assert Interval(lo, hi) == Interval(lo, hi - 1) + {hi - 1};
    } else {
      assert Interval(lo, hi) == {};
    }
  }

  /** The draw is exactly weighted: out of the whole-number rolls, as many fall to a prize as it weighs. */
  lemma {:induction false} ExactlyWeighted(weights: seq<int>, i: nat)
    requires Positive(weights) && i < |weights|
    ensures |RollsFor(weights, i)| == weights[i]
  {
    var lo, hi := Prefix(weights, i), Prefix(weights, i + 1);
    PrefixRises(weights, 0, i);
    PrefixRises(weights, i + 1, |weights|);
    assert weights[..|weights|] == weights && weights[..0] == [];
    PrefixStep(weights, i);
    forall r: int ensures r in RollsFor(weights, i) <==> r in Interval(lo, hi) {
      assert Within(lo, r, hi) <==> lo <= r < hi;
    }
    assert RollsFor(weights, i) == Interval(lo, hi);
    IntervalSize(lo, hi);
  }

  // ------------------------------------------------------------ claims as a protocol

  datatype Phase =
    | Reading
    | Chosen(prize: nat, stock: int)
    | Won(prize: nat)
    | Nothing

  datatype Claim = Claim(phase: Phase, excluded: set<nat>, attempts: nat)

  datatype State = State(prizes: seq<Prize>, claims: seq<Claim>)

  const FRESH := Claim(Reading, {}, 0)

  predicate Available(p: Prize) {
    p.weight > 0 && (p.stock == UNLIMITED || p.stock > 0)
  }

  predicate Candidate(prizes: seq<Prize>, excluded: set<nat>, id: nat) {
    id < |prizes| && Available(prizes[id]) && id !in excluded
  }

  /** A listing, in some order, of the candidates among the first n prizes. */
  predicate ListsUpTo(listing: seq<nat>, prizes: seq<Prize>, excluded: set<nat>, n: nat)
    requires n <= |prizes|
  {
    && (forall i :: 0 <= i < |listing| ==> listing[i] < n && Candidate(prizes, excluded, listing[i]))
    && (forall id :: 0 <= id < n && Candidate(prizes, excluded, id) ==> id in listing)
    && (forall i, j :: 0 <= i < j < |listing| ==> listing[i] != listing[j])
  }

  /** A listing of all candidates, as the store returns them. */
  predicate Lists(listing: seq<nat>, prizes: seq<Prize>, excluded: set<nat>) {
    ListsUpTo(listing, prizes, excluded, |prizes|)
  }

  function Weights(listing: seq<nat>, prizes: seq<Prize>): (w: seq<int>)
    requires forall i :: 0 <= i < |listing| ==> listing[i] < |prizes|
    ensures |w| == |listing|
  {
    seq(|listing|, i requires 0 <= i < |listing| => prizes[listing[i]].weight)
  }

  /** Steps of one claim: read the prizes and draw, or claim the prize drawn. */
  datatype Event =
    | Read(claim: nat, listing: seq<nat>, pick: nat, unit: real)
    | Take(claim: nat)

  /** What can happen next. The pick is the one the draw falls to. */
  predicate Enabled(s: State, e: Event) {
    && e.claim < |s.claims|
    && var c := s.claims[e.claim];
       match e
       case Read(_, listing, pick, unit) =>
         && c.phase == Reading
         && Lists(listing, s.prizes, c.excluded)
         && (listing != [] ==> Draws(Weights(listing, s.prizes), unit, pick))
       case Take(_) => c.phase.Chosen? && c.phase.prize < |s.prizes|
  }

  predicate Draws(weights: seq<int>, unit: real, pick: nat) {
    0.0 <= unit < 1.0 && Hits(weights, unit * WeightSum(weights) as real, pick)
  }

  function AfterRead(prizes: seq<Prize>, c: Claim, listing: seq<nat>, pick: nat): Claim
    requires listing != [] ==> pick < |listing| && listing[pick] < |prizes|
  {
    if listing == [] then c.(phase := Nothing)
    else c.(phase := Chosen(listing[pick], prizes[listing[pick]].stock))
  }

  /** The conditional claim of the prize drawn: unlimited prizes always, finite ones while stock lasts. */
  function AfterTake(prizes: seq<Prize>, c: Claim): (seq<Prize>, Claim)
    requires c.phase.Chosen? && c.phase.prize < |prizes|
  {
    var id := c.phase.prize;
    var p := prizes[id];
    if c.phase.stock == UNLIMITED then (prizes[id := p.(awarded := p.awarded + 1)], c.(phase := Won(id)))
    else if p.stock > 0 then
      (prizes[id := p.(stock := p.stock - 1, awarded := p.awarded + 1)], c.(phase := Won(id)))
    else
      (prizes, Claim(if c.attempts + 1 < MAX_ATTEMPTS then Reading else Nothing, c.excluded + {id}, c.attempts + 1))
  }

  function Step(s: State, e: Event): State {
    if !Enabled(s, e) then s else
    var c := s.claims[e.claim];
    match e
    case Read(t, listing, pick, _) => s.(claims := s.claims[t := AfterRead(s.prizes, c, listing, pick)])
    case Take(t) =>
      var (prizes, next) := AfterTake(s.prizes, c);
      State(prizes, s.claims[t := next])
  }

  /** Any interleaving: events that cannot happen when they come are skipped. */
  function RunFrom(s: State, events: seq<Event>): State {
    if events == [] then s else Step(RunFrom(s, events[..|events| - 1]), events[|events| - 1])
  }

  /** Any number of claims on a game. */
  function Start(prizes: seq<Prize>, n: nat): State {
    State(prizes, seq(n, i => FRESH))
  }

  // ------------------------------------------------------------ what every run keeps

  /** The claims that won a prize. */
  function Wins(claims: seq<Claim>, id: nat): nat {
    if claims == [] then 0 else
    Wins(claims[..|claims| - 1], id) + if claims[|claims| - 1].phase == Won(id) then 1 else 0
  }

  /** A prize against its first state: stock and awards add up, and nothing is sold that is not there. */
  predicate Accounted(p0: Prize, p: Prize, wins: nat) {
    && p.weight == p0.weight
    && p.awarded == p0.awarded + wins
    && (if p0.stock >= 0 then 0 <= p.stock && p.stock + p.awarded == p0.stock + p0.awarded else p.stock == p0.stock)
  }

  predicate AllAccounted(prizes: seq<Prize>, s: State) {
    && |s.prizes| == |prizes|
    && forall id :: 0 <= id < |prizes| ==> Accounted(prizes[id], s.prizes[id], Wins(s.claims, id))
  }

  predicate Exhausted(prizes: seq<Prize>, id: nat) {
    id < |prizes| && prizes[id].stock == 0
  }

  /** Every prize is out of the draw: without weight, or neither unlimited nor in stock. */
  predicate NothingAvailable(prizes: seq<Prize>) {
    forall id :: 0 <= id < |prizes| ==> prizes[id].weight <= 0 || (prizes[id].stock != -1 && prizes[id].stock <= 0)
  }

  /** A claim has only ever excluded prizes that are gone for good. */
  predicate ClaimOk(prizes: seq<Prize>, c: Claim) {
    && (forall id :: id in c.excluded ==> Exhausted(prizes, id))
    && |c.excluded| == c.attempts <= MAX_ATTEMPTS
    && match c.phase
       case Reading => c.attempts < MAX_ATTEMPTS
       case Chosen(id, stock) =>
         && id < |prizes| && id !in c.excluded && c.attempts < MAX_ATTEMPTS
         && (stock == UNLIMITED <==> prizes[id].stock == UNLIMITED)
         && prizes[id].stock >= UNLIMITED
       case Won(id) => id < |prizes|
       case Nothing => c.attempts == MAX_ATTEMPTS || NothingAvailable(prizes)
  }

  predicate Inv(prizes: seq<Prize>, s: State) {
    && AllAccounted(prizes, s)
    && forall t :: 0 <= t < |s.claims| ==> ClaimOk(s.prizes, s.claims[t])
  }

  lemma {:induction false} WinsAfter(claims: seq<Claim>, t: nat, c: Claim, id: nat)
    requires t < |claims|
    ensures Wins(claims[t := c], id)
         == Wins(claims, id) - (if claims[t].phase == Won(id) then 1 else 0) + (if c.phase == Won(id) then 1 else 0)
  {
    var n := |claims| - 1;
    var changed := claims[t := c];
    if t == n {
      assert changed[..n] == claims[..n];
    } else {
      assert changed[..n] == claims[..n][t := c];
      WinsAfter(claims[..n], t, c, id);
    }
  }

  /** Prizes only ever run out. */
  predicate OnlyDrains(before: seq<Prize>, after: seq<Prize>) {
    && |after| == |before|
    && forall id :: 0 <= id < |before| ==>
         && after[id].weight == before[id].weight
         && (before[id].stock == 0 ==> after[id].stock == 0)
         && (before[id].stock > 0 ==> 0 <= after[id].stock <= before[id].stock)
         && (before[id].stock < 0 ==> after[id].stock == before[id].stock)
  }

  lemma {:induction false} DrainKeepsClaim(before: seq<Prize>, after: seq<Prize>, c: Claim)
    requires OnlyDrains(before, after) && ClaimOk(before, c)
    ensures ClaimOk(after, c)
  {
    assert NothingAvailable(before) ==> NothingAvailable(after);
  }

  lemma {:induction false} ReadKeepsClaim(prizes: seq<Prize>, c: Claim, listing: seq<nat>, pick: nat)
    requires ClaimOk(prizes, c) && c.phase == Reading && Lists(listing, prizes, c.excluded)
    requires listing != [] ==> pick < |listing|
    ensures ClaimOk(prizes, AfterRead(prizes, c, listing, pick))
  {
    if listing == [] {
      forall id | 0 <= id < |prizes|
        ensures prizes[id].weight <= 0 || (prizes[id].stock != -1 && prizes[id].stock <= 0)
      {
        assert id in c.excluded ==> Exhausted(prizes, id);
        assert !Candidate(prizes, c.excluded, id);
      }
    } else {
      assert Candidate(prizes, c.excluded, listing[pick]);
    }
  }

  lemma {:induction false} TakeKeepsClaim(prizes: seq<Prize>, c: Claim)
    requires ClaimOk(prizes, c) && c.phase.Chosen?
    ensures var (after, next) := AfterTake(prizes, c);
      OnlyDrains(prizes, after) && ClaimOk(after, next)
  {
  }

  lemma {:induction false} TakeAccounts(prizes: seq<Prize>, s: State, t: nat)
    requires AllAccounted(prizes, s) && t < |s.claims|
    requires s.claims[t].phase.Chosen? && ClaimOk(s.prizes, s.claims[t])
    ensures var (after, next) := AfterTake(s.prizes, s.claims[t]);
      AllAccounted(prizes, State(after, s.claims[t := next]))
  {
    var (after, next) := AfterTake(s.prizes, s.claims[t]);
    forall id | 0 <= id < |prizes|
      ensures Accounted(prizes[id], after[id], Wins(s.claims[t := next], id))
    {
      WinsAfter(s.claims, t, next, id);
    }
  }

  lemma {:induction false} StepKeepsInv(prizes: seq<Prize>, s: State, e: Event)
    requires Inv(prizes, s)
    ensures Inv(prizes, Step(s, e)) && OnlyDrains(s.prizes, Step(s, e).prizes)
  {
    if Enabled(s, e) {
      var t := e.claim;
      var c := s.claims[t];
      var next := Step(s, e);
      match e {
        case Read(_, listing, pick, _) =>
          ReadKeepsClaim(s.prizes, c, listing, pick);
          forall id | 0 <= id < |prizes| ensures Wins(next.claims, id) == Wins(s.claims, id) {
            WinsAfter(s.claims, t, AfterRead(s.prizes, c, listing, pick), id);
          }
        case Take(_) =>
          TakeKeepsClaim(s.prizes, c);
          TakeAccounts(prizes, s, t);
          forall u | 0 <= u < |s.claims| && u != t ensures ClaimOk(next.prizes, next.claims[u]) {
            DrainKeepsClaim(s.prizes, next.prizes, s.claims[u]);
          }
      }
    }
  }

  lemma {:induction false} NoWinsYet(n: nat, id: nat)
    ensures Wins(seq(n, i => FRESH), id) == 0
  {
    if n > 0 {
      NoWinsYet(n - 1, id);
      assert seq(n, i => FRESH)[..n - 1] == seq(n - 1, i => FRESH);
    }
  }

  lemma {:induction false} RunKeepsInv(prizes: seq<Prize>, n: nat, events: seq<Event>)
    ensures Inv(prizes, RunFrom(Start(prizes, n), events))
    ensures |RunFrom(Start(prizes, n), events).claims| == n
  {
    if events == [] {
      forall id: nat ensures Wins(Start(prizes, n).claims, id) == 0 {
        NoWinsYet(n, id);
      }
    } else {
      var m := |events| - 1;
      RunKeepsInv(prizes, n, events[..m]);
      StepKeepsInv(prizes, RunFrom(Start(prizes, n), events[..m]), events[m]);
    }
  }

  /**
   Never oversold. In every interleaving, of a prize with finite stock the stock and the awards keep their
   sum, the stock stays non-negative, and each winning claim is exactly one award.
   */
  lemma {:induction false} NeverOversells(prizes: seq<Prize>, n: nat, events: seq<Event>, id: nat)
    requires id < |prizes|
    ensures var s := RunFrom(Start(prizes, n), events);
      && |s.prizes| == |prizes|
      && s.prizes[id].awarded == prizes[id].awarded + Wins(s.claims, id)
      && (prizes[id].stock >= 0 ==>
            0 <= s.prizes[id].stock
              && s.prizes[id].stock + s.prizes[id].awarded == prizes[id].stock + prizes[id].awarded)
      && (prizes[id].stock < 0 ==> s.prizes[id].stock == prizes[id].stock)
  {
    RunKeepsInv(prizes, n, events);
    assert Accounted(prizes[id], RunFrom(Start(prizes, n), events).prizes[id],
      Wins(RunFrom(Start(prizes, n), events).claims, id));
  }

  /**
   A claim that goes away empty-handed is honest: either nothing is available any more, or it lost ten
   races, for ten different prizes that are all gone.
   */
  lemma {:induction false} EmptyHandedIsHonest(prizes: seq<Prize>, n: nat, events: seq<Event>, t: nat)
    requires t < n
    ensures var s := RunFrom(Start(prizes, n), events);
      |s.claims| == n && (s.claims[t].phase == Nothing ==>
        || NothingAvailable(s.prizes)
        || (|s.claims[t].excluded| == 10 && forall id :: id in s.claims[t].excluded ==>
             id < |s.prizes| && s.prizes[id].stock == 0))
  {
    RunKeepsInv(prizes, n, events);
    assert ClaimOk(RunFrom(Start(prizes, n), events).prizes, RunFrom(Start(prizes, n), events).claims[t]);
  }

  function Numbers(n: nat): set<nat> {
    set i: nat | i < n && Within(0, i, n)
  }

  lemma {:induction false} NumbersSize(n: nat)
    ensures |Numbers(n)| == n
  {
    if n > 0 {
      NumbersSize(n - 1);
      forall i: nat ensures i in Numbers(n) <==> i in Numbers(n - 1) + {n - 1} {
        assert Within(0, i, n) <==> Within(0, i, n - 1) || i == n - 1;
      }
      assert Numbers(n) == Numbers(n - 1) + {n - 1};
    } else {
      assert Numbers(n) == {};
    }
  }

  lemma {:induction false} SubsetSize(a: set<nat>, b: set<nat>)
    requires a <= b
    ensures |a| <= |b|
  {
    if a != {} {
      var x :| x in a;
      SubsetSize(a - {x}, b - {x});
    }
  }

  /** So with fewer than ten prizes, empty-handed means that nothing is left. */
  lemma {:induction false} FewPrizesAreAllGiven(prizes: seq<Prize>, n: nat, events: seq<Event>, t: nat)
    requires t < n && |prizes| < 10
    ensures var s := RunFrom(Start(prizes, n), events);
      |s.claims| == n && (s.claims[t].phase == Nothing ==> NothingAvailable(s.prizes))
  {
    var s := RunFrom(Start(prizes, n), events);
    EmptyHandedIsHonest(prizes, n, events, t);
    RunKeepsInv(prizes, n, events);
    var gone := s.claims[t].excluded;
    if s.claims[t].phase == Nothing && |gone| == MAX_ATTEMPTS && forall id :: id in gone ==> Exhausted(s.prizes, id) {
      NumbersSize(|prizes|);
      forall id | id in gone ensures id in Numbers(|prizes|) {
        assert Exhausted(s.prizes, id);
      }
      SubsetSize(gone, Numbers(|prizes|));
    }
  }

  // ------------------------------------------------------------ the odds of a prize

  /**
   The odds: in any listing of the prizes that can be drawn, in whatever order, as many whole-number rolls fall to a
   prize as it weighs, out of the sum of the weights of those prizes.
   */
  lemma {:induction false} OddsAreWeights(prizes: seq<Prize>, excluded: set<nat>, listing: seq<nat>, i: nat)
    requires Lists(listing, prizes, excluded) && i < |listing|
    ensures |RollsFor(Weights(listing, prizes), i)| == prizes[listing[i]].weight
    ensures |Interval(0, WeightSum(Weights(listing, prizes)))| == ListedWeight(listing, prizes)
  {
    var w := Weights(listing, prizes);
    forall k | 0 <= k < |w| ensures w[k] > 0 {
      assert Candidate(prizes, excluded, listing[k]);
    }
    ExactlyWeighted(w, i);
    SumOfListed(listing, prizes);
    PrefixRises(w, 0, |w|);
    assert w[..|w|] == w && w[..0] == [];
    IntervalSize(0, WeightSum(w));
  }

  function ListedWeight(listing: seq<nat>, prizes: seq<Prize>): int
    requires forall i :: 0 <= i < |listing| ==> listing[i] < |prizes|
  {
    if listing == [] then 0
    else ListedWeight(listing[..|listing| - 1], prizes) + prizes[listing[|listing| - 1]].weight
  }

  lemma {:induction false} SumOfListed(listing: seq<nat>, prizes: seq<Prize>)
    requires forall i :: 0 <= i < |listing| ==> listing[i] < |prizes|
    ensures WeightSum(Weights(listing, prizes)) == ListedWeight(listing, prizes)
  {
    if listing != [] {
      var n := |listing| - 1;
      SumOfListed(listing[..n], prizes);
      assert Weights(listing, prizes)[..n] == Weights(listing[..n], prizes);
    }
  }

  // ------------------------------------------------------------ one claim, among others

  /** The candidates in table order. */
  function Candidates(prizes: seq<Prize>, excluded: set<nat>, n: nat): seq<nat>
    requires n <= |prizes|
  {
    if n == 0 then [] else
    Candidates(prizes, excluded, n - 1) + if Candidate(prizes, excluded, n - 1) then [n - 1] else []
  }

  lemma {:induction false} CandidatesList(prizes: seq<Prize>, excluded: set<nat>, n: nat)
    requires n <= |prizes|
    ensures ListsUpTo(Candidates(prizes, excluded, n), prizes, excluded, n)
  {
    if n > 0 {
      CandidatesList(prizes, excluded, n - 1);
    }
  }

  lemma {:induction false} EmptyIffNone(listing: seq<nat>, prizes: seq<Prize>, excluded: set<nat>)
    requires Lists(listing, prizes, excluded)
    ensures listing == [] <==> forall id :: 0 <= id < |prizes| && id !in excluded ==>
      prizes[id].weight <= 0 || (prizes[id].stock != -1 && prizes[id].stock <= 0)
  {
    if listing == [] {
      forall id | 0 <= id < |prizes| && id !in excluded
        ensures prizes[id].weight <= 0 || (prizes[id].stock != -1 && prizes[id].stock <= 0)
      {
        assert !Candidate(prizes, excluded, id);
      }
    } else {
      assert Candidate(prizes, excluded, listing[0]);
    }
  }

  predicate ByOthers(events: seq<Event>, t: nat) {
    forall i :: 0 <= i < |events| ==> events[i].claim != t
  }

  lemma {:induction false} OthersLeaveClaim(s: State, events: seq<Event>, t: nat)
    requires ByOthers(events, t) && t < |s.claims|
    ensures var s' := RunFrom(s, events);
      |s'.claims| == |s.claims| && |s'.prizes| == |s.prizes| && s'.claims[t] == s.claims[t]
  {
    if events != [] {
      OthersLeaveClaim(s, events[..|events| - 1], t);
    }
  }

  lemma {:induction false} RunJoins(s: State, a: seq<Event>, b: seq<Event>)
    ensures RunFrom(s, a + b) == RunFrom(RunFrom(s, a), b)
  {
    if b == [] {
      assert a + b == a;
    } else {
      RunJoins(s, a, b[..|b| - 1]);
      assert (a + b)[..|a + b| - 1] == a + b[..|b| - 1];
    }
  }

  lemma {:induction false} RunOne(s: State, e: Event)
    ensures RunFrom(s, [e]) == Step(s, e)
  {
    assert [e][..0] == [];
  }

  /** Scale a random number to the total weight and choose. */
  method Draw(weights: seq<int>, unit: real) returns (pick: nat)
    requires weights != [] && Positive(weights) && 0.0 <= unit < 1.0
    ensures pick < |weights| && Draws(weights, unit, pick)
  {
    var total := WeightSum(weights);
    assert total > 0 by {
      PrefixRises(weights, 0, |weights|);
      assert weights[..|weights|] == weights && weights[..0] == [];
    }
    hide WeightSum, Positive, Hits, Past;
    var roll := unit * total as real;
    ScaledRoll(unit, total, roll);
    pick := Choose(weights, roll);
    ChoiceHits(weights, roll, pick);
  }

  class Game {
    var prizes: seq<Prize>
    var claims: seq<Claim>

    function View(): State
      reads this
    {
      State(prizes, claims)
    }

    constructor (prizes: seq<Prize>, n: nat)
      ensures View() == Start(prizes, n)
    {
      this.prizes, this.claims := prizes, seq(n, i => FRESH);
    }

    /** List the candidates and draw one; report the event this was. */
    method ReadAndDraw(t: nat, unit: real) returns (e: Event)
      requires t < |claims| && claims[t].phase == Reading && 0.0 <= unit < 1.0
      modifies this
      ensures e.Read? && e.claim == t && Enabled(old(View()), e)
      ensures View() == Step(old(View()), e)
      ensures prizes == old(prizes) && |claims| == |old(claims)|
      ensures forall u :: 0 <= u < |claims| && u != t ==> claims[u] == old(claims)[u]
      ensures claims[t] == old(claims)[t].(phase := claims[t].phase)
      ensures claims[t].phase == Nothing || claims[t].phase.Chosen?
      ensures claims[t].phase == Nothing <==> forall id :: 0 <= id < |prizes| && id !in claims[t].excluded ==>
        prizes[id].weight <= 0 || (prizes[id].stock != -1 && prizes[id].stock <= 0)
      ensures claims[t].phase.Chosen? ==>
        var id := claims[t].phase.prize;
        && id < |prizes| && id !in claims[t].excluded && claims[t].phase.stock == prizes[id].stock
        && prizes[id].weight > 0 && (prizes[id].stock == -1 || prizes[id].stock > 0)
    {
      hide Hits, Candidates;
      var listing := Candidates(prizes, claims[t].excluded, |prizes|);
      CandidatesList(prizes, claims[t].excluded, |prizes|);
      EmptyIffNone(listing, prizes, claims[t].excluded);
      var pick := 0;
      if listing != [] {
        pick := Draw(Weights(listing, prizes), unit);
      }
      e := Read(t, listing, pick, unit);
      claims := claims[t := AfterRead(prizes, claims[t], listing, pick)];
    }

    /** The conditional update of the prize drawn. */
    method TakeChosen(t: nat)
      requires t < |claims| && claims[t].phase.Chosen? && claims[t].phase.prize < |prizes|
      modifies this
      ensures View() == Step(old(View()), Take(t))
      ensures |claims| == |old(claims)| && forall u :: 0 <= u < |claims| && u != t ==> claims[u] == old(claims)[u]
      ensures var c := old(claims)[t]; var id := c.phase.prize; var p := old(prizes)[id];
        if c.phase.stock == -1 || p.stock > 0 then
          && claims[t] == c.(phase := Won(id))
          && prizes == old(prizes)[id := Prize(p.weight, if c.phase.stock == -1 then p.stock else p.stock - 1,
               p.awarded + 1)]
        else
          && prizes == old(prizes)
          && claims[t] == Claim(if c.attempts + 1 < 10 then Reading else Nothing, c.excluded + {id}, c.attempts + 1)
    {
      var c := claims[t];
      var id := c.phase.prize;
      var p := prizes[id];
      if c.phase.stock == UNLIMITED {
        prizes := prizes[id := p.(awarded := p.awarded + 1)];
        claims := claims[t := c.(phase := Won(id))];
        return;
      }
      if p.stock > 0 {
        prizes := prizes[id := p.(stock := p.stock - 1, awarded := p.awarded + 1)];
        claims := claims[t := c.(phase := Won(id))];
        return;
      }
      var attempts := c.attempts + 1;
      claims := claims[t := Claim(if attempts < MAX_ATTEMPTS then Reading else Nothing, c.excluded + {id}, attempts)];
    }

    method Meanwhile(others: seq<Event>)
      modifies this
      ensures View() == RunFrom(old(View()), others)
    {
      for i := 0 to |others|
        invariant View() == RunFrom(old(View()), others[..i])
      {
        assert others[..i + 1][..i] == others[..i];
        var next := Step(View(), others[i]);
        prizes, claims := next.prizes, next.claims;
      }
      assert others[..|others|] == others;
    }

    /**
     The retry loop of one claim, while other claims do `others[k]` between its k-th reading and its k-th
     attempt to take. It is a run of the protocol and ends within ten attempts, won or empty-handed.
     */
    method ClaimPrize(t: nat, units: seq<real>, others: seq<seq<Event>>) returns (won: Option<nat>,
        ghost trace: seq<Event>)
      requires t < |claims| && claims[t] == FRESH
      requires |units| == MAX_ATTEMPTS == |others|
      requires forall k :: 0 <= k < MAX_ATTEMPTS ==> 0.0 <= units[k] < 1.0
      requires forall k :: 0 <= k < MAX_ATTEMPTS ==> ByOthers(others[k], t)
      modifies this
      ensures View() == RunFrom(old(View()), trace)
      ensures t < |claims|
      ensures claims[t].phase == match won case Some(id) => Won(id) case None => Nothing
    {
      trace := [];
      var attempt := 0;
      while attempt < MAX_ATTEMPTS
        invariant 0 <= attempt <= MAX_ATTEMPTS && t < |claims|
        invariant claims[t].attempts == attempt
        invariant claims[t].phase == if attempt < MAX_ATTEMPTS then Reading else Nothing
        invariant View() == RunFrom(old(View()), trace)
      {
        ghost var s0 := View();
        var e := ReadAndDraw(t, units[attempt]);
        RunOne(s0, e);
        RunJoins(old(View()), trace, [e]);
        trace := trace + [e];
        if claims[t].phase == Nothing {
          return None, trace;
        }
        ghost var s1 := View();
        Meanwhile(others[attempt]);
        OthersLeaveClaim(s1, others[attempt], t);
        RunJoins(old(View()), trace, others[attempt]);
        trace := trace + others[attempt];
        ghost var s2 := View();
        TakeChosen(t);
        RunOne(s2, Take(t));
        RunJoins(old(View()), trace, [Take(t)]);
        trace := trace + [Take(t)];
        if claims[t].phase.Won? {
          return Some(claims[t].phase.prize), trace;
        }
        attempt := attempt + 1;
      }
      return None, trace;
    }
  }

  lemma {:induction false} ScaledRoll(unit: real, total: int, roll: real)
    requires 0.0 <= unit < 1.0 && total > 0 && roll == unit * total as real
    ensures 0.0 <= roll < total as real
  {
    var scale := total as real;
    assert scale > 0.0;
    assert (1.0 - unit) * scale > 0.0;
  }
}
