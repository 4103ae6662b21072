/**
 Idempotent execution under concurrency (apps/api/src/idempotency/idempotency.module.ts).

 `execute` looks the key up, then runs the work and inserts the record in one transaction; the unique
 index on (scope, endpoint, key) makes the loser of a race roll back and replay the winner's response.
 Callers are threads of a state machine whose steps are the database calls; a run is any sequence of
 their steps, over any number of keys. Request hashes are compared, never inspected.
 */
module Idempotency {
  import opened Wrappers

  type Id = nat

  /** The columns of the unique index. */
  datatype Key = Key(scope: string, endpoint: string, key: string)

  datatype Response = Response(resource: Id, status: int)

  datatype Record = Record(hash: Id, response: Response)

  /** A committed effect of the work, and the key it was committed under, if any. */
  datatype Effect = Effect(key: Option<Key>, response: Response)

  datatype Answer =
    | Returned(response: Response, replayed: bool)
    | KeyReused   // same key, different body
    | Failed      // the work threw, or the insert failed with nothing to replay

  /** Where a call stands; `key` is absent when the client sent none. */
  datatype Phase = Called | Running | LostRace | Answered(answer: Answer)

  datatype Call = Call(key: Option<Key>, hash: Id, phase: Phase)

  datatype State = State(records: map<Key, Record>, effects: seq<Effect>, calls: map<nat, Call>)

  /** Replays a stored response, refusing a key that was used for another body. */
  function Replay(record: Record, hash: Id): Answer {
    if record.hash != hash then KeyReused else Returned(record.response, true)
  }

  // ------------------------------------------------------------ the steps of a call

  /** The fast path: a completed request with this key. */
  function Lookup(s: State, c: Call): Call {
    if c.key.None? || c.key.value !in s.records then c.(phase := Running)
    else c.(phase := Answered(Replay(s.records[c.key.value], c.hash)))
  }

  /** The transaction: the work and the record commit together, or the unique index rolls both back. */
  function Commit(s: State, c: Call, response: Response): (map<Key, Record>, seq<Effect>, Call) {
    if c.key.None? then
      (s.records, s.effects + [Effect(None, response)], c.(phase := Answered(Returned(response, false))))
    else if c.key.value in s.records then
      (s.records, s.effects, c.(phase := LostRace))
    else
      (s.records[c.key.value := Record(c.hash, response)], s.effects + [Effect(c.key, response)],
       c.(phase := Answered(Returned(response, false))))
  }

  /** After a unique violation: replay the winner, or report the error when there is none. */
  function ReplayWinner(s: State, c: Call): Call {
    if c.key.Some? && c.key.value in s.records then c.(phase := Answered(Replay(s.records[c.key.value], c.hash)))
    else c.(phase := Answered(Failed))
  }

  datatype Action =
    | Begin(caller: nat, key: Option<Key>, hash: Id)
    | DoLookup(caller: nat)
    | DoCommit(caller: nat, response: Response)
    | WorkThrows(caller: nat)
    | WorkHitsUniqueIndex(caller: nat)
    | DoReplay(caller: nat)

  function Apply(s: State, a: Action): State {
    var c := if a.caller in s.calls then Some(s.calls[a.caller]) else None;
    match a
    case Begin(n, key, hash) =>
      if c.Some? then s else s.(calls := s.calls[n := Call(key, hash, Called)])
    case DoLookup(n) =>
      if c.None? || c.value.phase != Called then s else s.(calls := s.calls[n := Lookup(s, c.value)])
    case DoCommit(n, response) =>
      if c.None? || c.value.phase != Running then s
      else
        var (records, effects, next) := Commit(s, c.value, response);
        State(records, effects, s.calls[n := next])
    case WorkThrows(n) =>
      if c.None? || c.value.phase != Running then s else s.(calls := s.calls[n := c.value.(phase := Answered(Failed))])
    case WorkHitsUniqueIndex(n) =>
      if c.None? || c.value.phase != Running || c.value.key.None? then s
      else s.(calls := s.calls[n := c.value.(phase := LostRace)])
    case DoReplay(n) =>
      if c.None? || c.value.phase != LostRace then s else s.(calls := s.calls[n := ReplayWinner(s, c.value)])
  }

  function RunFrom(s: State, actions: seq<Action>): State {
    if actions == [] then s else Apply(RunFrom(s, actions[..|actions| - 1]), actions[|actions| - 1])
  }

  const EMPTY := State(map[], [], map[])

  function Run(actions: seq<Action>): State {
    RunFrom(EMPTY, actions)
  }

  // -------------------------------------------------------------- the invariant

  function EffectsUnder(effects: seq<Effect>, key: Key): seq<Response> {
    if effects == [] then []
    else
      var e := effects[|effects| - 1];
      EffectsUnder(effects[..|effects| - 1], key) + if e.key == Some(key) then [e.response] else []
  }

  /** The effects committed under a key: exactly the recorded one, or none. */
  ghost predicate RecordsMatchEffects(s: State) {
    forall key :: EffectsUnder(s.effects, key) == if key in s.records then [s.records[key].response] else []
  }

  /** Every keyed call that returned got the response recorded for its key and its body. */
  predicate AnswerIsRecorded(s: State, c: Call) {
    c.key.Some? && c.phase.Answered? && c.phase.answer.Returned? ==>
      c.key.value in s.records && s.records[c.key.value] == Record(c.hash, c.phase.answer.response)
  }

  lemma {:induction false} OnlyTablesMatter(s: State, t: State)
    requires s.records == t.records && s.effects == t.effects
    ensures RecordsMatchEffects(s) <==> RecordsMatchEffects(t)
    ensures forall c :: AnswerIsRecorded(s, c) <==> AnswerIsRecorded(t, c)
  {
  }

  ghost predicate Inv(s: State) {
    && RecordsMatchEffects(s)
    && forall n :: n in s.calls ==> AnswerIsRecorded(s, s.calls[n])
  }

  lemma {:induction false} EffectsAppend(effects: seq<Effect>, e: Effect, key: Key)
    ensures EffectsUnder(effects + [e], key) == EffectsUnder(effects, key)
      + if e.key == Some(key) then [e.response] else []
  {
    assert (effects + [e])[..|effects|] == effects;
  }

  lemma {:induction false} CommitKeepsInv(s: State, n: nat, response: Response)
    requires Inv(s) && n in s.calls && s.calls[n].phase == Running
    ensures var (records, effects, next) := Commit(s, s.calls[n], response);
      Inv(State(records, effects, s.calls[n := next]))
  {
    hide EffectsUnder, Commit, AnswerIsRecorded;
    var (records, effects, next) := Commit(s, s.calls[n], response);
    OnlyTablesMatter(State(records, effects, map[]), State(records, effects, s.calls[n := next]));
    CommitKeepsEffects(s, s.calls[n], response);
    CommitKeepsAnswers(s, s.calls[n], response, s.calls[n]);
    forall m | m in s.calls { CommitKeepsAnswers(s, s.calls[n], response, s.calls[m]); }
  }

  lemma {:induction false} CommitKeepsEffects(s: State, c: Call, response: Response)
    requires RecordsMatchEffects(s)
    ensures var (records, effects, next) := Commit(s, c, response);
      RecordsMatchEffects(State(records, effects, map[]))
  {
    hide EffectsUnder;
    var (records, effects, next) := Commit(s, c, response);
    if effects != s.effects {
      forall key ensures EffectsUnder(effects, key) == if key in records then [records[key].response] else [] {
        EffectsAppend(s.effects, Effect(c.key, response), key);
      }
    }
  }

  lemma {:induction false} CommitKeepsAnswers(s: State, c: Call, response: Response, other: Call)
    requires c.phase == Running && AnswerIsRecorded(s, other)
    ensures var (records, effects, next) := Commit(s, c, response);
      && AnswerIsRecorded(State(records, effects, map[]), other)
      && AnswerIsRecorded(State(records, effects, map[]), next)
  {
  }

  lemma {:induction false} StepKeepsInv(s: State, a: Action)
    requires Inv(s)
    ensures Inv(Apply(s, a))
  {
    hide Commit;
    if a.DoCommit? && a.caller in s.calls && s.calls[a.caller].phase == Running {
      CommitKeepsInv(s, a.caller, a.response);
    } else {
      assert Apply(s, a).effects == s.effects && Apply(s, a).records == s.records;
    }
  }

  lemma {:induction false} RunKeepsInv(actions: seq<Action>)
    ensures Inv(Run(actions))
  {
    if actions != [] {
      RunKeepsInv(actions[..|actions| - 1]);
      StepKeepsInv(Run(actions[..|actions| - 1]), actions[|actions| - 1]);
    }
  }

  // --------------------------------------------------------------- main results

  /** In every run at most one effect commits under a key, and the record exists exactly when it did. */
  lemma {:induction false} OneEffectPerKey(actions: seq<Action>, key: Key)
    ensures var s := Run(actions);
      && |EffectsUnder(s.effects, key)| <= 1
      && (key in s.records <==> |EffectsUnder(s.effects, key)| == 1)
      && (key in s.records ==> EffectsUnder(s.effects, key) == [s.records[key].response])
  {
    RunKeepsInv(actions);
  }

  /**
   In every run all calls with one key that return, return the one response that was committed, and
   they all sent the same body; a call with another body never returns a resource.
   */
  lemma {:induction false} AllCallersAgree(actions: seq<Action>, n: nat, m: nat)
    requires var s := Run(actions);
      n in s.calls && m in s.calls && s.calls[n].key == s.calls[m].key && s.calls[n].key.Some?
    requires var s := Run(actions); s.calls[n].phase.Answered? && s.calls[n].phase.answer.Returned?
    ensures var s := Run(actions);
      && EffectsUnder(s.effects, s.calls[n].key.value) == [s.calls[n].phase.answer.response]
      && (s.calls[m].phase.Answered? && s.calls[m].phase.answer.Returned? ==>
            s.calls[m].phase.answer.response == s.calls[n].phase.answer.response && s.calls[m].hash == s.calls[n].hash)
      && (s.calls[m].hash != s.calls[n].hash && s.calls[m].phase.Answered? ==> !s.calls[m].phase.answer.Returned?)
  {
    RunKeepsInv(actions);
    var s := Run(actions);
    assert AnswerIsRecorded(s, s.calls[n]) && AnswerIsRecorded(s, s.calls[m]);
  }

  /** A call refused for its body, and what the table then holds. */
  predicate RefusedForBody(s: State, c: Call) {
    c.phase == Answered(KeyReused) ==>
      c.key.Some? && c.key.value in s.records && s.records[c.key.value].hash != c.hash
  }

  lemma {:induction false} StepRefusesForBody(s: State, a: Action)
    requires forall n :: n in s.calls ==> RefusedForBody(s, s.calls[n])
    ensures var s' := Apply(s, a);
      forall n :: n in s'.calls ==> RefusedForBody(s', s'.calls[n])
  {
  }

  /** In every run a call is refused for its body only when its key is recorded with another one. */
  lemma {:induction false} RefusalIsForTheBody(actions: seq<Action>)
    ensures var s := Run(actions);
      forall n :: n in s.calls ==> RefusedForBody(s, s.calls[n])
  {
    hide Apply, RefusedForBody;
    if actions != [] {
      RefusalIsForTheBody(actions[..|actions| - 1]);
      StepRefusesForBody(Run(actions[..|actions| - 1]), actions[|actions| - 1]);
    }
  }

  /** A record is never changed or dropped while it is kept: later steps only add keys and effects. */
  lemma {:induction false} RecordsAreStable(actions: seq<Action>, more: seq<Action>, key: Key)
    requires key in Run(actions).records
    ensures key in Run(actions + more).records && Run(actions + more).records[key] == Run(actions).records[key]
  {
    if more == [] {
      assert actions + more == actions;
    } else {
      RecordsAreStable(actions, more[..|more| - 1], key);
      assert (actions + more)[..|actions + more| - 1] == actions + more[..|more| - 1];
    }
  }

  /** The call that committed under a key and got its own response back. */
  predicate Winner(s: State, n: nat, key: Key) {
    n in s.calls && key in s.records
    && s.calls[n] == Call(Some(key), s.records[key].hash, Answered(Returned(s.records[key].response, false)))
  }

  ghost predicate EveryKeyWon(s: State) {
    forall key :: key in s.records ==> exists n :: Winner(s, n, key)
  }

  lemma {:induction false} WinnerStays(s: State, a: Action, n: nat, key: Key)
    requires Winner(s, n, key)
    ensures Winner(Apply(s, a), n, key)
  {
  }

  lemma {:induction false} StepKeepsWinners(s: State, a: Action)
    requires EveryKeyWon(s)
    ensures EveryKeyWon(Apply(s, a))
  {
    var s' := Apply(s, a);
    forall key | key in s'.records ensures exists n :: Winner(s', n, key) {
      if key in s.records {
        var n :| Winner(s, n, key);
        WinnerStays(s, a, n, key);
      } else {
        assert Winner(s', a.caller, key);
      }
    }
  }

  lemma {:induction false} RunKeepsWinners(actions: seq<Action>)
    ensures EveryKeyWon(Run(actions))
  {
    hide Apply;
    if actions != [] {
      RunKeepsWinners(actions[..|actions| - 1]);
      StepKeepsWinners(Run(actions[..|actions| - 1]), actions[|actions| - 1]);
    }
  }

  /** In every run a key is taken exactly when some call with it returned its own response and not a replay. */
  lemma {:induction false} KeyIsTakenIff(actions: seq<Action>, key: Key)
    ensures var s := Run(actions);
      key in s.records <==>
        exists n :: n in s.calls && s.calls[n].key == Some(key) && s.calls[n].phase.Answered?
                    && s.calls[n].phase.answer.Returned? && !s.calls[n].phase.answer.replayed
  {
    RunKeepsInv(actions);
    RunKeepsWinners(actions);
    var s := Run(actions);
    hide Run;
    if key in s.records {
      var n :| Winner(s, n, key);
      assert s.calls[n].key == Some(key);
    }
    forall n | n in s.calls && s.calls[n].key == Some(key) && s.calls[n].phase.Answered?
      && s.calls[n].phase.answer.Returned?
      ensures key in s.records
    {
      assert AnswerIsRecorded(s, s.calls[n]);
    }
  }

  /**
   Failure burns no key: in every run, however many calls tried it, a key all of whose calls failed has no
   effect and no record, and the next call that gets as far as its commit succeeds under it.
   */
  lemma {:induction false} FailureBurnsNoKey(actions: seq<Action>, key: Key, n: nat, hash: Id, response: Response)
    requires var s := Run(actions);
      forall m :: m in s.calls && s.calls[m].key == Some(key) ==> s.calls[m].phase == Answered(Failed)
    requires n !in Run(actions).calls
    ensures var s := Run(actions);
      key !in s.records && EffectsUnder(s.effects, key) == []
    ensures var s' := Run(actions + [Begin(n, Some(key), hash), DoLookup(n), DoCommit(n, response)]);
      && n in s'.calls && s'.calls[n] == Call(Some(key), hash, Answered(Returned(response, false)))
      && EffectsUnder(s'.effects, key) == [response]
      && key in s'.records && s'.records[key] == Record(hash, response)
  {
    var s := Run(actions);
    KeyIsTakenIff(actions, key);
    OneEffectPerKey(actions, key);
    ThreeMore(actions, Begin(n, Some(key), hash), DoLookup(n), DoCommit(n, response));
    EffectsAppend(s.effects, Effect(Some(key), response), key);
    hide Run, EffectsUnder;
    var s1 := Apply(s, Begin(n, Some(key), hash));
    assert s1 == s.(calls := s.calls[n := Call(Some(key), hash, Called)]);
    var s2 := Apply(s1, DoLookup(n));
    assert s2 == s.(calls := s.calls[n := Call(Some(key), hash, Running)]);
  }

  lemma {:induction false} ThreeMore(actions: seq<Action>, a: Action, b: Action, c: Action)
    ensures Run(actions + [a, b, c]) == Apply(Apply(Apply(Run(actions), a), b), c)
  {
    hide Apply;
    OneMore(actions, a);
    OneMore(actions + [a], b);
    OneMore(actions + [a] + [b], c);
    assert actions + [a, b, c] == actions + [a] + [b] + [c];
  }

  lemma {:induction false} OneMore(actions: seq<Action>, a: Action)
    ensures Run(actions + [a]) == Apply(Run(actions), a)
  {
    hide Apply;
    assert (actions + [a])[..|actions|] == actions;
  }

  /**
   A retry replays: no call begun after a key was recorded ever runs the work or commits an effect under it,
   in any continuation; once answered it got the recorded response, or was refused for another body.
   */
  lemma {:induction false} RetryReplays(actions: seq<Action>, more: seq<Action>, n: nat, key: Key)
    requires key in Run(actions).records && n !in Run(actions).calls
    ensures var s, s' := Run(actions), Run(actions + more);
      && EffectsUnder(s'.effects, key) == EffectsUnder(s.effects, key)
      && (n in s'.calls && s'.calls[n].key == Some(key) ==>
            || s'.calls[n].phase == Called
            || s'.calls[n].phase == Answered(
                 if s.records[key].hash == s'.calls[n].hash then Returned(s.records[key].response, true)
                   else KeyReused))
  {
    RecordsAreStable(actions, more, key);
    OneEffectPerKey(actions, key);
    OneEffectPerKey(actions + more, key);
    if more == [] {
      assert actions + more == actions;
    } else {
      var before, last := more[..|more| - 1], more[|more| - 1];
      assert (actions + more)[..|actions + more| - 1] == actions + before;
      RetryReplays(actions, before, n, key);
      RecordsAreStable(actions, before, key);
      RetryStep(Run(actions), Run(actions + before), last, n, key);
    }
  }

  lemma {:induction false} RetryStep(s0: State, s: State, a: Action, n: nat, key: Key)
    requires key in s0.records && key in s.records && s.records[key] == s0.records[key]
    requires n in s.calls && s.calls[n].key == Some(key) ==>
      s.calls[n].phase == Called || s.calls[n].phase == Answered(Replay(s0.records[key], s.calls[n].hash))
    ensures var s' := Apply(s, a);
      n in s'.calls && s'.calls[n].key == Some(key) ==>
        s'.calls[n].phase == Called || s'.calls[n].phase == Answered(Replay(s0.records[key], s'.calls[n].hash))
  {
  }

  // ---------------------------------------------------------------- the service

  predicate ByOthers(actions: seq<Action>, n: nat) {
    forall i :: 0 <= i < |actions| ==> actions[i].caller != n
  }

  lemma {:induction false} OthersLeaveCall(s: State, actions: seq<Action>, n: nat)
    requires ByOthers(actions, n) && n in s.calls
    ensures n in RunFrom(s, actions).calls && RunFrom(s, actions).calls[n] == s.calls[n]
  {
    if actions != [] {
      OthersLeaveCall(s, actions[..|actions| - 1], n);
    }
  }

  lemma {:induction false} RecordsKept(s: State, actions: seq<Action>, key: Key)
    requires key in s.records
    ensures key in RunFrom(s, actions).records && RunFrom(s, actions).records[key] == s.records[key]
  {
    if actions != [] {
      RecordsKept(s, actions[..|actions| - 1], key);
    }
  }

  lemma {:induction false} RunJoins(s: State, a: seq<Action>, b: seq<Action>)
    ensures RunFrom(s, a + b) == RunFrom(RunFrom(s, a), b)
  {
    hide Apply;
    if b == [] {
      assert a + b == a;
    } else {
      RunJoins(s, a, b[..|b| - 1]);
      assert (a + b)[..|a + b| - 1] == a + b[..|b| - 1];
    }
  }

  lemma {:induction false} RunOne(s: State, a: Action)
    ensures RunFrom(s, [a]) == Apply(s, a)
  {
    hide Apply;
    assert [a][..0] == [];
  }

  /** How the work of a call ends: with a response, with an error, or by violating some unique index itself. */
  datatype Work = Answers(response: Response) | Throws | HitsUniqueIndex

  /** The step of the transaction. Without a key an error is just an error. */
  function WorkStep(n: nat, key: Option<Key>, work: Work): Action {
    match work
    case Answers(response) => DoCommit(n, response)
    case Throws => WorkThrows(n)
    case HitsUniqueIndex => if key.None? then WorkThrows(n) else WorkHitsUniqueIndex(n)
  }

  class IdempotencyService {
    var records: map<Key, Record>
    var effects: seq<Effect>
    var calls: map<nat, Call>

    constructor ()
      ensures View() == EMPTY
    {
      records, effects, calls := map[], [], map[];
    }

    function View(): State
      reads this
    {
      State(records, effects, calls)
    }

    method Find(key: Key) returns (record: Option<Record>)
      ensures record == if key in records then Some(records[key]) else None
    {
      return if key in records then Some(records[key]) else None;
    }

    /** The fast path: replay a completed request with this key. */
    method LookUp(n: nat)
      requires n in calls && calls[n].phase == Called
      modifies this
      ensures View() == Apply(old(View()), DoLookup(n))
    {
      var c := calls[n];
      if c.key.Some? {
        var prior := Find(c.key.value);
        if prior.Some? {
          calls := calls[n := c.(phase := Answered(Replay(prior.value, c.hash)))];
          return;
        }
      }
      calls := calls[n := c.(phase := Running)];
    }

    /** The transaction: the work first, then the insert, whose unique index may undo both. */
    method RunAndRecord(n: nat, work: Work)
      requires n in calls && calls[n].phase == Running
      modifies this
      ensures View() == Apply(old(View()), WorkStep(n, old(calls)[n].key, work))
    {
      var c := calls[n];
      match work {
        case Throws =>
          calls := calls[n := c.(phase := Answered(Failed))];
        case HitsUniqueIndex =>
          calls := calls[n := c.(phase := if c.key.Some? then LostRace else Answered(Failed))];
        case Answers(response) =>
          var before := effects;
          effects := effects + [Effect(c.key, response)];
          if c.key.Some? {
            if c.key.value in records {
              effects := before;  // unique violation: the transaction rolls back
              calls := calls[n := c.(phase := LostRace)];
              return;
            }
            records := records[c.key.value := Record(c.hash, response)];
          }
          calls := calls[n := c.(phase := Answered(Returned(response, false)))];
      }
    }

    /** After a unique violation: replay the winner, or report the error when there is none. */
    method ReplayWinnerOf(n: nat)
      requires n in calls && calls[n].phase == LostRace
      modifies this
      ensures View() == Apply(old(View()), DoReplay(n))
    {
      var c := calls[n];
      if c.key.Some? {
        var winner := Find(c.key.value);
        if winner.Some? {
          calls := calls[n := c.(phase := Answered(Replay(winner.value, c.hash)))];
          return;
        }
      }
      calls := calls[n := c.(phase := Answered(Failed))];
    }

    /** Steps of other callers. */
    method Meanwhile(others: seq<Action>)
      modifies this
      ensures View() == RunFrom(old(View()), others)
    {
      hide Apply;
      ghost var before := View();
      for i := 0 to |others|
        invariant View() == RunFrom(before, others[..i])
      {
        assert others[..i + 1][..i] == others[..i];
        var next := Apply(View(), others[i]);
        records, effects, calls := next.records, next.effects, next.calls;
      }
      assert others[..|others|] == others;
    }

    /** The second half of a call: its transaction and, when a unique index refuses it, the replay. */
    method Finish(n: nat, work: Work, others: seq<Action>) returns (answer: Answer, ghost trace: seq<Action>)
      requires n in calls && calls[n].phase == Running && ByOthers(others, n)
      modifies this
      ensures View() == RunFrom(old(View()), trace)
      ensures n in calls && calls[n] == old(calls)[n].(phase := Answered(answer))
      ensures var c, s := old(calls)[n], old(View());
        && (work == Throws ==> answer == Failed && records == s.records && effects == s.effects)
        && (work.Answers? && (c.key.None? || c.key.value !in s.records) ==>
              && answer == Returned(work.response, false)
              && effects == s.effects + [Effect(c.key, work.response)]
              && records == if c.key.None? then s.records else s.records[c.key.value := Record(c.hash, work.response)])
        && (work.Answers? && c.key.Some? && c.key.value in s.records ==>
              && answer == (if s.records[c.key.value].hash == c.hash
                            then Returned(s.records[c.key.value].response, true) else KeyReused)
              && var s3 := RunFrom(Apply(s, DoCommit(n, work.response)), others);
                 records == s3.records && effects == s3.effects)
        && (work == HitsUniqueIndex && c.key.None? ==> answer == Failed && records == s.records && effects == s.effects)
        && (work == HitsUniqueIndex && c.key.Some? ==>
              var s3 := RunFrom(Apply(s, WorkHitsUniqueIndex(n)), others);
              && records == s3.records && effects == s3.effects
              && answer == if c.key.value !in s3.records then Failed
                           else if s3.records[c.key.value].hash == c.hash
                           then Returned(s3.records[c.key.value].response, true) else KeyReused)
    {
      hide RunFrom;
      ghost var c := calls[n];
      ghost var step := WorkStep(n, c.key, work);
      RunAndRecord(n, work);
      RunOne(old(View()), step);
      trace := [step];
      if calls[n].phase.Answered? {
        return calls[n].phase.answer, trace;
      }
      ghost var lost := View();
      Meanwhile(others);
      OthersLeaveCall(lost, others, n);
      if c.key.Some? && c.key.value in lost.records {
        RecordsKept(lost, others, c.key.value);
      }
      RunJoins(old(View()), trace, others);
      trace := trace + others;
      ghost var s3 := View();
      ReplayWinnerOf(n);
      RunOne(s3, DoReplay(n));
      RunJoins(old(View()), trace, [DoReplay(n)]);
      trace := trace + [DoReplay(n)];
      return calls[n].phase.answer, trace;
    }

    /**
     A whole call, while other callers take any steps before its lookup, before its transaction and before its
     replay. It is a run of the protocol. If the key is recorded when it looks, that record is replayed; if the
     key gets recorded before its transaction, nothing of this call commits and that record is replayed; otherwise
     its own effect and record commit, or its work failed and nothing does.
     */
    method Execute(n: nat, key: Option<Key>, hash: Id, work: Work, first: seq<Action>, second: seq<Action>,
        third: seq<Action>)
      returns (answer: Answer, ghost trace: seq<Action>)
      requires n !in calls && ByOthers(first, n) && ByOthers(second, n) && ByOthers(third, n)
      modifies this
      ensures View() == RunFrom(old(View()), trace)
      ensures n in calls && calls[n] == Call(key, hash, Answered(answer))
      ensures var s1 := RunFrom(Apply(old(View()), Begin(n, key, hash)), first);
        key.Some? && key.value in s1.records ==>
          && answer == (if s1.records[key.value].hash == hash
                        then Returned(s1.records[key.value].response, true) else KeyReused)
          && records == s1.records && effects == s1.effects
      ensures var s1 := RunFrom(Apply(old(View()), Begin(n, key, hash)), first);
        var s2 := RunFrom(Apply(s1, DoLookup(n)), second);
        key.None? || key.value !in s1.records ==>
          && (work == Throws ==> answer == Failed && records == s2.records && effects == s2.effects)
          && (work.Answers? && (key.None? || key.value !in s2.records) ==>
                && answer == Returned(work.response, false)
                && effects == s2.effects + [Effect(key, work.response)]
                && records == if key.None? then s2.records else s2.records[key.value := Record(hash, work.response)])
          && (work.Answers? && key.Some? && key.value in s2.records ==>
                && answer == (if s2.records[key.value].hash == hash
                              then Returned(s2.records[key.value].response, true) else KeyReused)
                && var s3 := RunFrom(Apply(s2, DoCommit(n, work.response)), third);
                   records == s3.records && effects == s3.effects)
          && (work == HitsUniqueIndex && key.None? ==>
                answer == Failed && records == s2.records && effects == s2.effects)
          && (work == HitsUniqueIndex && key.Some? ==>
                var s3 := RunFrom(Apply(s2, WorkHitsUniqueIndex(n)), third);
                && records == s3.records && effects == s3.effects
                && answer == if key.value !in s3.records then Failed
                             else if s3.records[key.value].hash == hash
                             then Returned(s3.records[key.value].response, true) else KeyReused)
    {
      hide RunFrom;
      calls := calls[n := Call(key, hash, Called)];
      trace := [Begin(n, key, hash)];
      RunOne(old(View()), Begin(n, key, hash));
      ghost var s0 := View();
      Meanwhile(first);
      OthersLeaveCall(s0, first, n);
      RunJoins(old(View()), trace, first);
      trace := trace + first;
      ghost var s1 := View();
      LookUp(n);
      RunOne(s1, DoLookup(n));
      RunJoins(old(View()), trace, [DoLookup(n)]);
      trace := trace + [DoLookup(n)];
      if calls[n].phase.Answered? {
        return calls[n].phase.answer, trace;
      }
      ghost var looked := View();
      Meanwhile(second);
      OthersLeaveCall(looked, second, n);
      RunJoins(old(View()), trace, second);
      trace := trace + second;
      hide Apply, Replay;
      ghost var rest;
      answer, rest := Finish(n, work, third);
      RunJoins(old(View()), trace, rest);
      trace := trace + rest;
    }
  }
}
