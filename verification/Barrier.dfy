/**
 The phase barrier: `count` arrivals complete a phase, which runs the completion function,
 resets the count to the participants that are left and lets everybody pass.
 */
module Barrier {
  import opened Runs

  /** `expected` participants are left, `count` of them have not arrived in this phase. */
  datatype Core = Core(expected: int, count: int, phase: nat) {
    function Settle(): Core {
      if count == 0 then Core(expected, expected, phase + 1) else this
    }

    function Arrive(n: int): Core {
      this.(count := count - n).Settle()
    }

    function Drop(): Core {
      Core(expected - 1, count - 1, phase).Settle()
    }
  }

  class SyncBarrier {
    var expected: int
    var count: int
    var phase: nat
    ghost var completions: nat       // how often the completion function has run

    ghost function View(): Core
      reads this
    {
      Core(expected, count, phase)
    }

    constructor (expected: int)
      ensures View() == Core(expected, expected, 0) && completions == 0
    {
      this.expected, count, phase, completions := expected, expected, 0, 0;
    }

    method CompletePhase()
      modifies this
      ensures View() == Core(old(expected), old(expected), old(phase) + 1)
      ensures completions == old(completions) + 1
    {
      completions := completions + 1;
      count := expected;
      phase := phase + 1;
    }

    /** Returns the token: the phase in which the arrival took place. */
    method Arrive(n: int) returns (token: nat)
      modifies this
      ensures token == old(phase)
      ensures View() == old(View()).Arrive(n)
      ensures completions - old(completions) == phase - old(phase)
    {
      var current := phase;
      count := count - n;
      if count == 0 {
        CompletePhase();
      }
      return current;
    }

    method ArriveAndDrop()
      modifies this
      ensures View() == old(View()).Drop()
      ensures completions - old(completions) == phase - old(phase)
    {
      expected := expected - 1;
      count := count - 1;
      if count == 0 {
        CompletePhase();
      }
    }
  }

  // ---------------------------------------------------------------- interleavings

  /** `Waiting`: holds a token and is not asleep, before or inside wait; `Sleeping`: in the condition wait. */
  datatype Position = Working | Waiting(token: nat) | Sleeping(token: nat) | Dropped

  datatype State = State(
    core: Core,
    at: map<nat, Position>,          // the participants
    arrivals: map<nat, nat>,         // history: arrivals of each participant, not counting a drop
    passes: map<nat, nat>,           // history: the last round each participant has waited for and passed, 0 if none
    completions: nat)

  datatype Action =
    | Arrive(p: nat)
    | Check(p: nat)                  // evaluates the wait predicate: passes or sleeps
    | WakeUp(p: nat)                 // spurious, or the time of wait_for is up and the caller waits again
    | Drop(p: nat)

  ghost predicate Init(s: State) {
    && s.core == Core(|s.at|, |s.at|, 0) && s.completions == 0
    && s.arrivals.Keys == s.passes.Keys == s.at.Keys
    && forall p :: p in s.at ==> s.at[p] == Working && s.arrivals[p] == s.passes[p] == 0
  }

  function Notified(at: map<nat, Position>): map<nat, Position> {
    map p | p in at :: if at[p].Sleeping? then Waiting(at[p].token) else at[p]
  }

  /** Has not arrived in the current phase; it may still hold the token of a phase that is over. */
  predicate MayArrive(s: State, p: nat) {
    p in s.at && (s.at[p] == Working || (s.at[p].Waiting? && s.at[p].token != s.core.phase))
  }

  /** A section that may complete the phase: if it does, it notifies everybody. */
  ghost predicate Settled(s: State, core: Core, at: map<nat, Position>, s': State) {
    && s'.core == core
    && if core.phase == s.core.phase then s'.at == at && s'.completions == s.completions
       else s'.at == Notified(at) && s'.completions == s.completions + 1
  }

  ghost predicate Step(s: State, a: Action, s': State) {
    match a
    case Arrive(p) =>
      && MayArrive(s, p) && p in s.arrivals
      && Settled(s, s.core.Arrive(1), s.at[p := Waiting(s.core.phase)], s')
      && s'.arrivals == s.arrivals[p := s.arrivals[p] + 1] && s'.passes == s.passes
    case Drop(p) =>
      && MayArrive(s, p)
      && Settled(s, s.core.Drop(), s.at[p := Dropped], s')
      && s'.arrivals == s.arrivals && s'.passes == s.passes
    case Check(p) =>
      && p in s.at && s.at[p].Waiting? && p in s.passes
      && if s.core.phase != s.at[p].token
         then s' == s.(at := s.at[p := Working], passes := s.passes[p := s.at[p].token + 1])
         else s' == s.(at := s.at[p := Sleeping(s.at[p].token)])
    case WakeUp(p) =>
      p in s.at && s.at[p].Sleeping? && s' == s.(at := s.at[p := Waiting(s.at[p].token)])
  }

  function Active(at: map<nat, Position>): set<nat> {
    set p | p in at && at[p] != Dropped
  }

  /** The active participants that have not arrived in the current phase. */
  function Pending(at: map<nat, Position>, phase: nat): set<nat> {
    set p | p in at && at[p] != Dropped && (at[p] == Working || at[p].token != phase)
  }

  ghost predicate Counted(s: State) {
    && s.core.expected == |Active(s.at)|
    && s.core.count == |Pending(s.at, s.core.phase)|
    && (Active(s.at) != {} ==> Pending(s.at, s.core.phase) != {})
    && s.completions == s.core.phase
  }

  /** Where a participant stands fixes how often it has arrived, and bounds how often it has passed. */
  ghost predicate StandsRight(pos: Position, arrivals: nat, passes: nat, phase: nat) {
    match pos
    case Working => passes <= arrivals == phase
    case Waiting(token) => passes <= token && arrivals == token + 1 && token <= phase <= token + 1
    case Sleeping(token) => passes <= token && arrivals == token + 1 && token == phase
    case Dropped => passes <= arrivals <= phase
  }

  ghost predicate InStep(s: State) {
    && s.arrivals.Keys == s.passes.Keys == s.at.Keys
    && forall p :: p in s.at ==> StandsRight(s.at[p], s.arrivals[p], s.passes[p], s.core.phase)
  }

  ghost predicate Inv(s: State) {
    Counted(s) && InStep(s)
  }

  lemma ActiveStays(at: map<nat, Position>, p: nat, pos: Position)
    requires p in at && at[p] != Dropped && pos != Dropped
    ensures Active(at[p := pos]) == Active(at)
  {
  }

  /** An arrival or a drop takes the participant, and nobody else, out of the pending ones. */
  lemma OneLess(s: State, p: nat, pos: Position)
    requires Inv(s) && MayArrive(s, p) && (pos == Dropped || pos == Waiting(s.core.phase))
    ensures var at := s.at[p := pos];
      && Pending(at, s.core.phase) == Pending(s.at, s.core.phase) - {p}
      && |Pending(at, s.core.phase)| == s.core.count - 1
      && Active(at) == Active(s.at) - (if pos == Dropped then {p} else {})
      && |Active(at)| == s.core.expected - (if pos == Dropped then 1 else 0)
  {
    var at := s.at[p := pos];
    assert p in Pending(s.at, s.core.phase) && p in Active(s.at);
    assert Pending(at, s.core.phase) == Pending(s.at, s.core.phase) - {p};
    assert Active(at) == Active(s.at) - (if pos == Dropped then {p} else {});
  }

  lemma LastPendingCompletes(s: State, p: nat, pos: Position)
    requires Inv(s) && MayArrive(s, p) && (pos == Dropped || pos == Waiting(s.core.phase))
    ensures s.core.count == 1 <==> Pending(s.at, s.core.phase) == {p}
  {
    OneLess(s, p, pos);
    var others := Pending(s.at, s.core.phase) - {p};
    assert |others| == s.core.count - 1;
    if s.core.count == 1 {
      assert others == {};
      assert p in Pending(s.at, s.core.phase);
    }
  }

  /** In the next phase everybody who is left is pending again. */
  lemma AllPendingAgain(at: map<nat, Position>, phase: nat)
    requires Pending(at, phase) == {}
    ensures Active(Notified(at)) == Active(at) == Pending(Notified(at), phase + 1)
  {
    forall p | p in Active(at) ensures p in Pending(Notified(at), phase + 1) {
      assert p !in Pending(at, phase);
    }
  }

  lemma SettleKeepsCounted(s: State, p: nat, pos: Position, core: Core, s': State)
    requires Inv(s) && MayArrive(s, p) && (pos == Dropped || pos == Waiting(s.core.phase))
    requires core == if pos == Dropped then s.core.Drop() else s.core.Arrive(1)
    requires Settled(s, core, s.at[p := pos], s')
    ensures Counted(s')
  {
    OneLess(s, p, pos);
    var at := s.at[p := pos];
    if s.core.count == 1 {
      assert Pending(at, s.core.phase) == {};
      AllPendingAgain(at, s.core.phase);
    } else {
      assert |Pending(at, s.core.phase)| > 0;
    }
  }

  lemma StepKeepsCounted(s: State, a: Action, s': State)
    requires Inv(s) && Step(s, a, s')
    ensures Counted(s')
  {
    match a
    case Arrive(p) => SettleKeepsCounted(s, p, Waiting(s.core.phase), s.core.Arrive(1), s');
    case Drop(p) => SettleKeepsCounted(s, p, Dropped, s.core.Drop(), s');
    case Check(p) =>
      ActiveStays(s.at, p, s'.at[p]);
      assert Pending(s'.at, s.core.phase) == Pending(s.at, s.core.phase);
    case WakeUp(p) =>
      ActiveStays(s.at, p, s'.at[p]);
      assert Pending(s'.at, s.core.phase) == Pending(s.at, s.core.phase);
  }

  /** Going to the next phase, if everyone who is left holds this phase's token. */
  lemma NextPhaseStandsRight(pos: Position, arrivals: nat, passes: nat, phase: nat)
    requires StandsRight(pos, arrivals, passes, phase)
    requires pos != Dropped ==> (pos.Waiting? || pos.Sleeping?) && pos.token == phase
    ensures StandsRight(if pos.Sleeping? then Waiting(pos.token) else pos, arrivals, passes, phase + 1)
  {
  }

  lemma MoveStandsRight(s: State, p: nat, pos: Position, q: nat, arrivals: nat)
    requires InStep(s) && MayArrive(s, p) && (pos == Dropped || pos == Waiting(s.core.phase)) && q in s.at
    requires arrivals == if q == p && pos != Dropped then s.arrivals[q] + 1 else s.arrivals[q]
    ensures StandsRight(s.at[p := pos][q], arrivals, s.passes[q], s.core.phase)
  {
    assert StandsRight(s.at[q], s.arrivals[q], s.passes[q], s.core.phase);
  }

  /** A phase completes only when nobody is pending, so everyone who is left holds its token. */
  lemma EveryoneHoldsToken(s: State, p: nat, pos: Position)
    requires Inv(s) && MayArrive(s, p) && (pos == Dropped || pos == Waiting(s.core.phase))
    requires s.core.count == 1
    ensures HoldToken(s.at[p := pos], s.core.phase)
  {
    OneLess(s, p, pos);
    var at := s.at[p := pos];
    assert Pending(at, s.core.phase) == {};
    forall q | q in at && at[q] != Dropped ensures (at[q].Waiting? || at[q].Sleeping?) && at[q].token == s.core.phase {
      assert q !in Pending(at, s.core.phase);
    }
  }

  ghost predicate HoldToken(at: map<nat, Position>, phase: nat) {
    forall q :: q in at && at[q] != Dropped ==> (at[q].Waiting? || at[q].Sleeping?) && at[q].token == phase
  }

  lemma SettleKeepsInStep(s: State, p: nat, pos: Position, core: Core, s': State)
    requires InStep(s) && MayArrive(s, p) && (pos == Dropped || pos == Waiting(s.core.phase))
    requires core == if pos == Dropped then s.core.Drop() else s.core.Arrive(1)
    requires Settled(s, core, s.at[p := pos], s')
    requires s.core.count == 1 ==> HoldToken(s.at[p := pos], s.core.phase)
    requires s'.passes == s.passes
    requires s'.arrivals == if pos == Dropped then s.arrivals else s.arrivals[p := s.arrivals[p] + 1]
    ensures InStep(s')
  {
    var at := s.at[p := pos];
    forall q | q in at ensures StandsRight(s'.at[q], s'.arrivals[q], s'.passes[q], s'.core.phase) {
      MoveStandsRight(s, p, pos, q, s'.arrivals[q]);
      if s.core.count == 1 {
        NextPhaseStandsRight(at[q], s'.arrivals[q], s'.passes[q], s.core.phase);
      }
    }
  }

  lemma StepKeepsInv(s: State, a: Action, s': State)
    requires Inv(s) && Step(s, a, s')
    ensures Inv(s')
  {
    StepKeepsCounted(s, a, s');
    if (a.Arrive? || a.Drop?) && s.core.count == 1 {
      EveryoneHoldsToken(s, a.p, if a.Drop? then Dropped else Waiting(s.core.phase));
    }
    if a.Arrive? {
      SettleKeepsInStep(s, a.p, Waiting(s.core.phase), s.core.Arrive(1), s');
    } else if a.Drop? {
      SettleKeepsInStep(s, a.p, Dropped, s.core.Drop(), s');
    }
  }

  // ---------------------------------------------------------------- runs

  type Run = Runs.Run<State, Action>

  ghost predicate IsRun(r: Run) {
    match r
    case Start(s) => Init(s)
    case Then(p, a, s) => IsRun(p) && Step(Last(p), a, s)
  }

  lemma InitInv(s: State)
    requires Init(s)
    ensures Inv(s)
  {
    assert Active(s.at) == s.at.Keys == Pending(s.at, 0);
    assert |s.at.Keys| == |s.at|;
  }

  lemma {:induction false} RunKeepsInv(r: Run)
    requires IsRun(r)
    ensures Inv(Last(r))
  {
    match r
    case Start(s) => InitInv(s);
    case Then(p, a, s) =>
      RunKeepsInv(p);
      StepKeepsInv(Last(p), a, s);
  }

  /** The participants that have arrived in the current phase and not dropped. */
  function Arrived(s: State): set<nat> {
    Active(s.at) - Pending(s.at, s.core.phase)
  }

  /**
   The count is what is left of `expected` after this phase's arrivals; the completion
   function has run once per phase.
   */
  lemma {:induction false} CountIsExact(r: Run)
    requires IsRun(r)
    ensures var s := Last(r);
      && s.core.expected == |Active(s.at)|
      && s.core.count == s.core.expected - |Arrived(s)|
      && s.completions == s.core.phase
  {
    RunKeepsInv(r);
    var s := Last(r);
    assert Active(s.at) == Arrived(s) + Pending(s.at, s.core.phase);
    assert |Active(s.at)| == |Arrived(s)| + |Pending(s.at, s.core.phase)|;
  }

  /** The phase advances, by one, exactly when the last pending participant arrives or drops. */
  lemma {:induction false} AdvancesExactlyWhenAllArrived(r: Run, a: Action, s': State)
    requires IsRun(r) && Step(Last(r), a, s')
    ensures var s := Last(r);
      && (s'.core.phase == s.core.phase || s'.core.phase == s.core.phase + 1)
      && (s'.core.phase != s.core.phase <==> (a.Arrive? || a.Drop?) && Pending(s.at, s.core.phase) == {a.p})
  {
    RunKeepsInv(r);
    if a.Arrive? || a.Drop? {
      LastPendingCompletes(Last(r), a.p, if a.Drop? then Dropped else Waiting(Last(r).core.phase));
    }
  }

  /** Two participants that are both still taking part are at most one round apart. */
  lemma AtMostOneRoundApart(r: Run, p: nat, q: nat)
    requires IsRun(r) && p in Active(Last(r).at) && q in Active(Last(r).at)
    ensures var s := Last(r);
      p in s.arrivals && q in s.arrivals && s.arrivals[p] <= s.arrivals[q] + 1
  {
    RunKeepsInv(r);
  }

  /** A wait ends only when everyone still taking part has arrived in the round it waits for. */
  lemma {:induction false} WaitEndsAfterAllArrived(r: Run, p: nat, s': State, q: nat)
    requires IsRun(r) && Step(Last(r), Check(p), s') && s'.at[p] == Working && q in Active(Last(r).at)
    ensures var s := Last(r);
      s.at[p].Waiting? && q in s.arrivals && s.arrivals[q] >= s.at[p].token + 1 && s'.passes[p] == s.at[p].token + 1
  {
    RunKeepsInv(r);
  }

  /**
   The barrier property: whoever has passed round `k` finds that everyone still taking part
   has arrived at least `k` times.
   */
  lemma NobodyPassesEarly(r: Run, p: nat, q: nat)
    requires IsRun(r) && p in Last(r).at && q in Active(Last(r).at)
    ensures var s := Last(r);
      p in s.passes && q in s.arrivals && s.passes[p] <= s.arrivals[q]
  {
    RunKeepsInv(r);
  }

  /**
   Nobody sleeps on after its phase is complete, and while anybody takes part somebody who
   takes part is not asleep.
   */
  lemma NobodyLeftAsleep(r: Run)
    requires IsRun(r)
    ensures var s := Last(r);
      && (forall p :: p in s.at && s.at[p].Sleeping? ==> s.at[p].token == s.core.phase)
      && (Active(s.at) != {} ==> exists p :: p in Active(s.at) && !s.at[p].Sleeping?)
  {
    RunKeepsInv(r);
    var s := Last(r);
    if Active(s.at) != {} {
      var p :| p in Pending(s.at, s.core.phase);
      assert p in Active(s.at) && !s.at[p].Sleeping?;
    }
  }
}
