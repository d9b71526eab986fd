/**
 The cancellable blocking call: a coroutine waits for a task on the pool, and a cancellation
 callback may wake it first. The pool task, the callback run by cancel, and the callback run
 inside a registration that comes too late all try to flip one flag; whoever flips it records
 a status and schedules the coroutine, which then reads what it finds.

 The cancelled flag is an atomic that is set outside the source's mutex; the mutex is held by
 the registration between its first and last step.
 */
module BlockingAwaiter {
  import opened Wrappers
  import opened Runs

  datatype Status = Completed | Cancelled

  /** What the blocking callable does, and what `get` of a blocking_result does. */
  datatype Ending = Returns(value: int) | Throws(exception: int)

  datatype Fetched = Value(value: int) | Rethrows(exception: int) | ThrowsCancelled | EmptyOptional

  datatype BlockingResult = BlockingResult(status: Status, value: Option<int>, exception: Option<int>) {
    function Get(): Fetched {
      if exception.Some? then Rethrows(exception.value)
      else if status == Cancelled then ThrowsCancelled
      else if value.Some? then Value(value.value)
      else EmptyOptional
    }
  }

  datatype Waker = ByPool | ByCancel | ByRegister

  function StatusOf(w: Waker): Status {
    if w == ByPool then Completed else Cancelled
  }

  /** The flag that is flipped once, with the status; `waker` and `scheduled` are history. */
  datatype Gate = Gate(resumed: bool, status: Status, waker: Option<Waker>, scheduled: nat)

  /** The end of all three: compare-and-swap, status, schedule. `Idle`: this one does not, or not yet, get there. */
  datatype Firing = Idle | Try | Won | Marked | Over

  function Advance(f: Firing, w: Waker, g: Gate): (r: (Firing, Gate)) {
    match f
    case Idle => (Idle, g)
    case Try => if g.resumed then (Over, g) else (Won, g.(resumed := true, waker := Some(w)))
    case Won => (Marked, g.(status := StatusOf(w)))
    case Marked => (Over, g.(scheduled := g.scheduled + 1))
    case Over => (Over, g)
  }

  datatype SuspendPc = SetHandle | Lock | LoadFlag | Decide(sawFlag: bool) | Inline | Submit | Suspended

  datatype CancelPc = NotCalled | FlagSet | Calling | Done

  datatype ResumePc =
    | NotResumed
    | Unregister
    | ReadStatus
    | ReadValue(status: Status)
    | ReadException(status: Status, value: Option<int>)
    | Returned(result: BlockingResult)

  datatype State = State(
    hasToken: bool,
    ending: Ending,
    suspend: SuspendPc, cancel: CancelPc, resume: ResumePc,
    byPool: Firing, byCancel: Firing, byRegister: Firing,
    cancelled: bool,                 // the source's flag
    listed: bool,                    // the callback is in the source's list
    registered: bool,                // callback_id_ has been set to an id
    gate: Gate, value: Option<int>, exception: Option<int>)

  datatype Action = SuspendStep | CancelStep | PoolStep | ResumeStep

  ghost predicate Init(s: State) {
    s == State(s.hasToken, s.ending, SetHandle, NotCalled, NotResumed, Idle, Idle, Idle, s.cancelled, false, false,
               Gate(false, Completed, None, 0), None, None)
  }

  predicate MutexFree(s: State) {
    !(s.suspend.LoadFlag? || s.suspend.Decide? || s.suspend.Inline?)
  }

  ghost predicate SuspendMoves(s: State, s': State) {
    match s.suspend
    case SetHandle => s' == s.(suspend := if s.hasToken then Lock else Submit)
    case Lock => MutexFree(s) && s' == s.(suspend := LoadFlag)
    case LoadFlag => s' == s.(suspend := Decide(s.cancelled))
    case Decide(sawFlag) =>
      s' == if sawFlag then s.(suspend := Inline, byRegister := Try)
            else s.(suspend := Submit, listed := true, registered := true)
    case Inline =>
      if s.byRegister == Over then s' == s.(suspend := Submit)
      else var (f, g) := Advance(s.byRegister, ByRegister, s.gate); s' == s.(byRegister := f, gate := g)
    case Submit => s' == s.(suspend := Suspended)
    case Suspended => false
  }

  /** The first cancel; a later one finds the flag set and does nothing. */
  ghost predicate CancelMoves(s: State, s': State) {
    match s.cancel
    case NotCalled => !s.cancelled && s' == s.(cancel := FlagSet, cancelled := true)
    case FlagSet =>
      && MutexFree(s)
      && s' == if s.listed then s.(cancel := Calling, byCancel := Try, listed := false) else s.(cancel := Done)
    case Calling =>
      if s.byCancel == Over then s' == s.(cancel := Done)
      else var (f, g) := Advance(s.byCancel, ByCancel, s.gate); s' == s.(byCancel := f, gate := g)
    case Done => false
  }

  /** The queued task stores what the callable did, then tries the flag. */
  ghost predicate PoolMoves(s: State, s': State) {
    if s.byPool == Idle then
      && s.suspend == Suspended
      && s' == match s.ending
               case Returns(v) => s.(byPool := Try, value := Some(v))
               case Throws(e) => s.(byPool := Try, exception := Some(e))
    else
      && s.byPool != Over
      && var (f, g) := Advance(s.byPool, ByPool, s.gate); s' == s.(byPool := f, gate := g)
  }

  /** The coroutine once it is scheduled; the parts of the result are read one after the other. */
  ghost predicate ResumeMoves(s: State, s': State) {
    match s.resume
    case NotResumed => s.gate.scheduled > 0 && s' == s.(resume := if s.hasToken then Unregister else ReadStatus)
    case Unregister =>
      if !s.registered || s.cancelled then s' == s.(resume := ReadStatus)
      else MutexFree(s) && s' == s.(resume := ReadStatus, listed := false)
    case ReadStatus => s' == s.(resume := ReadValue(s.gate.status))
    case ReadValue(status) => s' == s.(resume := ReadException(status, s.value))
    case ReadException(status, value) => s' == s.(resume := Returned(BlockingResult(status, value, s.exception)))
    case Returned(_) => false
  }

  ghost predicate Step(s: State, a: Action, s': State) {
    match a
    case SuspendStep => SuspendMoves(s, s')
    case CancelStep => CancelMoves(s, s')
    case PoolStep => PoolMoves(s, s')
    case ResumeStep => ResumeMoves(s, s')
  }

  // ---------------------------------------------------------------- the invariant

  predicate Busy(f: Firing) {
    f == Won || f == Marked
  }

  /** What the gate says about one waker. */
  ghost predicate Fits(g: Gate, w: Waker, f: Firing) {
    && (Busy(f) ==> g.waker == Some(w))
    && (f == Over ==> g.resumed)
    && (g.waker == Some(w) ==>
          && (Busy(f) || f == Over)
          && (f != Won ==> g.status == StatusOf(w))
          && g.scheduled == if f == Over then 1 else 0)
  }

  ghost predicate GateInv(s: State) {
    && (s.gate.resumed <==> s.gate.waker.Some?)
    && (s.gate.waker == None ==> s.gate.scheduled == 0)
    && (s.cancel.NotCalled? || s.cancel.FlagSet? ==> s.byCancel == Idle)
    && (s.suspend.SetHandle? || s.suspend.Lock? || s.suspend.LoadFlag? || s.suspend.Decide? ==> s.byRegister == Idle)
    && Fits(s.gate, ByPool, s.byPool) && Fits(s.gate, ByCancel, s.byCancel) && Fits(s.gate, ByRegister, s.byRegister)
  }

  /** The pool task stores what the callable did before it tries the flag. */
  ghost predicate Stored(s: State) {
    if s.byPool == Idle then s.value == s.exception == None
    else s.value == (if s.ending.Returns? then Some(s.ending.value) else None)
         && s.exception == (if s.ending.Throws? then Some(s.ending.exception) else None)
  }

  /** What the coroutine has read so far. */
  ghost predicate Read(s: State) {
    && (s.resume != NotResumed ==> s.gate.scheduled > 0)
    && (s.resume.ReadValue? ==> Some(s.resume.status) == StatusGiven(s))
    && (s.resume.ReadException? ==>
          && Some(s.resume.status) == StatusGiven(s)
          && (s.resume.value.Some? ==> s.ending == Returns(s.resume.value.value))
          && (s.resume.status == Completed ==> s.resume.value == s.value))
    && (s.resume.Returned? ==>
          && var result := s.resume.result;
          && Some(result.status) == StatusGiven(s)
          && (result.value.Some? ==> s.ending == Returns(result.value.value))
          && (result.exception.Some? ==> s.ending == Throws(result.exception.value))
          && (result.status == Completed ==> result.value == s.value && result.exception == s.exception))
  }

  function StatusGiven(s: State): Option<Status> {
    if s.gate.waker.Some? then Some(StatusOf(s.gate.waker.value)) else None
  }

  /** Whoever wakes the coroutine as cancelled has seen the flag set. */
  ghost predicate CancelInv(s: State) {
    && (s.cancel != NotCalled || s.suspend == Decide(true) ==> s.cancelled)
    && (s.byRegister != Idle || s.byCancel != Idle ==> s.cancelled)
    && (s.gate.waker.Some? && s.gate.waker.value != ByPool ==> s.cancelled)
  }

  ghost predicate Inv(s: State) {
    GateInv(s) && Stored(s) && Read(s) && CancelInv(s)
  }

  lemma AdvanceFits(f: Firing, w: Waker, g: Gate)
    requires g.resumed <==> g.waker.Some?
    requires g.waker == None ==> g.scheduled == 0
    requires Fits(g, w, f) && f != Idle
    ensures var (f', g') := Advance(f, w, g);
      && (g'.resumed <==> g'.waker.Some?) && (g'.waker == None ==> g'.scheduled == 0)
      && Fits(g', w, f')
      && (g.resumed ==> g'.waker == g.waker)
      && (g'.waker == None || g'.waker == g.waker || g'.waker == Some(w))
      && (g.waker.Some? && g.waker != Some(w) ==> g' == g)
  {
  }

  lemma AdvanceFitsOthers(f: Firing, w: Waker, g: Gate, f2: Firing, w2: Waker)
    requires g.resumed <==> g.waker.Some?
    requires Fits(g, w, f) && Fits(g, w2, f2) && f != Idle && w != w2
    ensures Fits(Advance(f, w, g).1, w2, f2)
  {
  }

  lemma PoolKeepsGate(s: State, s': State)
    requires GateInv(s) && PoolMoves(s, s')
    ensures GateInv(s') && GateGrows(s.gate, s'.gate)
  {
    if s.byPool != Idle {
      AdvanceFits(s.byPool, ByPool, s.gate);
      AdvanceFitsOthers(s.byPool, ByPool, s.gate, s.byCancel, ByCancel);
      AdvanceFitsOthers(s.byPool, ByPool, s.gate, s.byRegister, ByRegister);
    }
  }

  lemma CancelKeepsGate(s: State, s': State)
    requires GateInv(s) && CancelMoves(s, s')
    ensures GateInv(s') && GateGrows(s.gate, s'.gate)
  {
    if s.cancel.Calling? && s.byCancel != Idle {
      AdvanceFits(s.byCancel, ByCancel, s.gate);
      AdvanceFitsOthers(s.byCancel, ByCancel, s.gate, s.byPool, ByPool);
      AdvanceFitsOthers(s.byCancel, ByCancel, s.gate, s.byRegister, ByRegister);
    }
  }

  lemma SuspendKeepsGate(s: State, s': State)
    requires GateInv(s) && SuspendMoves(s, s')
    ensures GateInv(s') && GateGrows(s.gate, s'.gate)
  {
    if s.suspend.Inline? && s.byRegister != Idle {
      AdvanceFits(s.byRegister, ByRegister, s.gate);
      AdvanceFitsOthers(s.byRegister, ByRegister, s.gate, s.byPool, ByPool);
      AdvanceFitsOthers(s.byRegister, ByRegister, s.gate, s.byCancel, ByCancel);
    }
  }

  /** The winner stays, and a schedule is not undone. */
  ghost predicate GateGrows(g: Gate, g': Gate) {
    && (g.waker.Some? ==> g'.waker == g.waker)
    && g'.scheduled >= g.scheduled
  }

  lemma ReadingLeavesTheRest(s: State, s': State)
    requires ResumeMoves(s, s')
    ensures s' == s.(resume := s'.resume, listed := s'.listed)
  {
  }

  lemma {:induction false} StepKeepsGate(s: State, a: Action, s': State)
    requires GateInv(s) && Step(s, a, s')
    ensures GateInv(s') && GateGrows(s.gate, s'.gate)
  {
    match a
    case PoolStep => PoolKeepsGate(s, s');
    case CancelStep => CancelKeepsGate(s, s');
    case SuspendStep => SuspendKeepsGate(s, s');
    case ResumeStep => ReadingLeavesTheRest(s, s');
  }

  lemma PoolKeepsRead(s: State, s': State)
    requires Stored(s) && Read(s) && GateGrows(s.gate, s'.gate) && PoolMoves(s, s')
    requires Fits(s.gate, ByPool, s.byPool)
    ensures Stored(s') && Read(s')
  {
  }

  lemma ResumeKeepsRead(s: State, s': State)
    requires GateInv(s) && Stored(s) && Read(s) && ResumeMoves(s, s')
    ensures Stored(s') && Read(s')
  {
    if s.gate.scheduled > 0 {
      assert Some(s.gate.status) == StatusGiven(s);
    }
  }

  lemma CancelKeepsRead(s: State, s': State)
    requires Stored(s) && Read(s) && GateGrows(s.gate, s'.gate) && CancelMoves(s, s')
    ensures Stored(s') && Read(s')
  {
    assert s' == s.(cancel := s'.cancel, byCancel := s'.byCancel, cancelled := s'.cancelled,
                    listed := s'.listed, gate := s'.gate);
  }

  lemma SuspendKeepsRead(s: State, s': State)
    requires Stored(s) && Read(s) && GateGrows(s.gate, s'.gate) && SuspendMoves(s, s')
    ensures Stored(s') && Read(s')
  {
    assert s' == s.(suspend := s'.suspend, byRegister := s'.byRegister, listed := s'.listed,
                    registered := s'.registered, gate := s'.gate);
  }

  lemma {:induction false} StepKeepsRead(s: State, a: Action, s': State)
    requires GateInv(s) && Stored(s) && Read(s) && Step(s, a, s') && GateGrows(s.gate, s'.gate)
    ensures Stored(s') && Read(s')
  {
    match a
    case PoolStep => PoolKeepsRead(s, s');
    case ResumeStep => ResumeKeepsRead(s, s');
    case CancelStep => CancelKeepsRead(s, s');
    case SuspendStep => SuspendKeepsRead(s, s');
  }

  lemma StepKeepsCancel(s: State, a: Action, s': State)
    requires CancelInv(s) && Step(s, a, s')
    ensures CancelInv(s')
  {
    match a
    case PoolStep => assert s'.cancelled == s.cancelled;
    case CancelStep =>
    case SuspendStep =>
    case ResumeStep => ReadingLeavesTheRest(s, s');
  }

  lemma {:induction false} StepKeepsInv(s: State, a: Action, s': State)
    requires Inv(s) && Step(s, a, s')
    ensures Inv(s')
  {
    StepKeepsGate(s, a, s');
    StepKeepsRead(s, a, s');
    StepKeepsCancel(s, a, s');
  }

  // ---------------------------------------------------------------- runs

  type Run = Runs.Run<State, Action>

  ghost predicate IsRun(r: Run) {
    match r
    case Start(s) => Init(s)
    case Then(p, a, s) => IsRun(p) && Step(Last(p), a, s)
  }

  lemma {:induction false} RunKeepsInv(r: Run)
    requires IsRun(r)
    ensures Inv(Last(r))
  {
    match r
    case Start(s) =>
    case Then(p, a, s) =>
      RunKeepsInv(p);
      StepKeepsInv(Last(p), a, s);
  }

  /**
   The coroutine is scheduled at most once, and exactly once when the pool task and whoever
   won the flag are through.
   */
  lemma {:induction false} ScheduledOnce(r: Run)
    requires IsRun(r)
    ensures var s := Last(r);
      && s.gate.scheduled <= 1
      && (s.byPool == Over && !Busy(s.byCancel) && !Busy(s.byRegister) ==> s.gate.scheduled == 1)
  {
    RunKeepsInv(r);
  }

  /** The status names the winner; a completed call carries exactly what the callable returned or threw. */
  lemma {:induction false} ResultIsRight(r: Run)
    requires IsRun(r) && Last(r).resume.Returned?
    ensures var s := Last(r); var result := s.resume.result;
      && s.gate.waker.Some? && (result.status == Completed <==> s.gate.waker == Some(ByPool))
      && (result.status == Completed ==>
            result.Get() == match s.ending case Returns(v) => Value(v) case Throws(e) => Rethrows(e))
      && (result.status == Cancelled ==> s.cancelled)
  {
    RunKeepsInv(r);
  }

  /** `get` never reads an empty optional, and returns a value exactly when the pool task won and returned it. */
  lemma {:induction false} GetIsSafe(r: Run)
    requires IsRun(r) && Last(r).resume.Returned?
    ensures var s := Last(r); var got := s.resume.result.Get();
      && got != EmptyOptional
      && (got.Value? <==> s.gate.waker == Some(ByPool) && s.ending.Returns?)
      && (got.Value? ==> s.ending == Returns(got.value))
      && (got == ThrowsCancelled <==> s.gate.waker != Some(ByPool) && s.resume.result.exception == None)
      && (got.Rethrows? ==> s.ending == Throws(got.exception))
  {
    RunKeepsInv(r);
  }

  /** The coroutine is about to read the part of the shared data that the pool task writes. */
  predicate Reading(s: State) {
    s.resume.ReadStatus? || s.resume.ReadValue? || s.resume.ReadException?
  }

  /**
   The result and the exception are plain fields. The coroutine can be reading them while the
   pool task has still to write them only if the winner is not the pool task; the status is
   never written while it is read.
   */
  lemma {:induction false} ReadsOverlapOnlyIfCancelled(r: Run)
    requires IsRun(r) && Reading(Last(r))
    ensures var s := Last(r);
      && s.gate.waker.Some?
      && (s.byPool == Idle ==> s.gate.waker != Some(ByPool) && s.cancelled)
      && s.byPool != Won && s.byCancel != Won && s.byRegister != Won
  {
    RunKeepsInv(r);
  }

  /** Without a token nobody but the pool task ever tries the flag. */
  ghost predicate PoolOnly(s: State) {
    && !s.listed && s.byCancel == s.byRegister == Idle
    && (s.suspend.SetHandle? || s.suspend.Submit? || s.suspend.Suspended?)
    && (s.gate.waker == None || s.gate.waker == Some(ByPool))
  }

  lemma PoolStaysAlone(s: State, s': State)
    requires PoolOnly(s) && PoolMoves(s, s')
    ensures PoolOnly(s') && s'.hasToken == s.hasToken
  {
  }

  lemma CancelStaysOut(s: State, s': State)
    requires PoolOnly(s) && !s.cancel.Calling? && CancelMoves(s, s')
    ensures PoolOnly(s') && !s'.cancel.Calling? && s'.hasToken == s.hasToken
  {
  }

  lemma RegisterStaysOut(s: State, s': State)
    requires PoolOnly(s) && !s.hasToken && SuspendMoves(s, s')
    ensures PoolOnly(s') && s'.cancel == s.cancel && !s'.hasToken
  {
  }

  lemma KeepsToken(s: State, a: Action, s': State)
    requires Step(s, a, s')
    ensures s'.hasToken == s.hasToken
  {
  }

  lemma {:induction false} TokenStays(r: Run)
    requires IsRun(r)
    ensures !Last(r).hasToken ==> PoolOnly(Last(r)) && !Last(r).cancel.Calling?
  {
    match r
    case Start(s) =>
    case Then(p, a, s) =>
      TokenStays(p);
      KeepsToken(Last(p), a, s);
      if !s.hasToken {
        match a
        case PoolStep => PoolStaysAlone(Last(p), s);
        case CancelStep => CancelStaysOut(Last(p), s);
        case SuspendStep => RegisterStaysOut(Last(p), s);
        case ResumeStep => ReadingLeavesTheRest(Last(p), s);
      }
  }

  /** The coroutine is reading the shared data, and the pool task has still to write it. */
  predicate Overlaps(s: State) {
    Reading(s) && s.byPool == Idle
  }

  ghost predicate OverlappingRun(r: Run, hasToken: bool) {
    IsRun(r) && Last(r).hasToken == hasToken && Overlaps(Last(r))
  }

  ghost predicate CanOverlap(hasToken: bool) {
    exists r :: OverlappingRun(r, hasToken)
  }

  /**
   The coroutine can be reading what the pool task has still to write exactly if the call was
   given a cancellation token.
   */
  lemma OverlapsIffToken(hasToken: bool)
    ensures CanOverlap(hasToken) <==> hasToken
  {
    if hasToken {
      var r := CancelledReadsWhilePoolWrites(0);
      assert OverlappingRun(r, hasToken);
    }
    if CanOverlap(hasToken) {
      var r :| OverlappingRun(r, hasToken);
      ReadsOverlapOnlyIfCancelled(r);
      TokenStays(r);
    }
  }

  /** The witness: the coroutine's next step reads the value, and the pool task's next step writes it. */
  lemma CancelledReadsWhilePoolWrites(v: int) returns (r: Run)
    ensures IsRun(r) && Last(r).hasToken && Overlaps(Last(r)) && Last(r).resume.ReadValue? && Last(r).value == None
    ensures exists t :: PoolMoves(Last(r), t) && t.value == Some(v)
  {
    var s := State(true, Returns(v), SetHandle, NotCalled, NotResumed, Idle, Idle, Idle, true, false, false,
                   Gate(false, Completed, None, 0), None, None);
    r := Start(s);
    assert IsRun(r);
    s := s.(suspend := Lock);
    r := Then(r, SuspendStep, s);
    assert IsRun(r);
    s := s.(suspend := LoadFlag);
    r := Then(r, SuspendStep, s);
    assert IsRun(r);
    s := s.(suspend := Decide(true));
    r := Then(r, SuspendStep, s);
    assert IsRun(r);
    s := s.(suspend := Inline, byRegister := Try);
    r := Then(r, SuspendStep, s);
    assert IsRun(r);
    s := s.(byRegister := Won, gate := Gate(true, Completed, Some(ByRegister), 0));
    r := Then(r, SuspendStep, s);
    assert IsRun(r);
    s := s.(byRegister := Marked, gate := Gate(true, Cancelled, Some(ByRegister), 0));
    r := Then(r, SuspendStep, s);
    assert IsRun(r);
    s := s.(byRegister := Over, gate := Gate(true, Cancelled, Some(ByRegister), 1));
    r := Then(r, SuspendStep, s);
    assert IsRun(r);
    r := ResumeAndSuspend(r);
    var t := Last(r).(byPool := Try, value := Some(v));
    assert PoolMoves(Last(r), t);
  }

  /** The call finishes suspending while the coroutine is resumed and reads the status. */
  lemma ResumeAndSuspend(before: Run) returns (r: Run)
    requires IsRun(before)
    requires var s := Last(before);
      && s.hasToken && !s.registered && s.suspend == Inline && s.byRegister == Over
      && s.gate.scheduled > 0 && s.resume == NotResumed
    ensures IsRun(r) && Last(r) == Last(before).(suspend := Suspended, resume := ReadValue(Last(before).gate.status))
  {
    var s := Last(before).(suspend := Submit);
    r := Then(before, SuspendStep, s);
    assert IsRun(r);
    s := s.(suspend := Suspended);
    r := Then(r, SuspendStep, s);
    assert IsRun(r);
    s := s.(resume := Unregister);
    r := Then(r, ResumeStep, s);
    assert IsRun(r);
    s := s.(resume := ReadStatus);
    r := Then(r, ResumeStep, s);
    assert IsRun(r);
    r := Then(r, ResumeStep, s.(resume := ReadValue(s.gate.status)));
  }
}
