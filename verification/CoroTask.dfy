/**
 The life of one coroutine task: any number of threads start it, wait for it or await it,
 a worker runs it to its final suspension, and a destructor waits there and frees it.

 Two things can be touched after they are gone: the coroutine frame, and the shared state
 that frame and task object own together. The main results: the handle is scheduled once,
 every coroutine whose continuation was installed is resumed once, the k-th caller to get
 an outcome gets the exception or what k moves have left of the value, the frame is
 destroyed once, and no thread ever touches frame or state afterwards.

 What is asked of callers: an address awaits at most once, and the destructor is not
 entered while a call on the task is unfinished, counting the rest of a suspended caller's
 await as unfinished. A caller that the handoff refused may be suspended for ever.
 */
module CoroTask {
  import opened Wrappers
  import Handoff
  import opened Runs

  type Word = Handoff.Word

  datatype Outcome<V> = Value(v: V) | Exception(e: int)

  /** What is left of `v` after `k` moves out of it. */
  function Residue<V>(left: V -> V, v: V, k: nat): V {
    if k == 0 then v else left(Residue(left, v, k - 1))
  }

  /** What the result holds after `k` callers have got it: an exception is copied, a value is moved out. */
  function Content<V>(left: V -> V, stored: Outcome<V>, k: nat): Outcome<V> {
    if stored.Value? then Value(Residue(left, stored.v, k)) else stored
  }

  /** Where the coroutine is; from `Running` on, a worker executes it. */
  datatype CoroPc =
    | Initial
    | Queued
    | Running
    | Stored                          // result written, mutex held
    | Flagged                         // ready stored, mutex held
    | AtFinal                         // mutex released
    | FinalLoaded(seen: Word)         // set_ready: word loaded
    | Fetch                           // set_ready returned true
    | Publish(next: Option<nat>)      // continuation decided
    | Transfer(next: Option<nat>)     // final_suspend_reached stored
    | Ended

  /** Where a caller is. `suspended`: it was suspended and resumed on its way. */
  datatype CallerPc<V> =
    | StartCas(thenGet: bool)
    | StartCheck(thenGet: bool)       // won the compare-and-swap on started_
    | AwaitReady
    | AwaitExchange
    | AwaitSchedule                   // won the exchange on started_
    | AwaitLoad
    | AwaitCas(seen: Word)
    | Parked                          // installed; suspended
    | Refused                         // suspended, but not installed
    | Get(suspended: bool)
    | Returned(suspended: bool, got: Option<Outcome<V>>)

  datatype DestroyPc = NotYet | Spinning | Destroying | FrameGone | Destroyed

  datatype State<!V> = State(
    left: V -> V,                     // what moving out of a value leaves behind, fixed by its type
    started: bool,
    word: Word,
    result: Option<Outcome<V>>,
    ready: bool,
    finalReached: bool,
    locked: bool,                     // the mutex of the shared state, while the coroutine holds it
    coro: CoroPc,
    callers: map<nat, CallerPc<V>>,
    destroy: DestroyPc,
    stored: Option<Outcome<V>>,          // history: what the coroutine stored
    readers: seq<nat>,                // history: the callers that got an outcome, in order
    winner: Option<nat>,              // history: the caller that set started_
    scheduled: nat)                   // history: how often the handle was scheduled

  datatype Action<V> =
    | CallStart(id: nat)
    | CallGet(id: nat)
    | CallAwait(id: nat)
    | CallerStep(id: nat, spurious: bool)
    | WorkerStep(outcome: Outcome<V>, spurious: bool)
    | DestroyStep

  /** A task that nobody has touched. */
  function Fresh<V>(left: V -> V): State<V> {
    State(left, false, Handoff.Word(false, 0), None, false, false, false,
          Initial, map[], NotYet, None, [], None, 0)
  }

  ghost predicate Init<V>(s: State<V>) {
    s == Fresh(s.left)
  }

  function FrameAlive<V>(s: State<V>): bool {
    s.destroy.NotYet? || s.destroy.Spinning? || s.destroy.Destroying?
  }

  function StateAlive<V>(s: State<V>): bool {
    !s.destroy.Destroyed?
  }

  function To<V>(s: State<V>, id: nat, pc: CallerPc<V>): State<V> {
    s.(callers := s.callers[id := pc])
  }

  /** The caller's step inside start, or inside the start that get begins with. */
  ghost predicate StartMoves<V>(s: State<V>, id: nat, s': State<V>) {
    && id in s.callers
    && match s.callers[id]
       case StartCas(thenGet) =>
         if !s.started then s' == To(s, id, StartCheck(thenGet)).(started := true, winner := Some(id))
         else s' == To(s, id, if thenGet then Get(false) else Returned(false, None))
       case StartCheck(thenGet) =>
         var after := To(s, id, if thenGet then Get(false) else Returned(false, None));
         if s.coro.Ended? then s' == after
         else s' == after.(coro := Queued, scheduled := s.scheduled + 1)
       case _ => false
  }

  /** The caller's step inside co_await, up to the handoff. */
  ghost predicate AwaitMoves<V>(s: State<V>, id: nat, s': State<V>) {
    && id in s.callers
    && match s.callers[id]
       case AwaitReady => s' == To(s, id, if s.ready then Get(false) else AwaitExchange)
       case AwaitExchange =>
         if s.started then s' == To(s, id, AwaitLoad)
         else s' == To(s, id, AwaitSchedule).(started := true, winner := Some(id))
       case AwaitSchedule => s' == To(s, id, AwaitLoad).(coro := Queued, scheduled := s.scheduled + 1)
       case AwaitLoad => s' == To(s, id, AwaitCas(s.word))
       case _ => false
  }

  /** One round of the compare-and-swap loop of set_continuation. */
  ghost predicate InstallMoves<V>(s: State<V>, id: nat, spurious: bool, s': State<V>) {
    && id in s.callers && s.callers[id].AwaitCas?
    && var seen := s.callers[id].seen;
       if seen.address != 0 then s' == To(s, id, Refused)
       else if s.word == seen && !spurious
       then s' == To(s, id, if seen.ready then Get(true) else Parked).(word := seen.(address := id))
       else s' == To(s, id, AwaitCas(s.word))
  }

  /** Waiting under the mutex until the result is ready, and taking it. */
  ghost predicate GetMoves<V>(s: State<V>, id: nat, s': State<V>) {
    && id in s.callers && s.callers[id].Get?
    && !s.locked && s.ready && s.result.Some?
    && var after := To(s, id, Returned(s.callers[id].suspended, s.result)).(readers := s.readers + [id]);
       s' == if s.result.value.Value? then after.(result := Some(Value(s.left(s.result.value.v)))) else after
  }

  ghost predicate WorkerMoves<V>(s: State<V>, outcome: Outcome<V>, spurious: bool, s': State<V>) {
    match s.coro
    case Queued => s' == s.(coro := Running)
    case Running =>
      && !s.locked
      && s' == s.(locked := true, result := Some(outcome), stored := Some(outcome), coro := Stored)
    case Stored => s' == s.(ready := true, coro := Flagged)
    case Flagged => s' == s.(locked := false, coro := AtFinal)
    case AtFinal => s' == s.(coro := FinalLoaded(s.word))
    case FinalLoaded(seen) =>
      if seen.ready then s' == s.(coro := Publish(None))
      else if s.word == seen && !spurious
      then s' == s.(word := seen.(ready := true), coro := if seen.address != 0 then Fetch else Publish(None))
      else s' == s.(coro := FinalLoaded(s.word))
    case Fetch => s' == s.(coro := Publish(if s.word.address != 0 then Some(s.word.address) else None))
    case Publish(next) => s' == s.(finalReached := true, coro := Transfer(next))
    case Transfer(next) =>
      if next.Some?
      then next.value in s.callers && s' == To(s, next.value, Get(true)).(coro := Ended)
      else s' == s.(coro := Ended)
    case _ => false
  }

  /** The destructor may be entered: no call on the task is unfinished. */
  ghost predicate Quiet<V>(s: State<V>) {
    forall id :: id in s.callers ==> s.callers[id].Returned? || s.callers[id].Refused?
  }

  ghost predicate DestructorMoves<V>(s: State<V>, s': State<V>) {
    match s.destroy
    case NotYet => Quiet(s) && s' == s.(destroy := if s.started then Spinning else Destroying)
    case Spinning => s' == s.(destroy := if s.finalReached then Destroying else Spinning)
    case Destroying => s' == s.(destroy := FrameGone)
    case FrameGone => s' == s.(destroy := Destroyed)
    case Destroyed => false
  }

  ghost predicate Step<V>(s: State<V>, a: Action<V>, s': State<V>) {
    match a
    case CallStart(id) => s.destroy.NotYet? && id !in s.callers && s' == To(s, id, StartCas(false))
    case CallGet(id) => s.destroy.NotYet? && id !in s.callers && s' == To(s, id, StartCas(true))
    case CallAwait(id) =>
      s.destroy.NotYet? && id !in s.callers && Handoff.IsAddress(id) && s' == To(s, id, AwaitReady)
    case CallerStep(id, spurious) =>
      StartMoves(s, id, s') || AwaitMoves(s, id, s') || InstallMoves(s, id, spurious, s') || GetMoves(s, id, s')
    case WorkerStep(outcome, spurious) => WorkerMoves(s, outcome, spurious, s')
    case DestroyStep => DestructorMoves(s, s')
  }

  // ---------------------------------------------------------------- who touches what

  /** The step reads or writes the coroutine frame or its promise. */
  ghost predicate TouchesFrame<V>(s: State<V>, a: Action<V>) {
    match a
    case CallerStep(id, _) => id in s.callers && (s.callers[id].StartCheck? || s.callers[id].AwaitSchedule?)
    case WorkerStep(_, _) => !s.coro.Initial? && !s.coro.Transfer? && !s.coro.Ended?
    case DestroyStep => s.destroy.Destroying?
    case _ => false
  }

  /** The step reads or writes the shared state (or the task object that keeps it). */
  ghost predicate TouchesState<V>(s: State<V>, a: Action<V>) {
    match a
    case CallerStep(_, _) => true
    case WorkerStep(_, _) => !s.coro.Initial? && !s.coro.Queued? && !s.coro.Transfer? && !s.coro.Ended?
    case DestroyStep => true
    case _ => true
  }

  // ---------------------------------------------------------------- invariant

  ghost predicate Scheduling<V>(pc: CallerPc<V>) {
    pc.StartCheck? || pc.AwaitSchedule?
  }

  /** The coroutine has passed the point where set_ready takes effect. */
  predicate PastHandoff(pc: CoroPc) {
    pc.Fetch? || pc.Publish? || pc.Transfer? || pc.Ended?
  }

  /** The coroutine still holds the continuation it is going to resume. */
  predicate Owes<V>(s: State<V>, id: nat) {
    || s.coro.Fetch?
    || (s.coro.Publish? && s.coro.next == Some(id))
    || (s.coro.Transfer? && s.coro.next == Some(id))
  }

  /** What the caller found when it was resumed, or will find. */
  predicate Installed<V>(pc: CallerPc<V>) {
    pc.Parked? || (pc.Get? && pc.suspended) || (pc.Returned? && pc.suspended)
  }

  ghost predicate GotOutcome<V>(s: State<V>, id: nat) {
    id in s.callers && s.callers[id].Returned? && s.callers[id].got.Some?
  }

  /** The k-th caller to get an outcome. */
  ghost predicate ReaderOk<V>(s: State<V>, k: nat)
    requires k < |s.readers|
  {
    && GotOutcome(s, s.readers[k])
    && s.stored.Some? && s.callers[s.readers[k]].got == Some(Content(s.left, s.stored.value, k))
  }

  ghost predicate ResultOk<V>(s: State<V>) {
    && s.result == (if s.stored.Some? then Some(Content(s.left, s.stored.value, |s.readers|)) else None)
    && (forall i, j :: 0 <= i < j < |s.readers| ==> s.readers[i] != s.readers[j])
    && (forall k :: 0 <= k < |s.readers| ==> ReaderOk(s, k))
    && (forall id :: GotOutcome(s, id) ==> id in s.readers)
  }

  ghost predicate CallerOk<V>(s: State<V>, id: nat, pc: CallerPc<V>) {
    && (id != 0 && s.word.address == id ==> Installed(pc))
    && match pc
       case StartCas(_) => true
       case StartCheck(_) => s.winner == Some(id) && s.coro.Initial?
       case AwaitReady => Handoff.IsAddress(id)
       case AwaitExchange => Handoff.IsAddress(id)
       case AwaitSchedule => Handoff.IsAddress(id) && s.winner == Some(id) && s.coro.Initial?
       case AwaitLoad => Handoff.IsAddress(id) && s.started
       case AwaitCas(seen) => Handoff.IsAddress(id) && s.started && Handoff.Evolved(seen, s.word)
       case Parked =>
         s.started && Handoff.IsAddress(id) && s.word.address == id && (PastHandoff(s.coro) ==> Owes(s, id))
       case Refused => s.started && s.word.address != 0
       case Get(suspended) =>
         s.started && (suspended ==> Handoff.IsAddress(id) && s.word == Handoff.Word(true, id) && !Owes(s, id))
       case Returned(suspended, got) =>
         && s.started
         && (suspended ==> Handoff.IsAddress(id) && s.word == Handoff.Word(true, id) && !Owes(s, id) && got.Some?)
  }

  ghost predicate CoroOk<V>(s: State<V>) {
    && (s.word.ready <==> PastHandoff(s.coro))
    && (s.word.address != 0 ==> s.word.address in s.callers)
    && (s.coro.FinalLoaded? ==> Handoff.Evolved(s.coro.seen, s.word))
    && (s.coro.Fetch? ==> s.word.address != 0 && s.callers[s.word.address].Parked?)
    && (s.coro.Publish? && s.coro.next.Some? ==>
          s.coro.next.value == s.word.address != 0 && s.callers[s.word.address].Parked?)
    && (s.coro.Transfer? && s.coro.next.Some? ==>
          s.coro.next.value == s.word.address != 0 && s.callers[s.word.address].Parked?)
    && (s.locked <==> s.coro.Stored? || s.coro.Flagged?)
    && (s.result.Some? <==> !(s.coro.Initial? || s.coro.Queued? || s.coro.Running?))
    && (s.ready <==> s.result.Some? && !s.coro.Stored?)
    && (s.finalReached <==> s.coro.Transfer? || s.coro.Ended?)
    && (!s.coro.Initial? ==> s.started)
    && (s.started <==> s.winner.Some?)
    && (s.started && s.coro.Initial? ==> s.winner.value in s.callers && Scheduling(s.callers[s.winner.value]))
    && s.scheduled == (if s.coro.Initial? then 0 else 1)
  }

  ghost predicate DestroyOk<V>(s: State<V>) {
    && (!s.destroy.NotYet? ==> Quiet(s))
    && (s.destroy.Spinning? ==> s.started)
    && (s.destroy.Destroying? || s.destroy.FrameGone? || s.destroy.Destroyed? ==> !s.started || s.finalReached)
  }

  ghost predicate Protocol<V>(s: State<V>) {
    && CoroOk(s)
    && DestroyOk(s)
    && (forall id :: id in s.callers ==> CallerOk(s, id, s.callers[id]))
  }

  ghost predicate Inv<V>(s: State<V>) {
    Protocol(s) && ResultOk(s)
  }

  // ---------------------------------------------------------------- every step

  lemma WorkerKeepsCaller<V>(s: State<V>, outcome: Outcome<V>, spurious: bool, s': State<V>, id: nat)
    requires Protocol(s) && WorkerMoves(s, outcome, spurious, s') && id in s'.callers
    ensures CallerOk(s', id, s'.callers[id])
  {
    assert id in s.callers && CallerOk(s, id, s.callers[id]);
  }

  lemma {:induction false} WorkerKeepsInv<V>(s: State<V>, outcome: Outcome<V>, spurious: bool, s': State<V>)
    requires Protocol(s) && WorkerMoves(s, outcome, spurious, s')
    ensures Protocol(s')
  {
    forall id | id in s'.callers
      ensures CallerOk(s', id, s'.callers[id])
    {
      WorkerKeepsCaller(s, outcome, spurious, s', id);
    }
    if s.coro.FinalLoaded? && s.word.address != 0 {
      assert CallerOk(s, s.word.address, s.callers[s.word.address]);
    }
  }

  lemma StartKeepsCaller<V>(s: State<V>, id: nat, s': State<V>, other: nat)
    requires Protocol(s) && StartMoves(s, id, s') && other in s.callers
    ensures CallerOk(s', other, s'.callers[other])
  {
    assert CallerOk(s, id, s.callers[id]);
    assert CallerOk(s, other, s.callers[other]);
  }

  lemma StartKeepsInv<V>(s: State<V>, id: nat, s': State<V>)
    requires Protocol(s) && StartMoves(s, id, s')
    ensures Protocol(s')
  {
    assert CallerOk(s, id, s.callers[id]);
    forall other | other in s'.callers
      ensures CallerOk(s', other, s'.callers[other])
    {
      StartKeepsCaller(s, id, s', other);
    }
  }

  lemma AwaitKeepsItself<V>(s: State<V>, id: nat, s': State<V>)
    requires CoroOk(s) && AwaitMoves(s, id, s') && CallerOk(s, id, s.callers[id])
    ensures CallerOk(s', id, s'.callers[id])
  {
  }

  lemma AwaitKeepsOther<V>(s: State<V>, id: nat, s': State<V>, other: nat)
    requires CoroOk(s) && AwaitMoves(s, id, s') && CallerOk(s, id, s.callers[id])
    requires other in s.callers && other != id && CallerOk(s, other, s.callers[other])
    ensures CallerOk(s', other, s'.callers[other])
  {
  }

  lemma AwaitKeepsCaller<V>(s: State<V>, id: nat, s': State<V>, other: nat)
    requires Protocol(s) && AwaitMoves(s, id, s') && other in s.callers
    ensures CallerOk(s', other, s'.callers[other])
  {
    if other == id {
      AwaitKeepsItself(s, id, s');
    } else {
      AwaitKeepsOther(s, id, s', other);
    }
  }

  lemma {:induction false} AwaitKeepsInv<V>(s: State<V>, id: nat, s': State<V>)
    requires Protocol(s) && AwaitMoves(s, id, s')
    ensures Protocol(s')
  {
    assert CallerOk(s, id, s.callers[id]);
    forall other | other in s'.callers
      ensures CallerOk(s', other, s'.callers[other])
    {
      AwaitKeepsCaller(s, id, s', other);
    }
  }

  lemma InstallKeepsItself<V>(s: State<V>, id: nat, spurious: bool, s': State<V>)
    requires CoroOk(s) && InstallMoves(s, id, spurious, s') && CallerOk(s, id, s.callers[id])
    ensures CallerOk(s', id, s'.callers[id])
  {
  }

  lemma InstallKeepsOther<V>(s: State<V>, id: nat, spurious: bool, s': State<V>, other: nat)
    requires CoroOk(s) && InstallMoves(s, id, spurious, s') && CallerOk(s, id, s.callers[id])
    requires other in s.callers && other != id && CallerOk(s, other, s.callers[other])
    ensures CallerOk(s', other, s'.callers[other])
  {
  }

  lemma InstallKeepsCaller<V>(s: State<V>, id: nat, spurious: bool, s': State<V>, other: nat)
    requires Protocol(s) && InstallMoves(s, id, spurious, s') && other in s.callers
    ensures CallerOk(s', other, s'.callers[other])
  {
    if other == id {
      InstallKeepsItself(s, id, spurious, s');
    } else {
      InstallKeepsOther(s, id, spurious, s', other);
    }
  }

  lemma InstallKeepsInv<V>(s: State<V>, id: nat, spurious: bool, s': State<V>)
    requires Protocol(s) && InstallMoves(s, id, spurious, s')
    ensures Protocol(s')
  {
    assert CallerOk(s, id, s.callers[id]);
    forall other | other in s'.callers
      ensures CallerOk(s', other, s'.callers[other])
    {
      InstallKeepsCaller(s, id, spurious, s', other);
    }
  }

  lemma GetKeepsCaller<V>(s: State<V>, id: nat, s': State<V>, other: nat)
    requires Protocol(s) && GetMoves(s, id, s') && other in s.callers
    ensures CallerOk(s', other, s'.callers[other])
  {
    assert CallerOk(s, id, s.callers[id]);
    assert CallerOk(s, other, s.callers[other]);
  }

  lemma GetKeepsInv<V>(s: State<V>, id: nat, s': State<V>)
    requires Protocol(s) && GetMoves(s, id, s')
    ensures Protocol(s')
  {
    assert CallerOk(s, id, s.callers[id]);
    forall other | other in s'.callers
      ensures CallerOk(s', other, s'.callers[other])
    {
      GetKeepsCaller(s, id, s', other);
    }
  }

  lemma CallKeepsInv<V>(s: State<V>, id: nat, pc: CallerPc<V>)
    requires Protocol(s) && s.destroy.NotYet? && id !in s.callers
    requires pc.StartCas? || (pc.AwaitReady? && Handoff.IsAddress(id))
    ensures Protocol(To(s, id, pc))
  {
    var s' := To(s, id, pc);
    forall other | other in s'.callers
      ensures CallerOk(s', other, s'.callers[other])
    {
      assert other in s.callers ==> CallerOk(s, other, s.callers[other]);
    }
  }

  lemma DestructorKeepsInv<V>(s: State<V>, s': State<V>)
    requires Protocol(s) && DestructorMoves(s, s')
    ensures Protocol(s')
  {
    forall id | id in s'.callers
      ensures CallerOk(s', id, s'.callers[id])
    {
      DestructorKeepsCaller(s, s', id);
    }
  }

  lemma DestructorKeepsCaller<V>(s: State<V>, s': State<V>, id: nat)
    requires DestructorMoves(s, s') && id in s.callers && CallerOk(s, id, s.callers[id])
    ensures CallerOk(s', id, s.callers[id])
  {
  }

  /** A step that neither stores nor delivers. */
  lemma ResultFrame<V>(s: State<V>, s': State<V>)
    requires ResultOk(s) && LeavesResult(s, s')
    ensures ResultOk(s')
  {
    forall k | 0 <= k < |s'.readers|
      ensures ReaderOk(s', k)
    {
      assert ReaderOk(s, k);
    }
  }

  lemma GetKeepsResult<V>(s: State<V>, id: nat, s': State<V>)
    requires ResultOk(s) && GetMoves(s, id, s')
    ensures ResultOk(s')
  {
    forall k | 0 <= k < |s.readers|
      ensures ReaderOk(s', k) && s.readers[k] != id
    {
      assert ReaderOk(s, k);
    }
    assert ReaderOk(s', |s.readers|);
    forall other | GotOutcome(s', other)
      ensures other in s'.readers
    {
      assert other == id || GotOutcome(s, other);
    }
  }

  lemma StoringKeepsResult<V>(s: State<V>, outcome: Outcome<V>, s': State<V>)
    requires ResultOk(s) && s.result == None
    requires s'.callers == s.callers && s'.result == s'.stored == Some(outcome) && s'.readers == s.readers
    ensures ResultOk(s')
  {
    assert |s.readers| > 0 ==> ReaderOk(s, 0);
    forall id ensures !GotOutcome(s', id) {
      assert GotOutcome(s', id) ==> GotOutcome(s, id);
    }
  }

  lemma WorkerKeepsResult<V>(s: State<V>, outcome: Outcome<V>, spurious: bool, s': State<V>)
    requires ResultOk(s) && CoroOk(s) && WorkerMoves(s, outcome, spurious, s')
    ensures ResultOk(s')
  {
    if s.coro.Running? {
      StoringKeepsResult(s, outcome, s');
    } else {
      WorkerLeavesResult(s, outcome, spurious, s');
      ResultFrame(s, s');
    }
  }

  /** The step changes nothing about the result, nor about callers that have returned. */
  ghost predicate LeavesResult<V>(s: State<V>, s': State<V>) {
    && s'.left == s.left && s'.result == s.result && s'.stored == s.stored && s'.readers == s.readers
    && forall id ::
         (GotOutcome(s', id) <==> GotOutcome(s, id)) && (GotOutcome(s, id) ==> s'.callers[id] == s.callers[id])
  }

  lemma WorkerLeavesResult<V>(s: State<V>, outcome: Outcome<V>, spurious: bool, s': State<V>)
    requires CoroOk(s) && WorkerMoves(s, outcome, spurious, s') && !s.coro.Running?
    ensures LeavesResult(s, s')
  {
  }

  lemma StartLeavesResult<V>(s: State<V>, id: nat, s': State<V>)
    requires StartMoves(s, id, s')
    ensures LeavesResult(s, s')
  {
  }

  lemma AwaitLeavesResult<V>(s: State<V>, id: nat, s': State<V>)
    requires AwaitMoves(s, id, s')
    ensures LeavesResult(s, s')
  {
  }

  lemma InstallLeavesResult<V>(s: State<V>, id: nat, spurious: bool, s': State<V>)
    requires InstallMoves(s, id, spurious, s')
    ensures LeavesResult(s, s')
  {
  }

  lemma {:induction false} StepKeepsResult<V>(s: State<V>, a: Action<V>, s': State<V>)
    requires ResultOk(s) && CoroOk(s) && Step(s, a, s')
    ensures ResultOk(s')
  {
    if a.WorkerStep? {
      WorkerKeepsResult(s, a.outcome, a.spurious, s');
    } else if a.CallerStep? && GetMoves(s, a.id, s') {
      GetKeepsResult(s, a.id, s');
    } else {
      if a.CallerStep? {
        if InstallMoves(s, a.id, a.spurious, s') {
          InstallLeavesResult(s, a.id, a.spurious, s');
        } else if AwaitMoves(s, a.id, s') {
          AwaitLeavesResult(s, a.id, s');
        } else {
          StartLeavesResult(s, a.id, s');
        }
      }
      ResultFrame(s, s');
    }
  }

  lemma {:induction false} StepKeepsInv<V>(s: State<V>, a: Action<V>, s': State<V>)
    requires Inv(s) && Step(s, a, s')
    ensures Inv(s')
  {
    StepKeepsResult(s, a, s');
    if a.WorkerStep? {
      WorkerKeepsInv(s, a.outcome, a.spurious, s');
    } else if a.CallerStep? {
      if StartMoves(s, a.id, s') {
        StartKeepsInv(s, a.id, s');
      } else if AwaitMoves(s, a.id, s') {
        AwaitKeepsInv(s, a.id, s');
      } else if InstallMoves(s, a.id, a.spurious, s') {
        InstallKeepsInv(s, a.id, a.spurious, s');
      } else {
        GetKeepsInv(s, a.id, s');
      }
    } else if a.DestroyStep? {
      DestructorKeepsInv(s, s');
    } else {
      CallKeepsInv(s, a.id, s'.callers[a.id]);
    }
  }

  // ---------------------------------------------------------------- whole runs

  type Run<!V> = Runs.Run<State<V>, Action<V>>

  ghost predicate IsRun<V>(r: Run<V>) {
    match r
    case Start(s) => Init(s)
    case Then(p, a, s) => IsRun(p) && Step(Last(p), a, s)
  }

  lemma {:induction false} RunKeepsInv<V>(r: Run<V>)
    requires IsRun(r)
    ensures Inv(Last(r))
  {
    match r
    case Start(s) =>
    case Then(p, a, s) =>
      RunKeepsInv(p);
      StepKeepsInv(Last(p), a, s);
  }

  /** Whatever step comes next in whatever run, it touches nothing that has been destroyed. */
  lemma {:induction false} NoUseAfterDestroy<V>(r: Run<V>, a: Action<V>, s': State<V>)
    requires IsRun(r) && Step(Last(r), a, s')
    ensures TouchesFrame(Last(r), a) ==> FrameAlive(Last(r))
    ensures TouchesState(Last(r), a) ==> StateAlive(Last(r))
  {
    RunKeepsInv(r);
    var s := Last(r);
    if a.CallerStep? {
      assert CallerOk(s, a.id, s.callers[a.id]);
    }
  }

  /**
   The frame goes only when the coroutine has run and is suspended for good, with its
   last access behind it, or when it was never started at all.
   */
  lemma {:induction false} DestroyedOnlyAtTheEnd<V>(r: Run<V>)
    requires IsRun(r) && !FrameAlive(Last(r))
    ensures var s := Last(r);
            if s.started then s.coro == Ended || s.coro == Transfer(None) else s.coro.Initial?
  {
    RunKeepsInv(r);
  }

  ghost predicate MidCall<V>(pc: CallerPc<V>) {
    !(pc.Parked? || pc.Refused? || pc.Returned?)
  }

  /** The handle is scheduled at most once; once no call is in progress, exactly once if the task was started. */
  lemma {:induction false} ScheduledOnce<V>(r: Run<V>)
    requires IsRun(r)
    ensures var s := Last(r);
            && s.scheduled <= 1
            && (s.scheduled == 0 <==> s.coro.Initial?)
            && ((forall id :: id in s.callers ==> !MidCall(s.callers[id])) ==>
                  s.scheduled == (if s.started then 1 else 0))
  {
    RunKeepsInv(r);
  }

  /** The step resumes the suspended coroutine at `id`: the worker transfers to it, or it finds the task done. */
  ghost predicate Resumes<V>(s: State<V>, a: Action<V>, s': State<V>, id: nat) {
    || (a.WorkerStep? && s.coro == Transfer(Some(id)))
    || (a.CallerStep? && a.id == id && id in s.callers && s.callers[id].AwaitCas?
        && s'.callers == s.callers[id := Get(true)])
  }

  ghost function Resumptions<V>(r: Run<V>, id: nat): nat {
    match r
    case Start(_) => 0
    case Then(p, a, s) => Resumptions(p, id) + if Resumes(Last(p), a, s, id) then 1 else 0
  }

  /** 1 if the coroutine at `id` runs again after it was suspended. */
  function Awake<V>(cs: map<nat, CallerPc<V>>, id: nat): nat {
    if id in cs && Installed(cs[id]) && !cs[id].Parked? then 1 else 0
  }

  lemma StartStepWakes<V>(s: State<V>, a: Action<V>, s': State<V>, id: nat)
    requires a.CallerStep? && StartMoves(s, a.id, s')
    ensures Awake(s'.callers, id) == Awake(s.callers, id) && !Resumes(s, a, s', id)
  {
  }

  lemma AwaitStepWakes<V>(s: State<V>, a: Action<V>, s': State<V>, id: nat)
    requires a.CallerStep? && AwaitMoves(s, a.id, s')
    ensures Awake(s'.callers, id) == Awake(s.callers, id) && !Resumes(s, a, s', id)
  {
  }

  lemma GetStepWakes<V>(s: State<V>, a: Action<V>, s': State<V>, id: nat)
    requires a.CallerStep? && GetMoves(s, a.id, s')
    ensures Awake(s'.callers, id) == Awake(s.callers, id) && !Resumes(s, a, s', id)
  {
  }

  lemma InstallStepWakes<V>(s: State<V>, a: Action<V>, s': State<V>, id: nat)
    requires a.CallerStep? && InstallMoves(s, a.id, a.spurious, s')
    ensures Awake(s'.callers, id) == Awake(s.callers, id) + if Resumes(s, a, s', id) then 1 else 0
  {
  }

  /** One step makes a coroutine run again if and only if it resumes it, and only while it is suspended. */
  lemma {:induction false} StepWakes<V>(s: State<V>, a: Action<V>, s': State<V>, id: nat)
    requires Inv(s) && Step(s, a, s')
    ensures Awake(s'.callers, id) == Awake(s.callers, id) + if Resumes(s, a, s', id) then 1 else 0
  {
    if a.CallerStep? {
      if InstallMoves(s, a.id, a.spurious, s') {
        InstallStepWakes(s, a, s', id);
      } else if StartMoves(s, a.id, s') {
        StartStepWakes(s, a, s', id);
      } else if AwaitMoves(s, a.id, s') {
        AwaitStepWakes(s, a, s', id);
      } else {
        GetStepWakes(s, a, s', id);
      }
    }
  }

  /** How often the coroutine at `id` has been resumed: once if it runs again, and never otherwise. */
  lemma {:induction false} ResumedAtMostOnce<V>(r: Run<V>, id: nat)
    requires IsRun(r)
    ensures Resumptions(r, id) == Awake(Last(r).callers, id) <= 1
  {
    match r
    case Start(s) =>
    case Then(p, a, s) =>
      ResumedAtMostOnce(p, id);
      RunKeepsInv(p);
      StepWakes(Last(p), a, s, id);
  }

  /**
   Nobody is forgotten. When the coroutine has ended and no call is in progress, every
   caller has returned, except those the handoff refused; whoever was suspended and not
   refused was resumed exactly once, and was delivered an outcome.
   */
  lemma {:induction false} EveryoneServed<V>(r: Run<V>, id: nat)
    requires IsRun(r) && Last(r).coro.Ended? && id in Last(r).callers
    requires forall i :: i in Last(r).callers ==> !MidCall(Last(r).callers[i])
    ensures var s := Last(r);
            && s.stored.Some?
            && (s.callers[id].Returned? || s.callers[id].Refused?)
            && (s.callers[id].Returned? ==> Resumptions(r, id) == if s.callers[id].suspended then 1 else 0)
            && (s.callers[id].Returned? && s.callers[id].suspended ==> s.callers[id].got.Some? && id in s.readers)
            && (s.callers[id].Refused? ==> s.word.address != id && s.word.address != 0)
  {
    RunKeepsInv(r);
    ResumedAtMostOnce(r, id);
    assert CallerOk(Last(r), id, Last(r).callers[id]);
  }

  /**
   Who gets what. The callers that have got an outcome are the readers, each once, and the
   k-th of them got the stored exception, or what k moves have left of the stored value;
   the first one got the value itself.
   */
  lemma {:induction false} ReadersGetResidues<V>(r: Run<V>)
    requires IsRun(r)
    ensures var s := Last(r);
      && (forall id :: GotOutcome(s, id) <==> id in s.readers)
      && (forall i, j :: 0 <= i < j < |s.readers| ==> s.readers[i] != s.readers[j])
      && (forall k :: 0 <= k < |s.readers| ==>
            && GotOutcome(s, s.readers[k]) && s.stored.Some?
            && s.callers[s.readers[k]].got == Some(Content(s.left, s.stored.value, k)))
  {
    RunKeepsInv(r);
    var s := Last(r);
    forall id | id in s.readers
      ensures GotOutcome(s, id)
    {
      var k :| 0 <= k < |s.readers| && s.readers[k] == id;
      assert ReaderOk(s, k);
    }
    forall k | 0 <= k < |s.readers|
      ensures GotOutcome(s, s.readers[k]) && s.stored.Some?
      ensures s.callers[s.readers[k]].got == Some(Content(s.left, s.stored.value, k))
    {
      assert ReaderOk(s, k);
    }
  }

  /**
   Two callers both get what was stored exactly if it is an exception or the moves before
   either left the value as it was.
   */
  lemma {:induction false} TwoReadersAgreeIff<V>(r: Run<V>, i: nat, j: nat)
    requires IsRun(r) && i < j < |Last(r).readers|
    ensures var s := Last(r);
      && s.readers[i] in s.callers && s.callers[s.readers[i]].Returned?
      && s.readers[j] in s.callers && s.callers[s.readers[j]].Returned?
      && s.stored.Some?
      && (s.callers[s.readers[i]].got == s.callers[s.readers[j]].got == s.stored
          <==> (s.stored.value.Value? ==>
                  Residue(s.left, s.stored.value.v, i) == Residue(s.left, s.stored.value.v, j) == s.stored.value.v))
  {
    ReadersGetResidues(r);
    var s := Last(r);
    assert GotOutcome(s, s.readers[i]) && GotOutcome(s, s.readers[j]);
  }

  lemma {:induction false} ResidueStays<V>(left: V -> V, v: V, k: nat)
    requires left(v) == v
    ensures Residue(left, v, k) == v
  {
    if k == 0 {
    } else {
      ResidueStays(left, v, k - 1);
    }
  }

  /**
   As soon as there are two readers: all of them get what was stored exactly if it is an
   exception, or moving it is a copy.
   */
  lemma {:induction false} AllGetItIffMoveCopies<V>(r: Run<V>)
    requires IsRun(r) && |Last(r).readers| >= 2
    ensures var s := Last(r);
      && s.stored.Some?
      && ((forall k :: 0 <= k < |s.readers| ==> GotOutcome(s, s.readers[k]) && s.callers[s.readers[k]].got == s.stored)
          <==> (s.stored.value.Exception? || s.left(s.stored.value.v) == s.stored.value.v))
  {
    ReadersGetResidues(r);
    var s := Last(r);
    assert GotOutcome(s, s.readers[1]);
    if s.stored.value.Value? {
      var v := s.stored.value.v;
      assert Residue(s.left, v, 1) == s.left(Residue(s.left, v, 0)) == s.left(v);
      if s.left(v) == v {
        forall k: nat
          ensures Residue(s.left, v, k) == v
        {
          ResidueStays(s.left, v, k);
        }
      }
    }
  }

  /** A run in which two callers ask for the same value, one after the other. */
  lemma TwoGets<V>(left: V -> V, v: V) returns (r: Run<V>)
    ensures IsRun(r) && Last(r).left == left && Last(r).stored == Some(Value(v)) && Last(r).readers == [1, 2]
    ensures Last(r).callers == map[1 := Returned(false, Some(Value(v))), 2 := Returned(false, Some(Value(left(v))))]
  {
    var outcome := Value(v);
    r := FinishedRun(left, outcome);
    var s0 := Last(r);
    var s1 := To(s0, 1, Returned(false, Some(outcome))).(readers := [1], result := Some(Value(left(v))));
    assert [] + [1] == [1];
    r := Then(r, CallerStep(1, false), s1);
    assert IsRun(r);
    var s2 := To(s1, 2, StartCas(true));
    r := Then(r, CallGet(2), s2);
    assert IsRun(r);
    var s3 := To(s2, 2, Get(false));
    r := Then(r, CallerStep(2, false), s3);
    assert IsRun(r);
    var s4 := To(s3, 2, Returned(false, Some(Value(left(v))))).(
      readers := [1, 2], result := Some(Value(left(left(v)))));
    assert [1] + [2] == [1, 2];
    r := Then(r, CallerStep(2, false), s4);
    assert IsRun(r);
  }

  /** The worker takes the queued handle, runs the body, and stores what it ends with. */
  lemma RunToResult<V>(before: Run<V>, outcome: Outcome<V>) returns (r: Run<V>)
    requires IsRun(before) && Last(before).coro.Queued? && !Last(before).locked
    ensures IsRun(r)
    ensures Last(r) == Last(before).(coro := AtFinal, result := Some(outcome), stored := Some(outcome), ready := true)
  {
    var s := Last(before).(coro := Running);
    r := Then(before, WorkerStep(outcome, false), s);
    assert IsRun(r);
    s := s.(locked := true, result := Some(outcome), stored := Some(outcome), coro := Stored);
    r := Then(r, WorkerStep(outcome, false), s);
    assert IsRun(r);
    s := s.(ready := true, coro := Flagged);
    r := Then(r, WorkerStep(outcome, false), s);
    assert IsRun(r);
    r := Then(r, WorkerStep(outcome, false), s.(locked := false, coro := AtFinal));
  }

  /** Caller 1 starts the task in get, and the worker runs it to the point where its result is there. */
  lemma FinishedRun<V>(left: V -> V, outcome: Outcome<V>) returns (r: Run<V>)
    ensures IsRun(r)
    ensures Last(r) == State(left, true, Handoff.Word(false, 0), Some(outcome), true, false, false, AtFinal,
                             map[1 := Get(false)], NotYet, Some(outcome), [], Some(1), 1)
  {
    var s0 := Fresh(left);
    r := Start(s0);
    assert IsRun(r);
    var s1 := To(s0, 1, StartCas(true));
    r := Then(r, CallGet(1), s1);
    assert IsRun(r);
    var s2 := To(s1, 1, StartCheck(true)).(started := true, winner := Some(1));
    r := Then(r, CallerStep(1, false), s2);
    assert IsRun(r);
    var s3 := To(s2, 1, Get(false)).(coro := Queued, scheduled := 1);
    r := Then(r, CallerStep(1, false), s3);
    assert IsRun(r);
    r := RunToResult(r, outcome);
  }

  /** Numbers are copied when they are moved: both callers get the value. */
  lemma CopyingMove(v: int) returns (r: Run<int>)
    ensures IsRun(r) && Last(r).stored == Some(Value(v)) && |Last(r).readers| == 2
    ensures forall id :: id in Last(r).readers ==> GotOutcome(Last(r), id) && Last(r).callers[id].got == Some(Value(v))
  {
    r := TwoGets(x => x, v);
  }

  /** Moving out of a vector empties it: the second caller gets nothing of a value that was not empty. */
  lemma EmptyingMove(v: seq<int>) returns (r: Run<seq<int>>)
    requires v != []
    ensures IsRun(r) && Last(r).stored == Some(Value(v)) && Last(r).readers == [1, 2]
    ensures var s := Last(r);
      && GotOutcome(s, 1) && s.callers[1].got == Some(Value(v))
      && GotOutcome(s, 2) && s.callers[2].got == Some(Value([])) != s.stored
  {
    r := TwoGets(_ => [], v);
  }

  // ---------------------------------------------------------------- the refused awaiter

  lemma StartMovesItself<V>(s: State<V>, id: nat, s': State<V>)
    requires StartMoves(s, id, s')
    ensures id in s.callers && !s.callers[id].Refused? && s'.callers == s.callers[id := s'.callers[id]]
  {
  }

  lemma AwaitMovesItself<V>(s: State<V>, id: nat, s': State<V>)
    requires AwaitMoves(s, id, s')
    ensures id in s.callers && !s.callers[id].Refused? && s'.callers == s.callers[id := s'.callers[id]]
  {
  }

  lemma InstallMovesItself<V>(s: State<V>, id: nat, spurious: bool, s': State<V>)
    requires InstallMoves(s, id, spurious, s')
    ensures id in s.callers && !s.callers[id].Refused? && s'.callers == s.callers[id := s'.callers[id]]
  {
  }

  lemma WorkerWakesParked<V>(s: State<V>, outcome: Outcome<V>, spurious: bool, s': State<V>, id: nat)
    requires CoroOk(s) && WorkerMoves(s, outcome, spurious, s') && id in s.callers && s.callers[id].Refused?
    ensures id in s'.callers && s'.callers[id].Refused?
  {
  }

  /** A refused caller has no step of its own, and nobody else's step brings it back. */
  lemma {:induction false} RefusedForGood<V>(r: Run<V>, a: Action<V>, s': State<V>, id: nat)
    requires IsRun(r) && Step(Last(r), a, s')
    requires id in Last(r).callers && Last(r).callers[id].Refused?
    ensures id in s'.callers && s'.callers[id].Refused?
  {
    RunKeepsInv(r);
    var s := Last(r);
    if a.WorkerStep? {
      WorkerWakesParked(s, a.outcome, a.spurious, s', id);
    } else if a.CallerStep? {
      if StartMoves(s, a.id, s') {
        StartMovesItself(s, a.id, s');
      } else if AwaitMoves(s, a.id, s') {
        AwaitMovesItself(s, a.id, s');
      } else if InstallMoves(s, a.id, a.spurious, s') {
        InstallMovesItself(s, a.id, a.spurious, s');
      }
    }
  }

  /** A run in which a second awaiter is refused: the task is finished and freed, and the awaiter is still suspended. */
  lemma SecondAwaiterRefused<V>(left: V -> V, outcome: Outcome<V>) returns (r: Run<V>)
    ensures IsRun(r) && Last(r).coro.Ended? && Last(r).destroy.Destroyed?
    ensures Last(r).callers == map[2 := Returned(true, Some(outcome)), 4 := Refused]
  {
    r := TwoAwait(left);
    var s := Last(r);
    r := RunToTheEnd(r, outcome);
    var s1 := Last(r);
    var after := To(s1, 2, Returned(true, Some(outcome))).(readers := [2]);
    var s2 := if outcome.Value? then after.(result := Some(Value(left(outcome.v)))) else after;
    assert [] + [2] == [2];
    r := Then(r, CallerStep(2, false), s2);
    assert IsRun(r);
    r := Then(r, DestroyStep, s2.(destroy := Spinning));
    assert IsRun(r);
    r := Then(r, DestroyStep, s2.(destroy := Destroying));
    assert IsRun(r);
    r := Then(r, DestroyStep, s2.(destroy := FrameGone));
    assert IsRun(r);
    r := Then(r, DestroyStep, s2.(destroy := Destroyed));
  }

  /** A coroutine awaits a task that nobody has started. */
  lemma FirstAwait<V>(left: V -> V) returns (r: Run<V>)
    ensures IsRun(r)
    ensures Last(r) == State(left, true, Handoff.Word(false, 2), None, false, false, false, Queued,
                             map[2 := Parked], NotYet, None, [], Some(2), 1)
  {
    var s := Fresh(left);
    r := Start(s);
    assert IsRun(r);
    s := To(s, 2, AwaitReady);
    r := Then(r, CallAwait(2), s);
    assert IsRun(r);
    s := To(s, 2, AwaitExchange);
    r := Then(r, CallerStep(2, false), s);
    assert IsRun(r);
    s := To(s, 2, AwaitSchedule).(started := true, winner := Some(2));
    r := Then(r, CallerStep(2, false), s);
    assert IsRun(r);
    s := To(s, 2, AwaitLoad).(coro := Queued, scheduled := 1);
    r := Then(r, CallerStep(2, false), s);
    assert IsRun(r);
    s := To(s, 2, AwaitCas(s.word));
    r := Then(r, CallerStep(2, false), s);
    assert IsRun(r);
    r := Then(r, CallerStep(2, false), To(s, 2, Parked).(word := Handoff.Word(false, 2)));
  }

  /** A second coroutine awaits it too. */
  lemma TwoAwait<V>(left: V -> V) returns (r: Run<V>)
    ensures IsRun(r)
    ensures Last(r) == State(left, true, Handoff.Word(false, 2), None, false, false, false, Queued,
                             map[2 := Parked, 4 := Refused], NotYet, None, [], Some(2), 1)
  {
    r := FirstAwait(left);
    var s := To(Last(r), 4, AwaitReady);
    r := Then(r, CallAwait(4), s);
    assert IsRun(r);
    s := To(s, 4, AwaitExchange);
    r := Then(r, CallerStep(4, false), s);
    assert IsRun(r);
    s := To(s, 4, AwaitLoad);
    r := Then(r, CallerStep(4, false), s);
    assert IsRun(r);
    s := To(s, 4, AwaitCas(s.word));
    r := Then(r, CallerStep(4, false), s);
    assert IsRun(r);
    r := Then(r, CallerStep(4, false), To(s, 4, Refused));
  }

  /** The worker runs the task to its end and resumes the coroutine that is installed. */
  lemma RunToTheEnd<V>(before: Run<V>, outcome: Outcome<V>) returns (r: Run<V>)
    requires IsRun(before)
    requires var s := Last(before);
      && s.coro.Queued? && !s.locked && s.word == Handoff.Word(false, 2)
      && 2 in s.callers && s.callers[2].Parked?
    ensures IsRun(r)
    ensures var s := Last(before);
      Last(r) == To(s, 2, Get(true)).(coro := Ended, result := Some(outcome), stored := Some(outcome), ready := true,
                                      word := Handoff.Word(true, 2), finalReached := true)
  {
    r := RunToResult(before, outcome);
    var s := Last(r);
    s := s.(coro := FinalLoaded(s.word));
    r := Then(r, WorkerStep(outcome, false), s);
    assert IsRun(r);
    s := s.(word := Handoff.Word(true, 2), coro := Fetch);
    r := Then(r, WorkerStep(outcome, false), s);
    assert IsRun(r);
    s := s.(coro := Publish(Some(2)));
    r := Then(r, WorkerStep(outcome, false), s);
    assert IsRun(r);
    s := s.(finalReached := true, coro := Transfer(Some(2)));
    r := Then(r, WorkerStep(outcome, false), s);
    assert IsRun(r);
    r := Then(r, WorkerStep(outcome, false), To(s, 2, Get(true)).(coro := Ended));
  }
}
