/**
 The task object and its shared state as one thread uses them, and the proof that an
 operation that nobody interrupts is a path of steps in the interleaved model with the same
 effect.
 */
module TaskObject {
  import opened Wrappers
  import Handoff
  import C = CoroTask

  /** The fields of a task and its shared state. */
  datatype View<V> = View(
    started: bool, word: Handoff.Word, result: Option<C.Outcome<V>>, ready: bool, finalReached: bool, scheduled: nat) {
    function Start(): View<V> {
      this.(started := true, scheduled := scheduled + if started || finalReached then 0 else 1)
    }

    /** co_await: the handle is scheduled if nobody did, then the awaiter is installed. */
    function Await(awaiting: nat): View<V> {
      this.(started := true, scheduled := scheduled + if started then 0 else 1,
            word := if word.address != 0 then word else word.(address := awaiting))
    }

    /** Whether the awaiter goes on at once: nobody is installed before it and the task is done. */
    predicate AwaitGoesOn() {
      word == Handoff.Word(true, 0)
    }

    /** The final suspension: ready, and the frame may go. */
    function Finish(): View<V> {
      this.(word := word.(ready := true), finalReached := true)
    }

    /** Whom the final suspension resumes. */
    function FinishResumes(): Option<nat> {
      if !word.ready && word.address != 0 then Some(word.address) else None
    }

    /** Getting the outcome, once it is there: a value is moved out, an exception is copied. */
    function Take(left: V -> V): View<V> {
      if ready && result.Some? && result.value.Value?
      then this.(result := Some(C.Value(left(result.value.v))))
      else this
    }

    /** What a get delivers; None while it waits. */
    function Taken(): Option<C.Outcome<V>> {
      if ready then result else None
    }
  }

  class SharedState<V> {
    const left: V -> V                // what moving out of a value leaves behind
    var result: Option<C.Outcome<V>>
    var ready: bool
    var finalReached: bool
    const handoff: Handoff.ContinuationHandoff

    ghost predicate Valid()
      reads this
    {
      ready ==> result.Some?
    }

    constructor (left: V -> V)
      ensures Valid() && this.left == left && result == None && !ready && !finalReached
      ensures fresh(handoff) && Handoff.Decode(handoff.state) == Handoff.Word(false, 0)
    {
      this.left := left;
      result, ready, finalReached := None, false, false;
      handoff := new Handoff.ContinuationHandoff();
    }

    method SetValue(v: V)
      modifies `result, `ready
      ensures Valid() && result == Some(C.Value(v)) && ready
    {
      result := Some(C.Value(v));
      ready := true;
    }

    method SetException(e: int)
      modifies `result, `ready
      ensures Valid() && result == Some(C.Exception(e)) && ready
    {
      result := Some(C.Exception(e));
      ready := true;
    }

    /**
     One look at the wait predicate: None if the caller has to wait on, else the outcome. A
     value is moved out, and what a move leaves stays; an exception is thrown again and again.
     */
    method Get() returns (outcome: Option<C.Outcome<V>>)
      requires Valid()
      modifies `result
      ensures Valid()
      ensures outcome == if ready then old(result) else None
      ensures result == if outcome.Some? && outcome.value.Value? then Some(C.Value(left(outcome.value.v)))
                        else old(result)
    {
      if !ready {
        return None;
      }
      outcome := result;
      if outcome.value.Value? {
        result := Some(C.Value(left(outcome.value.v)));
      }
    }

    /** The final awaiter: decides who resumes the continuation, and publishes completion last. */
    method FinalSuspend(failures: nat) returns (continuation: Option<nat>)
      modifies `finalReached, handoff
      ensures finalReached
      ensures var w := old(Handoff.Decode(handoff.state));
        && Handoff.Decode(handoff.state) == w.(ready := true)
        && continuation == if !w.ready && w.address != 0 then Some(w.address) else None
    {
      continuation := None;
      var resume := handoff.SetReady(failures);
      if resume {
        continuation := handoff.GetContinuation();
      }
      finalReached := true;
    }
  }

  class Task<V> {
    const state: SharedState<V>
    var started: bool
    var frameAlive: bool
    ghost var scheduled: nat

    ghost function Fields(): View<V>
      reads this, state, state.handoff
    {
      View(started, Handoff.Decode(state.handoff.state), state.result, state.ready, state.finalReached, scheduled)
    }

    /** A task that was not started has not finished, and its handle was scheduled once otherwise. */
    ghost predicate Valid()
      reads this, state
    {
      && state.Valid()
      && (state.finalReached ==> started)
      && scheduled == if started then 1 else 0
    }

    constructor (left: V -> V)
      ensures Valid() && frameAlive && fresh(state) && fresh(state.handoff) && state.left == left
      ensures Fields() == View(false, Handoff.Word(false, 0), None, false, false, 0)
    {
      state := new SharedState(left);
      started, frameAlive, scheduled := false, true, 0;
    }

    method Start()
      requires Valid() && frameAlive
      modifies `started, `scheduled
      ensures Valid() && Fields() == old(Fields()).Start()
    {
      if !started {
        started := true;
        if !state.finalReached {
          scheduled := scheduled + 1;
        }
      }
    }

    method AwaitReady() returns (ready: bool)
      ensures ready == Fields().ready
    {
      ready := state.ready;
    }

    /** Returns the coroutine to resume, None for the no-op coroutine. */
    method AwaitSuspend(awaiting: nat, failures: nat) returns (resume: Option<nat>)
      requires Valid() && frameAlive && Handoff.IsAddress(awaiting)
      modifies `started, `scheduled, state.handoff
      ensures Valid() && Fields() == old(Fields()).Await(awaiting)
      ensures resume == if old(Fields()).AwaitGoesOn() then Some(awaiting) else None
    {
      var was := started;
      started := true;
      if !was {
        scheduled := scheduled + 1;
      }
      var toResume := state.handoff.SetContinuation(awaiting, failures);
      if toResume.Some? {
        return Some(awaiting);
      }
      return None;
    }

    /** get: a start, and one look at the wait predicate. */
    method Get() returns (outcome: Option<C.Outcome<V>>)
      requires Valid() && frameAlive
      modifies `started, `scheduled, state`result
      ensures Valid() && Fields() == old(Fields()).Start().Take(state.left)
      ensures outcome == old(Fields()).Taken()
    {
      Start();
      outcome := state.Get();
    }

    /** The destructor with one look at its spin flag: true if it is through, false if it goes on spinning. */
    method Destroy() returns (done: bool)
      requires Valid() && frameAlive
      modifies `frameAlive
      ensures done <==> !started || state.finalReached
      ensures frameAlive == !done
    {
      if started {
        if !state.finalReached {
          return false;
        }
      }
      frameAlive := false;
      return true;
    }
  }

  // ---------------------------------------------------------------- the same in the interleaved model

  function ViewOf<V>(s: C.State<V>): View<V> {
    View(s.started, s.word, s.result, s.ready, s.finalReached, s.scheduled)
  }

  /** Steps of one caller with nobody in between and no spurious failure. */
  ghost predicate CallerPath<V>(path: seq<C.State<V>>, id: nat) {
    path != [] && forall k :: 0 <= k < |path| - 1 ==> C.Step(path[k], C.CallerStep(id, false), path[k + 1])
  }

  ghost predicate WorkerPath<V>(path: seq<C.State<V>>, outcome: C.Outcome<V>) {
    path != [] && forall k :: 0 <= k < |path| - 1 ==> C.Step(path[k], C.WorkerStep(outcome, false), path[k + 1])
  }

  /** start */
  lemma UninterruptedStart<V>(s: C.State<V>, id: nat) returns (path: seq<C.State<V>>)
    requires C.Inv(s) && id in s.callers && s.callers[id] == C.StartCas(false)
    ensures CallerPath(path, id) && path[0] == s
    ensures var t := path[|path| - 1];
      && ViewOf(t) == ViewOf(s).Start()
      && t == s.(callers := s.callers[id := C.Returned(false, None)], started := t.started, winner := t.winner,
                 coro := t.coro, scheduled := t.scheduled)
  {
    if s.started {
      path := [s, C.To(s, id, C.Returned(false, None))];
    } else {
      var a := C.To(s, id, C.StartCheck(false)).(started := true, winner := Some(id));
      var b := C.To(a, id, C.Returned(false, None)).(coro := C.Queued, scheduled := a.scheduled + 1);
      path := [s, a, b];
      assert b.callers == s.callers[id := C.Returned(false, None)];
    }
  }

  /** The exchange on started_ and what follows it, up to the load of the word. */
  lemma UninterruptedExchange<V>(s: C.State<V>, id: nat) returns (path: seq<C.State<V>>)
    requires C.Inv(s) && id in s.callers && s.callers[id] == C.AwaitExchange
    ensures CallerPath(path, id) && path[0] == s
    ensures var t := path[|path| - 1];
      && ViewOf(t) == ViewOf(s).(started := true, scheduled := s.scheduled + if s.started then 0 else 1)
      && t.callers == s.callers[id := C.AwaitLoad] && t.destroy == s.destroy
  {
    if s.started {
      path := [s, C.To(s, id, C.AwaitLoad)];
    } else {
      var a := C.To(s, id, C.AwaitSchedule).(started := true, winner := Some(id));
      var b := C.To(a, id, C.AwaitLoad).(coro := C.Queued, scheduled := a.scheduled + 1);
      path := [s, a, b];
    }
  }

  /** The load of the word and one successful, or refused, round of the loop. */
  lemma UninterruptedInstall<V>(s: C.State<V>, id: nat) returns (path: seq<C.State<V>>)
    requires id in s.callers && s.callers[id] == C.AwaitLoad
    ensures CallerPath(path, id) && path[0] == s
    ensures var t := path[|path| - 1];
      && ViewOf(t) == ViewOf(s).(word := if s.word.address != 0 then s.word else s.word.(address := id))
      && t.callers == s.callers[id := if s.word.address != 0 then C.Refused
                                      else if s.word.ready then C.Get(true) else C.Parked]
  {
    var a := C.To(s, id, C.AwaitCas(s.word));
    var b := if s.word.address != 0 then C.To(a, id, C.Refused)
             else C.To(a, id, if s.word.ready then C.Get(true) else C.Parked).(word := s.word.(address := id));
    path := [s, a, b];
  }

  /**
   co_await: what the object does at one go, the caller does step by step; it goes on exactly
   if the object says so.
   */
  lemma UninterruptedAwait<V>(s: C.State<V>, id: nat) returns (path: seq<C.State<V>>)
    requires C.Inv(s) && id in s.callers && s.callers[id] == C.AwaitExchange
    ensures CallerPath(path, id) && path[0] == s
    ensures var t := path[|path| - 1];
      && ViewOf(t) == ViewOf(s).Await(id)
      && id in t.callers && (t.callers[id] == C.Get(true) <==> ViewOf(s).AwaitGoesOn())
      && (t.callers[id] == C.Get(true) || t.callers[id] == C.Parked || t.callers[id] == C.Refused)
  {
    var first := UninterruptedExchange(s, id);
    var mid := first[|first| - 1];
    var second := UninterruptedInstall(mid, id);
    path := first + second[1..];
    forall k | 0 <= k < |path| - 1 ensures C.Step(path[k], C.CallerStep(id, false), path[k + 1]) {
      if k >= |first| - 1 {
        assert path[k] == second[k - (|first| - 1)] && path[k + 1] == second[k - (|first| - 1) + 1];
      }
    }
    assert path[|path| - 1] == second[|second| - 1];
  }

  /** The final suspension. */
  lemma UninterruptedFinish<V>(s: C.State<V>, outcome: C.Outcome<V>) returns (path: seq<C.State<V>>)
    requires C.Inv(s) && s.coro == C.AtFinal
    ensures WorkerPath(path, outcome) && path[0] == s
    ensures var t := path[|path| - 1];
      ViewOf(t) == ViewOf(s).Finish() && t.coro == C.Transfer(ViewOf(s).FinishResumes()) && t.callers == s.callers
  {
    var a := s.(coro := C.FinalLoaded(s.word));
    var b := a.(word := s.word.(ready := true), coro := if s.word.address != 0 then C.Fetch else C.Publish(None));
    if s.word.address != 0 {
      var c := b.(coro := C.Publish(Some(s.word.address)));
      path := [s, a, b, c, c.(finalReached := true, coro := C.Transfer(Some(s.word.address)))];
    } else {
      path := [s, a, b, b.(finalReached := true, coro := C.Transfer(None))];
    }
  }

  /** get: when the result is there one step delivers what the object delivers, and until then there is no step. */
  lemma UninterruptedGet<V>(s: C.State<V>, id: nat)
    requires C.Inv(s) && id in s.callers && s.callers[id].Get? && !s.locked
    ensures ViewOf(s).Taken() == None <==> forall t :: !C.GetMoves(s, id, t)
    ensures forall t :: C.GetMoves(s, id, t) ==>
      && ViewOf(t) == ViewOf(s).Take(s.left)
      && t.callers == s.callers[id := C.Returned(s.callers[id].suspended, ViewOf(s).Taken())]
  {
    if s.ready {
      var after := C.To(s, id, C.Returned(s.callers[id].suspended, s.result)).(readers := s.readers + [id]);
      var t := if s.result.value.Value? then after.(result := Some(C.Value(s.left(s.result.value.v)))) else after;
      assert C.GetMoves(s, id, t);
    }
  }

  /** The destructor: from its entry its own steps reach the freed frame, or they spin, as the object says. */
  lemma UninterruptedDestroy<V>(s: C.State<V>) returns (path: seq<C.State<V>>)
    requires s.destroy.NotYet? && C.Quiet(s)
    ensures path != [] && path[0] == s && forall k :: 0 <= k < |path| - 1 ==> C.DestructorMoves(path[k], path[k + 1])
    ensures var t := path[|path| - 1];
      && t == s.(destroy := t.destroy)
      && if !s.started || s.finalReached then !C.FrameAlive(t)
         else t.destroy.Spinning? && forall u :: C.DestructorMoves(t, u) ==> u == t
  {
    if !s.started {
      path := [s, s.(destroy := C.Destroying), s.(destroy := C.FrameGone)];
    } else if s.finalReached {
      path := [s, s.(destroy := C.Spinning), s.(destroy := C.Destroying), s.(destroy := C.FrameGone)];
    } else {
      path := [s, s.(destroy := C.Spinning)];
    }
  }
}
