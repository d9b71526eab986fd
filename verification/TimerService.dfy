/**
 The timer service as one thread at a time sees it, with its mutex held: adding timers of
 both kinds, firing the earliest one, and draining the heap at shutdown. How the threads
 interleave is the subject of module Sleep.
 */
module TimerService {
  import opened Wrappers
  import opened TimerHeap
  import opened WaiterList

  /** What sleep_awaiter shares with the service. */
  class SleepWaiter {
    const gate: Gate
    var handle: Option<nat>

    constructor ()
      ensures handle == None && fresh(gate) && !gate.fired
    {
      gate := new Gate();
      handle := None;
    }
  }

  /**
   A timer: either the handle and gate of an awaiter that outlives its deadline, or a
   waiter that the service shares.
   */
  datatype Timer =
    | Legacy(handle: Option<nat>, gate: Gate?)
    | Shared(waiter: SleepWaiter)
  {
    /** Whom to resume and through which gate. */
    function HandleOf(): Option<nat>
      reads if Shared? then {waiter} else {}
    {
      if Shared? then waiter.handle else handle
    }

    function GateOf(): Gate? {
      if Shared? then waiter.gate else gate
    }

    /** The timer can resume somebody. */
    predicate Live()
      reads if Shared? then {waiter} else {}
    {
      GateOf() != null && HandleOf().Some?
    }
  }

  /** What the timer thread does next with the heap it sees. */
  datatype Decision = WaitForWork | WaitUntil(deadline: int) | Popped(entry: Entry)

  ghost function Waiters(ts: seq<Timer>): set<SleepWaiter> {
    set t | t in ts && t.Shared? :: t.waiter
  }

  /** The gates of the timers. */
  ghost function TimerGates(ts: seq<Timer>): set<Gate> {
    set t | t in ts && t.GateOf() != null :: t.GateOf() as Gate
  }

  /** Timer `i` is live, its gate was open before, and no live timer before it has the same gate. */
  ghost predicate Resumes(ts: seq<Timer>, i: nat, firedBefore: set<Gate>)
    requires i < |ts|
    reads Waiters(ts)
  {
    && Lives(ts, i)
    && ts[i].GateOf() !in firedBefore
    && (forall j :: 0 <= j < i && Lives(ts, j) ==> ts[j].GateOf() != ts[i].GateOf())
  }

  ghost predicate Lives(ts: seq<Timer>, i: nat)
    requires i < |ts|
    reads Waiters(ts)
  {
    assert ts[i] in ts;
    ts[i].Live()
  }

  /** The handles resumed when the first `n` timers are fired in order. */
  ghost function Resumed(ts: seq<Timer>, n: nat, firedBefore: set<Gate>): seq<nat>
    requires n <= |ts|
    reads Waiters(ts)
  {
    if n == 0 then []
    else if Resumes(ts, n - 1, firedBefore)
    then assert ts[n - 1] in ts; Resumed(ts, n - 1, firedBefore) + [ts[n - 1].HandleOf().value]
    else Resumed(ts, n - 1, firedBefore)
  }

  ghost predicate FiredByFirst(ts: seq<Timer>, n: nat, g: Gate)
    requires n <= |ts|
    reads Waiters(ts)
  {
    exists i :: 0 <= i < n && Lives(ts, i) && ts[i].GateOf() == g
  }

  class Service {
    var heap: seq<Entry>               // entries name their timers by position in `timers`
    var timers: seq<Timer>
    ghost var scheduled: seq<nat>      // every handle scheduled so far

    ghost predicate Valid()
      reads this
    {
      IsHeap(heap) && forall e :: e in heap ==> e.who < |timers|
    }

    constructor ()
      ensures Valid() && heap == [] && timers == [] && scheduled == []
    {
      heap, timers, scheduled := [], [], [];
    }

    method AddTimer(deadline: int, timer: Timer)
      requires Valid()
      modifies `heap, `timers
      ensures Valid() && timers == old(timers) + [timer]
      ensures PushHeap(old(heap), Entry(deadline, |old(timers)|), heap)
    {
      var e := Entry(deadline, |timers|);
      timers := timers + [timer];
      heap := Push(heap, e);
      SameMembers(old(heap), e, heap);
    }

    /** The compare-and-swap on the timer's gate, and the schedule that follows if it succeeds. */
    method Fire(timer: Timer)
      modifies `scheduled, if timer.GateOf() == null then {} else {timer.GateOf()}
      ensures if old(timer.Live() && !timer.GateOf().fired)
              then timer.GateOf().fired && scheduled == old(scheduled) + [old(timer.HandleOf()).value]
              else scheduled == old(scheduled)
                   && (timer.GateOf() != null ==> timer.GateOf().fired == old(timer.GateOf().fired))
    {
      var gate := timer.GateOf();
      var handle := timer.HandleOf();
      if gate == null || handle == None {
        return;
      }
      if !gate.fired {
        gate.fired := true;
        scheduled := scheduled + [handle.value];
      }
    }

    /** One round of the timer thread's loop while the service is running. */
    method Round(now: int) returns (d: Decision)
      requires Valid()
      modifies this, TimerGates(timers)
      ensures Valid() && timers == old(timers)
      ensures match d
              case WaitForWork => old(heap) == [] && heap == [] && scheduled == old(scheduled)
              case WaitUntil(t) =>
                && heap == old(heap) && scheduled == old(scheduled) && now < t
                && (forall e :: e in heap ==> t <= e.deadline) && (exists e :: e in heap && e.deadline == t)
              case Popped(e) =>
                && old(heap) != [] && e == old(heap)[0] && e.deadline <= now && PopHeap(old(heap), heap)
                && (forall x :: x in old(heap) ==> e.deadline <= x.deadline)
                && scheduled == old(scheduled) + old(Resumed([timers[e.who]], 1, FiredGates(timers)))
                && (old(timers[e.who].Live()) ==> timers[e.who].GateOf().fired)
    {
      if heap == [] {
        return WaitForWork;
      }
      assert heap[0] in heap;
      forall e | e in heap
        ensures heap[0].deadline <= e.deadline
      {
        var k :| 0 <= k < |heap| && heap[k] == e;
        FrontIsEarliest(heap, k);
      }
      var e := heap[0];
      if e.deadline <= now {
        var rest := Pop(heap);
        SameMembers(rest, e, heap);
        heap := rest;
        var timer := timers[e.who];
        assert timer in timers;
        Fire(timer);
        return Popped(e);
      }
      return WaitUntil(e.deadline);
    }

    ghost function FiredGates(ts: seq<Timer>): set<Gate>
      reads TimerGates(ts)
    {
      set g | g in TimerGates(ts) && g.fired
    }

    /** The drain at shutdown: every live timer left is fired, in the order of the heap. */
    method Drain()
      requires Valid()
      modifies this, TimerGates(timers)
      ensures Valid() && heap == [] && timers == old(timers)
      ensures var ts := old(seq(|heap|, k requires 0 <= k < |heap| && heap[k].who < |timers| reads this =>
                                   timers[heap[k].who]));
              && scheduled == old(scheduled) + old(Resumed(ts, |ts|, FiredGates(timers)))
              && (forall i :: 0 <= i < |ts| && Lives(ts, i) ==> ts[i].GateOf().fired)
    {
      ghost var ts := seq(|heap|, k requires 0 <= k < |heap| && heap[k].who < |timers| reads this =>
                                   timers[heap[k].who]);
      ghost var before := FiredGates(timers);
      var k := 0;
      while k < |heap|
        invariant 0 <= k <= |heap| && heap == old(heap) && timers == old(timers)
        invariant scheduled == old(scheduled) + old(Resumed(ts, k, before))
        invariant forall g | g in TimerGates(timers) :: g.fired == (g in before || FiredByFirst(ts, k, g))
      {
        assert ts[k] in timers;
        Fire(timers[heap[k].who]);
        k := k + 1;
      }
      forall i | 0 <= i < |ts| && Lives(ts, i)
        ensures ts[i].GateOf().fired
      {
        assert ts[i] in timers && FiredByFirst(ts, |ts|, ts[i].GateOf());
      }
      heap := [];
    }
  }
}
