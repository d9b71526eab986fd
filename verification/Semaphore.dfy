/**
 The counting semaphore: acquire waits for a permit, release adds `n` permits and notifies
 `n` times. No waiter is stranded while permits are available, and permits are conserved.
 */
module Semaphore {
  import opened Wrappers
  import opened Monitor
  import opened Runs

  function Notifications(n: int): nat {
    if n > 0 then n else 0
  }

  class SyncSemaphore {
    var count: int

    constructor (initial: int)
      ensures count == initial
    {
      count := initial;
    }

    method TryAcquire() returns (ok: bool)
      modifies this
      ensures ok <==> old(count) > 0
      ensures count == old(count) - if ok then 1 else 0
    {
      if count > 0 {
        count := count - 1;
        return true;
      }
      return false;
    }

    /** Returns how often it notifies. */
    method Release(n: int) returns (notified: nat)
      modifies this
      ensures count == old(count) + n && notified == Notifications(n)
    {
      count := count + n;
      notified := 0;
      var i := 0;
      while i < n
        invariant 0 <= i <= Notifications(n) && notified == i
      {
        notified := notified + 1;
        i := i + 1;
      }
    }
  }

  // ---------------------------------------------------------------- interleavings

  /**
   A thread that has found no permit keeps the mutex until it sleeps; a release keeps it
   until it has notified `left` more times.
   */
  datatype Holder = Free | WillSleep(t: nat) | Releasing(left: nat)

  datatype State = State(
    count: int,
    mutex: Holder,
    waiters: Pool,
    expired: set<nat>,               // waiters whose time is up
    initial: int, released: int, acquired: nat)   // history

  datatype Action =
    | Acquire(t: nat)                // a call of acquire, or a woken waiter at the mutex again
    | TryAcquire
    | FallAsleep
    | WakeUp(t: nat, timeout: bool)
    | Release(n: int)
    | Notify

  ghost predicate Init(s: State) {
    s == State(s.initial, Free, Pool({}, {}), {}, s.initial, 0, 0)
  }

  ghost predicate Step(s: State, a: Action, s': State) {
    match a
    case Acquire(t) =>
      && s.mutex == Free && t !in s.waiters.asleep
      && if s.count > 0
         then s' == s.(count := s.count - 1, acquired := s.acquired + 1,
                       waiters := s.waiters.Leave(t), expired := s.expired - {t})
         else if t in s.expired
         then s' == s.(waiters := s.waiters.Leave(t), expired := s.expired - {t})
         else s' == s.(mutex := WillSleep(t), waiters := s.waiters.Leave(t))
    case TryAcquire =>
      && s.mutex == Free
      && s' == if s.count > 0 then s.(count := s.count - 1, acquired := s.acquired + 1) else s
    case FallAsleep =>
      s.mutex.WillSleep? && s' == s.(mutex := Free, waiters := s.waiters.Sleep(s.mutex.t))
    case WakeUp(t, timeout) =>
      && t in s.waiters.asleep
      && s' == s.(waiters := s.waiters.Wake(t), expired := if timeout then s.expired + {t} else s.expired)
    case Release(n) =>
      && s.mutex == Free
      && s' == s.(mutex := Releasing(Notifications(n)), count := s.count + n, released := s.released + n)
    case Notify =>
      && s.mutex.Releasing?
      && if s.mutex.left == 0 then s' == s.(mutex := Free)
         else NotifyOne(s.waiters, s'.waiters) && s' == s.(mutex := Releasing(s.mutex.left - 1), waiters := s'.waiters)
  }

  ghost predicate Inv(s: State) {
    && s.waiters.Valid()
    && s.count + s.acquired == s.initial + s.released
    && match s.mutex
       case Free => NoneStranded(s.waiters, s.count)
       case WillSleep(t) => s.count <= 0 && t !in s.waiters.Members()
       case Releasing(left) => NoneStranded(s.waiters, s.count - left)
  }

  lemma StepKeepsInv(s: State, a: Action, s': State)
    requires Inv(s) && Step(s, a, s')
    ensures Inv(s')
  {
    match a
    case Acquire(t) =>
      if s.count > 0 {
        TakeAndLeave(s.waiters, t, s.count);
      }
    case Notify =>
      if s.mutex.left > 0 {
        DepositAndNotify(s.waiters, s'.waiters, s.count - s.mutex.left);
      }
    case TryAcquire =>
    case FallAsleep =>
    case Release(n) =>
    case WakeUp(t, timeout) =>
      if s.mutex == Free {
        WakeByItself(s.waiters, t, s.count);
      } else if s.mutex.Releasing? {
        WakeByItself(s.waiters, t, s.count - s.mutex.left);
      }
  }

  type Run = Runs.Run<State, Action>

  ghost predicate IsRun(r: Run) {
    match r
    case Start(s) => Init(s)
    case Then(p, a, s) => IsRun(p) && Step(Last(p), a, s)
  }

  lemma {:induction false} RunKeepsInv(r: Run)
    requires IsRun(r)
    ensures Inv(Last(r))
  {
    match r
    case Start(s) =>
    case Then(p, a, s) =>
      RunKeepsInv(p);
      StepKeepsInv(Last(p), a, s);
  }

  /** When the mutex is free and somebody sleeps, every available permit has a woken waiter coming for it. */
  lemma NoWaiterStranded(r: Run)
    requires IsRun(r) && Last(r).mutex == Free && Last(r).waiters.asleep != {}
    ensures Last(r).count <= |Last(r).waiters.awake|
  {
    RunKeepsInv(r);
  }

  /** Permits are neither lost nor invented. */
  lemma {:induction false} PermitsConserved(r: Run)
    requires IsRun(r)
    ensures Last(r).count + Last(r).acquired == Last(r).initial + Last(r).released
  {
    RunKeepsInv(r);
  }

  /** The semaphore starts with no debt and no release takes permits away. */
  ghost predicate OnlyAdds(r: Run) {
    match r
    case Start(s) => s.initial >= 0
    case Then(p, a, _) => OnlyAdds(p) && (a.Release? ==> a.n >= 0)
  }

  /** More permits are never acquired than there were and were released. */
  lemma {:induction false} NeverOverdrawn(r: Run)
    requires IsRun(r) && OnlyAdds(r)
    ensures Last(r).acquired <= Last(r).initial + Last(r).released
  {
    match r
    case Start(s) =>
    case Then(p, a, s) =>
      NeverOverdrawn(p);
      RunKeepsInv(p);
  }
}
