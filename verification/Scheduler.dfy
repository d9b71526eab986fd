/**
 The coroutine workers: what becomes of a submitted handle, and the scan over the other
 workers' deques.

 Every submission goes to one external queue. Each worker also has its own deque, from which
 it pops and the others steal. A comment in the scheduler says that continuations are pushed
 there, and the machine has that push; the scheduler's code does not, so what its runs do is
 what the machine does without it.
 */
module Scheduler {
  import opened Wrappers
  import opened Runs

  // ---------------------------------------------------------------- the steal scan

  /** The worker that is probed in round `i` of a scan that begins at `start`. */
  function Victim(start: nat, i: nat, n: nat): nat
    requires n > 0
  {
    (start + i) % n
  }

  lemma {:induction false} Remainders(a: nat, b: nat, n: nat)
    requires n > 0 && a <= b && a % n == b % n
    ensures b - a < n ==> a == b
  {
    assert a == a / n * n + a % n && b == b / n * n + b % n;
    var d := b / n - a / n;
    assert b - a == d * n;
    MultipleOutOfReach(d, n);
  }

  /** In `n` rounds every worker comes up, and none twice. */
  lemma {:induction false} VictimsArePermutation(start: nat, n: nat)
    requires n > 0
    ensures forall i, j :: 0 <= i < j < n ==> Victim(start, i, n) != Victim(start, j, n)
    ensures forall v :: 0 <= v < n ==> Victim(start, RoundOf(start, v, n), n) == v
  {
    forall i, j | 0 <= i < j < n ensures Victim(start, i, n) != Victim(start, j, n) {
      if Victim(start, i, n) == Victim(start, j, n) {
        Remainders(start + i, start + j, n);
      }
    }
    forall v | 0 <= v < n ensures Victim(start, RoundOf(start, v, n), n) == v {
      RoundFinds(start, v, n);
    }
  }

  /** The round in which `v` comes up. */
  function RoundOf(start: nat, v: nat, n: nat): (i: nat)
    requires v < n
    ensures i < n
  {
    (v + n - start % n) % n
  }

  lemma {:induction false} RoundFinds(start: nat, v: nat, n: nat)
    requires v < n
    ensures Victim(start, RoundOf(start, v, n), n) == v
  {
    var at := start % n;
    var i := RoundOf(start, v, n);
    assert start == start / n * n + at;
    if v < at {
      assert i == v + n - at by { Modulo(v + n - at, 0, n); }
      assert start + i == (start / n + 1) * n + v;
      Modulo(v, start / n + 1, n);
    } else {
      assert i == v - at by {
        assert v + n - at == 1 * n + (v - at);
        Modulo(v - at, 1, n);
      }
      assert start + i == start / n * n + v;
      Modulo(v, start / n, n);
    }
  }

  lemma {:induction false} Modulo(x: nat, k: nat, n: nat)
    requires x < n
    ensures (k * n + x) % n == x
  {
    var y := k * n + x;
    var d: int := k - y / n;
    assert y == y / n * n + y % n;
    assert x + d * n == y % n;
    MultipleOutOfReach(d, n);
  }

  lemma MultipleOutOfReach(d: int, n: nat)
    ensures d >= 1 ==> d * n >= n
    ensures d <= -1 ==> d * n + n <= 0
  {
    if d >= 1 {
      assert (d - 1) * n >= 0;
    } else if d <= -1 {
      assert (-d - 1) * n >= 0;
    }
  }

  /** No probe but the last gave a handle that can be resumed, and the last gave `resumed`, if there is one. */
  ghost predicate Answered(answers: seq<Option<nat>>, valid: set<nat>, probed: seq<nat>, resumed: Option<nat>) {
    && (forall k :: 0 <= k < |probed| ==> probed[k] < |answers|)
    && (forall k :: 0 <= k < |probed| && (resumed == None || k < |probed| - 1) ==>
          answers[probed[k]] == None || answers[probed[k]].value !in valid)
    && (resumed.Some? ==>
          probed != [] && resumed == answers[probed[|probed| - 1]] && resumed.value in valid)
  }

  /**
   One scan of worker `me`. `answers[v]` is what the steal from worker `v` returns and `valid`
   the handles that can be resumed. A stolen handle that cannot is dropped and the scan goes on.
   */
  method StealScan(me: nat, start: nat, answers: seq<Option<nat>>, valid: set<nat>)
    returns (resumed: Option<nat>, probed: seq<nat>)
    requires me < |answers|
    ensures me !in probed && forall i, j :: 0 <= i < j < |probed| ==> probed[i] != probed[j]
    ensures resumed == None ==> forall v :: 0 <= v < |answers| && v != me ==> v in probed
    ensures Answered(answers, valid, probed, resumed)
  {
    var n := |answers|;
    resumed, probed := None, [];
    if n > 1 {
      var i := 0;
      while i < n && resumed == None
        invariant 0 <= i <= n
        invariant ProbedInRounds(start, n, me, i, probed)
        invariant Answered(answers, valid, probed, resumed)
      {
        var victim := Victim(start, i, n);
        NextRound(start, n, me, i, probed);
        i := i + 1;
        if victim == me {
          continue;
        }
        ProbeAppended(answers, valid, probed, victim);
        probed := probed + [victim];
        var stolen := answers[victim];
        if stolen.Some? && stolen.value in valid {
          resumed := stolen;
        }
      }
      if resumed == None {
        AllProbed(start, n, me, probed);
      }
    }
  }

  lemma ProbeAppended(answers: seq<Option<nat>>, valid: set<nat>, probed: seq<nat>, victim: nat)
    requires Answered(answers, valid, probed, None) && victim < |answers|
    ensures var a := answers[victim];
      Answered(answers, valid, probed + [victim], if a.Some? && a.value in valid then a else None)
  {
  }

  lemma AllProbed(start: nat, n: nat, me: nat, probed: seq<nat>)
    requires n > 0 && ProbedInRounds(start, n, me, n, probed)
    ensures forall v :: 0 <= v < n && v != me ==> v in probed
  {
    VictimsArePermutation(start, n);
    forall v | 0 <= v < n && v != me ensures v in probed {
      assert Victim(start, RoundOf(start, v, n), n) == v;
    }
  }

  /** After `i` rounds exactly the victims of those rounds other than `me` have been probed, each once. */
  ghost predicate ProbedInRounds(start: nat, n: nat, me: nat, i: nat, probed: seq<nat>)
    requires n > 0
  {
    && (forall k :: 0 <= k < |probed| ==>
          probed[k] < n && probed[k] != me && RoundOf(start, probed[k], n) < i)
    && (forall j, k :: 0 <= j < k < |probed| ==> probed[j] != probed[k])
    && (forall j :: 0 <= j < i && Victim(start, j, n) != me ==> Victim(start, j, n) in probed)
  }

  lemma {:induction false} NextRound(start: nat, n: nat, me: nat, i: nat, probed: seq<nat>)
    requires n > 0 && i < n && ProbedInRounds(start, n, me, i, probed)
    ensures var victim := Victim(start, i, n);
      ProbedInRounds(start, n, me, i + 1, if victim == me then probed else probed + [victim])
  {
    VictimsArePermutation(start, n);
    var victim := Victim(start, i, n);
    var round := RoundOf(start, victim, n);
    assert Victim(start, round, n) == victim;
    assert round == i;
    var probed' := if victim == me then probed else probed + [victim];
    forall j | 0 <= j < i + 1 && Victim(start, j, n) != me ensures Victim(start, j, n) in probed' {
      assert j < i ==> Victim(start, j, n) in probed;
    }
  }

  // ---------------------------------------------------------------- submissions

  /** A submission of a coroutine handle; the same coroutine can be submitted again and again. */
  datatype Handle = Null | Noop | Garbage | Coroutine(id: nat)

  datatype Fate =
    | Validated                    // past the checks of the handle
    | Accepting                    // and past the checks of the scheduler
    | Rejected
    | Threw                        // the external queue was closed in the meantime
    | RanInline
    | Queued                       // in the external queue
    | Local(worker: nat)           // in a worker's own deque
    | Taken(worker: nat)           // by a worker that has not looked at it yet
    | Resumed(worker: nat)
    | Dropped(worker: nat)         // taken, but not resumable any more

  /** Where a worker is in its loop. */
  datatype WorkerPc =
    | AtCheck                      // about to read the shutdown flag
    | AtOwn                        // about to pop its own deque
    | AtExternal                   // about to try the external queue
    | AtScan                       // stealing
    | Holding(sub: nat, scanning: bool)
    | Left

  datatype State = State(
    pcs: seq<WorkerPc>,              // the workers
    external: seq<nat>,
    deques: seq<seq<nat>>,
    handles: map<nat, Handle>,       // every submission
    fates: map<nat, Fate>,
    finished: set<nat>,              // coroutines that are done
    shuttingDown: bool,
    closed: bool,                    // the external queue
    resumes: seq<nat>)               // history: submissions whose handle was resumed by the scheduler

  datatype Action =
    | Submit(sub: nat, handle: Handle)
    | CheckScheduler(sub: nat)
    | Send(sub: nat)
    | PushOwn(sub: nat, worker: nat, handle: Handle)
    | CheckFlag(worker: nat)
    | PopOwn(worker: nat)
    | TakeExternal(worker: nat)
    | Steal(worker: nat, victim: nat)
    | GiveUp(worker: nat)            // nothing left to steal; waits and is woken
    | Look(worker: nat)
    | Finish(coroutine: nat)
    | ShutDown
    | CloseExternal

  ghost predicate Init(s: State) {
    var n := |s.pcs|;
    s == State(seq(n, _ => AtCheck), [], seq(n, _ => []), map[], map[], {}, false, false, [])
  }

  predicate Done(s: State, h: Handle) {
    h.Coroutine? && h.id in s.finished
  }

  /** schedule_coro_handle's checks: not null, an address that can be one, and not done. */
  predicate Acceptable(s: State, h: Handle) {
    !h.Null? && !h.Garbage? && !Done(s, h)
  }

  /** What a worker asks of a handle before it resumes it. */
  predicate Resumable(s: State, h: Handle) {
    !h.Null? && !h.Noop? && !Done(s, h)
  }

  function SetFate(s: State, sub: nat, f: Fate): State {
    s.(fates := s.fates[sub := f])
  }

  function Move(s: State, w: nat, pc: WorkerPc): State
    requires w < |s.pcs|
  {
    s.(pcs := s.pcs[w := pc])
  }

  /** The worker takes a submission out of a queue. */
  function Take(s: State, w: nat, sub: nat, scanning: bool): State
    requires w < |s.pcs|
  {
    SetFate(Move(s, w, Holding(sub, scanning)), sub, Taken(w))
  }

  ghost predicate IsAt(s: State, w: nat, pc: WorkerPc) {
    w < |s.pcs| == |s.deques| && s.pcs[w] == pc
  }

  /** A step of somebody who submits. */
  ghost predicate SubmitterStep(s: State, a: Action, s': State) {
    match a
    case Submit(sub, h) =>
      && sub !in s.handles
      && s' == SetFate(s.(handles := s.handles[sub := h]), sub, if Acceptable(s, h) then Validated else Rejected)
    case CheckScheduler(sub) =>
      && sub in s.handles && sub in s.fates && s.fates[sub] == Validated
      && s' == if s.shuttingDown && Done(s, s.handles[sub]) then SetFate(s, sub, Rejected)
               else if s.shuttingDown || s.pcs == [] then SetFate(s, sub, RanInline).(resumes := s.resumes + [sub])
               else SetFate(s, sub, Accepting)
    case Send(sub) =>
      && sub in s.fates && s.fates[sub] == Accepting
      && s' == if s.closed then SetFate(s, sub, Threw) else SetFate(s, sub, Queued).(external := s.external + [sub])
    case PushOwn(sub, w, h) =>
      && sub !in s.handles && w < |s.deques|
      && s' == SetFate(s, sub, Local(w)).(handles := s.handles[sub := h], deques := s.deques[w := s.deques[w] + [sub]])
    case _ => false
  }

  /** A step of a worker's loop. */
  ghost predicate WorkerStep(s: State, a: Action, s': State) {
    match a
    case CheckFlag(w) => IsAt(s, w, AtCheck) && s' == Move(s, w, if s.shuttingDown then Left else AtOwn)
    case PopOwn(w) =>
      && IsAt(s, w, AtOwn)
      && var q := s.deques[w];
         s' == if q == [] then Move(s, w, AtExternal)
               else Take(s, w, q[|q| - 1], false).(deques := s.deques[w := q[..|q| - 1]])
    case TakeExternal(w) =>
      && IsAt(s, w, AtExternal)
      && s' == if s.external == [] then Move(s, w, AtScan)
               else Take(s, w, s.external[0], false).(external := s.external[1..])
    case Steal(w, v) =>
      && IsAt(s, w, AtScan) && v < |s.deques| && v != w && s.deques[v] != []
      && s' == Take(s, w, s.deques[v][0], true).(deques := s.deques[v := s.deques[v][1..]])
    case GiveUp(w) => IsAt(s, w, AtScan) && s' == Move(s, w, AtCheck)
    case Look(w) =>
      && w < |s.pcs| && s.pcs[w].Holding?
      && var sub := s.pcs[w].sub;
         && sub in s.handles
         && s' == if Resumable(s, s.handles[sub])
                  then SetFate(Move(s, w, AtCheck), sub, Resumed(w)).(resumes := s.resumes + [sub])
                  else SetFate(Move(s, w, if s.pcs[w].scanning then AtScan else AtCheck), sub, Dropped(w))
    case _ => false
  }

  ghost predicate Step(s: State, a: Action, s': State) {
    match a
    case Finish(c) => s' == s.(finished := s.finished + {c})
    case ShutDown => s' == s.(shuttingDown := true)
    case CloseExternal => s.shuttingDown && s' == s.(closed := true)
    case _ => SubmitterStep(s, a, s') || WorkerStep(s, a, s')
  }

  predicate IsResumed(f: Fate) {
    f == RanInline || f.Resumed?
  }

  predicate IsQueued(f: Fate) {
    f == Queued
  }

  function IsLocal(w: nat): Fate -> bool {
    f => f == Local(w)
  }

  ghost predicate Unique(q: seq<nat>) {
    forall i, j :: 0 <= i < j < |q| ==> q[i] != q[j]
  }

  /** The submissions in `q` are, each once, those whose fate the predicate accepts. */
  ghost predicate Exactly(q: seq<nat>, fates: map<nat, Fate>, accepts: Fate -> bool) {
    && Unique(q)
    && (forall sub :: sub in q ==> sub in fates && accepts(fates[sub]))
    && (forall sub :: sub in fates && accepts(fates[sub]) ==> sub in q)
  }

  ghost predicate DequesOk(s: State) {
    && |s.deques| == |s.pcs|
    && (forall w :: 0 <= w < |s.deques| ==> Exactly(s.deques[w], s.fates, IsLocal(w)))
    && (forall sub :: sub in s.fates && s.fates[sub].Local? ==> s.fates[sub].worker < |s.deques|)
  }

  /** A worker holds exactly what has been taken by it, and it leaves only after the flag was set. */
  ghost predicate WorkersOk(s: State) {
    && (forall w :: 0 <= w < |s.pcs| && s.pcs[w].Holding? ==> FateOf(s.fates, s.pcs[w].sub) == Some(Taken(w)))
    && (forall sub :: sub in s.fates && s.fates[sub].Taken? ==>
          var w := s.fates[sub].worker; w < |s.pcs| && s.pcs[w].Holding? && s.pcs[w].sub == sub)
    && (forall w :: 0 <= w < |s.pcs| && s.pcs[w].Left? ==> s.shuttingDown)
  }

  ghost predicate Inv(s: State) {
    && s.fates.Keys == s.handles.Keys
    && DequesOk(s)
    && WorkersOk(s)
    && Exactly(s.external, s.fates, IsQueued)
    && Exactly(s.resumes, s.fates, IsResumed)
  }

  function FateOf(fates: map<nat, Fate>, sub: nat): Option<Fate> {
    if sub in fates then Some(fates[sub]) else None
  }

  // ---------------------------------------------------------------- what a step does

  /** The submission whose fate the step decides, if any. */
  ghost function Decided(s: State, a: Action): Option<nat> {
    match a
    case Submit(sub, _) => Some(sub)
    case CheckScheduler(sub) => Some(sub)
    case Send(sub) => Some(sub)
    case PushOwn(sub, _, _) => Some(sub)
    case TakeExternal(_) => if s.external == [] then None else Some(s.external[0])
    case PopOwn(w) => if w < |s.deques| && s.deques[w] != [] then Some(s.deques[w][|s.deques[w]| - 1]) else None
    case Steal(_, v) => if v < |s.deques| && s.deques[v] != [] then Some(s.deques[v][0]) else None
    case Look(w) => if w < |s.pcs| && s.pcs[w].Holding? then Some(s.pcs[w].sub) else None
    case CheckFlag(_) => None
    case GiveUp(_) => None
    case Finish(_) => None
    case ShutDown => None
    case CloseExternal => None
  }

  /** How a fate can change. */
  ghost predicate Follows(a: Action, before: Option<Fate>, after: Fate) {
    match a
    case Submit(_, _) => before == None && (after == Validated || after == Rejected)
    case CheckScheduler(_) =>
      before == Some(Validated) && (after == Rejected || after == RanInline || after == Accepting)
    case Send(_) => before == Some(Accepting) && (after == Threw || after == Queued)
    case PushOwn(_, w, _) => before == None && after == Local(w)
    case TakeExternal(w) => before == Some(Queued) && after == Taken(w)
    case PopOwn(w) => before == Some(Local(w)) && after == Taken(w)
    case Steal(w, v) => before == Some(Local(v)) && after == Taken(w)
    case Look(w) => before == Some(Taken(w)) && (after == Resumed(w) || after == Dropped(w))
    case CheckFlag(_) => false
    case GiveUp(_) => false
    case Finish(_) => false
    case ShutDown => false
    case CloseExternal => false
  }

  /** A step decides the fate of at most one submission, and only as `Follows` says. */
  ghost predicate Decides(s: State, a: Action, s': State) {
    match Decided(s, a)
    case None => s'.fates == s.fates && s'.handles == s.handles
    case Some(sub) =>
      && sub in s'.fates && s'.fates == s.fates[sub := s'.fates[sub]]
      && Follows(a, FateOf(s.fates, sub), s'.fates[sub])
      && s'.handles.Keys == s.handles.Keys + {sub}
      && (forall other :: other in s.handles ==> s'.handles[other] == s.handles[other])
  }

  ghost function DequeAfter(s: State, a: Action, w: nat): seq<nat>
    requires w < |s.deques|
  {
    var q := s.deques[w];
    if a.PushOwn? && a.worker == w then q + [a.sub]
    else if a.PopOwn? && a.worker == w && q != [] then q[..|q| - 1]
    else if a.Steal? && a.victim == w && q != [] then q[1..]
    else q
  }

  /** What a step does to the queues. */
  ghost predicate MovesQueues(s: State, a: Action, s': State) {
    && |s'.deques| == |s.deques|
    && s'.external == (if a.TakeExternal? && s.external != [] then s.external[1..]
                       else if a.Send? && !s.closed then s.external + [a.sub]
                       else s.external)
    && (forall w :: 0 <= w < |s.deques| ==> s'.deques[w] == DequeAfter(s, a, w))
    && (a.Send? ==> a.sub in s'.fates && (s'.fates[a.sub] == Queued <==> !s.closed))
    && (a.PushOwn? ==> a.worker < |s.deques|)
  }

  /** A resumption is recorded with the fate, and only of a handle that can be resumed. */
  ghost predicate Records(s: State, a: Action, s': State) {
    match Decided(s, a)
    case None => s'.resumes == s.resumes
    case Some(sub) =>
      && sub in s'.fates && s'.resumes == s.resumes + (if IsResumed(s'.fates[sub]) then [sub] else [])
      && (a.Look? && s'.fates[sub].Resumed? ==> sub in s.handles && Resumable(s, s.handles[sub]))
  }

  function WorkerOf(a: Action): Option<nat> {
    match a
    case CheckFlag(w) => Some(w)
    case PopOwn(w) => Some(w)
    case TakeExternal(w) => Some(w)
    case Steal(w, _) => Some(w)
    case GiveUp(w) => Some(w)
    case Look(w) => Some(w)
    case _ => None
  }

  /** Where the worker goes that takes the step. */
  ghost predicate Goes(s: State, a: Action, pc: WorkerPc, pc': WorkerPc) {
    match a
    case CheckFlag(_) => pc == AtCheck && pc' == if s.shuttingDown then Left else AtOwn
    case PopOwn(_) =>
      pc == AtOwn && pc' == if Decided(s, a).Some? then Holding(Decided(s, a).value, false) else AtExternal
    case TakeExternal(_) =>
      pc == AtExternal && pc' == if Decided(s, a).Some? then Holding(Decided(s, a).value, false) else AtScan
    case Steal(_, _) => pc == AtScan && Decided(s, a).Some? && pc' == Holding(Decided(s, a).value, true)
    case GiveUp(_) => pc == AtScan && pc' == AtCheck
    case Look(_) => pc.Holding? && (pc' == AtCheck || (pc.scanning && pc' == AtScan))
    case _ => false
  }

  /** Only the worker that takes the step moves. */
  ghost predicate MovesWorkers(s: State, a: Action, s': State) {
    && |s'.pcs| == |s.pcs|
    && (s.shuttingDown ==> s'.shuttingDown)
    && (a.Look? && Decided(s, a).Some? && FateOf(s'.fates, Decided(s, a).value) == Some(Resumed(a.worker)) ==>
          a.worker < |s'.pcs| && s'.pcs[a.worker] == AtCheck)
    && match WorkerOf(a)
       case None => s'.pcs == s.pcs
       case Some(w) => w < |s.pcs| && s'.pcs == s.pcs[w := s'.pcs[w]] && Goes(s, a, s.pcs[w], s'.pcs[w])
  }

  /**
   The submissions that can be taken next have the fate of their queue, and what a worker
   holds has been taken by it.
   */
  ghost predicate EndsOk(s: State) {
    && s.fates.Keys == s.handles.Keys
    && (s.external != [] ==> FateOf(s.fates, s.external[0]) == Some(Queued))
    && (forall w :: 0 <= w < |s.deques| && s.deques[w] != [] ==>
          && FateOf(s.fates, s.deques[w][0]) == Some(Local(w))
          && FateOf(s.fates, s.deques[w][|s.deques[w]| - 1]) == Some(Local(w)))
    && (forall w :: 0 <= w < |s.pcs| && s.pcs[w].Holding? ==> FateOf(s.fates, s.pcs[w].sub) == Some(Taken(w)))
  }

  lemma InvEnds(s: State)
    requires Inv(s)
    ensures EndsOk(s)
  {
    if s.external != [] {
      assert s.external[0] in s.external;
    }
    forall w | 0 <= w < |s.deques| && s.deques[w] != []
      ensures FateOf(s.fates, s.deques[w][0]) == Some(Local(w))
      ensures FateOf(s.fates, s.deques[w][|s.deques[w]| - 1]) == Some(Local(w))
    {
      assert Exactly(s.deques[w], s.fates, IsLocal(w));
      assert s.deques[w][0] in s.deques[w] && s.deques[w][|s.deques[w]| - 1] in s.deques[w];
    }
  }

  lemma SubmitterDecides(s: State, a: Action, s': State)
    requires EndsOk(s) && SubmitterStep(s, a, s')
    ensures Decides(s, a, s')
  {
  }

  lemma WorkerDecides(s: State, a: Action, s': State)
    requires EndsOk(s) && WorkerStep(s, a, s')
    ensures Decides(s, a, s')
  {
  }

  lemma StepDecides(s: State, a: Action, s': State)
    requires EndsOk(s) && Step(s, a, s')
    ensures Decides(s, a, s')
  {
    if SubmitterStep(s, a, s') {
      SubmitterDecides(s, a, s');
    } else if WorkerStep(s, a, s') {
      WorkerDecides(s, a, s');
    }
  }

  lemma SubmitterMoves(s: State, a: Action, s': State)
    requires SubmitterStep(s, a, s')
    ensures MovesQueues(s, a, s') && Records(s, a, s') && MovesWorkers(s, a, s') && s'.finished == s.finished
  {
  }

  lemma WorkerMovesQueues(s: State, a: Action, s': State)
    requires WorkerStep(s, a, s')
    ensures MovesQueues(s, a, s') && s'.finished == s.finished
  {
  }

  lemma WorkerRecords(s: State, a: Action, s': State)
    requires WorkerStep(s, a, s')
    ensures Records(s, a, s')
  {
  }

  lemma WorkerMoves(s: State, a: Action, s': State)
    requires WorkerStep(s, a, s')
    ensures MovesWorkers(s, a, s') && s'.shuttingDown == s.shuttingDown
  {
  }

  lemma StepMoves(s: State, a: Action, s': State)
    requires Step(s, a, s')
    ensures MovesQueues(s, a, s') && Records(s, a, s') && MovesWorkers(s, a, s') && s.finished <= s'.finished
  {
    if SubmitterStep(s, a, s') {
      SubmitterMoves(s, a, s');
    } else if WorkerStep(s, a, s') {
      WorkerMovesQueues(s, a, s');
      WorkerRecords(s, a, s');
      WorkerMoves(s, a, s');
    }
  }

  // ---------------------------------------------------------------- the invariant

  /** A submission that comes to be accepted is appended. */
  lemma Appended(q: seq<nat>, fates: map<nat, Fate>, accepts: Fate -> bool, sub: nat, f: Fate)
    requires Exactly(q, fates, accepts) && accepts(f) && (sub in fates ==> !accepts(fates[sub]))
    ensures Exactly(q + [sub], fates[sub := f], accepts)
  {
  }

  /** The first one is taken out. */
  lemma FirstTaken(q: seq<nat>, fates: map<nat, Fate>, accepts: Fate -> bool, f: Fate)
    requires Exactly(q, fates, accepts) && q != [] && !accepts(f)
    ensures Exactly(q[1..], fates[q[0] := f], accepts)
  {
    assert q == [q[0]] + q[1..];
  }

  /** The last one is taken out. */
  lemma LastTaken(q: seq<nat>, fates: map<nat, Fate>, accepts: Fate -> bool, f: Fate)
    requires Exactly(q, fates, accepts) && q != [] && !accepts(f)
    ensures Exactly(q[..|q| - 1], fates[q[|q| - 1] := f], accepts)
  {
    assert q == q[..|q| - 1] + [q[|q| - 1]];
  }

  /** The others are not concerned. */
  lemma NotConcerned(q: seq<nat>, fates: map<nat, Fate>, accepts: Fate -> bool, sub: nat, f: Fate)
    requires Exactly(q, fates, accepts) && !accepts(f) && (sub in fates ==> !accepts(fates[sub]))
    ensures Exactly(q, fates[sub := f], accepts)
  {
  }

  lemma KeepsExternal(s: State, a: Action, s': State)
    requires Exactly(s.external, s.fates, IsQueued) && Decides(s, a, s') && MovesQueues(s, a, s')
    ensures Exactly(s'.external, s'.fates, IsQueued)
  {
    var decided := Decided(s, a);
    if a.TakeExternal? {
      if s.external != [] {
        FirstTaken(s.external, s.fates, IsQueued, Taken(a.worker));
      }
    } else if a.Send? && !s.closed {
      Appended(s.external, s.fates, IsQueued, a.sub, Queued);
    } else if decided.Some? {
      NotConcerned(s.external, s.fates, IsQueued, decided.value, s'.fates[decided.value]);
    }
  }

  lemma KeepsResumes(s: State, a: Action, s': State)
    requires Exactly(s.resumes, s.fates, IsResumed) && Decides(s, a, s') && Records(s, a, s')
    ensures Exactly(s'.resumes, s'.fates, IsResumed)
  {
    var decided := Decided(s, a);
    if decided.Some? {
      if IsResumed(s'.fates[decided.value]) {
        Appended(s.resumes, s.fates, IsResumed, decided.value, s'.fates[decided.value]);
      } else {
        assert s'.resumes == s.resumes;
        NotConcerned(s.resumes, s.fates, IsResumed, decided.value, s'.fates[decided.value]);
      }
    }
  }

  lemma KeepsDeque(s: State, a: Action, s': State, w: nat)
    requires w < |s.deques| && Exactly(s.deques[w], s.fates, IsLocal(w)) && Decides(s, a, s') && MovesQueues(s, a, s')
    ensures Exactly(s'.deques[w], s'.fates, IsLocal(w))
  {
    var decided := Decided(s, a);
    if a.PushOwn? && a.worker == w {
      Appended(s.deques[w], s.fates, IsLocal(w), a.sub, Local(w));
    } else if a.PopOwn? && a.worker == w {
      if s.deques[w] != [] {
        LastTaken(s.deques[w], s.fates, IsLocal(w), Taken(w));
      }
    } else if a.Steal? && a.victim == w {
      if s.deques[w] != [] {
        FirstTaken(s.deques[w], s.fates, IsLocal(w), Taken(a.worker));
      }
    } else if decided.Some? {
      NotConcerned(s.deques[w], s.fates, IsLocal(w), decided.value, s'.fates[decided.value]);
    }
  }

  lemma KeepsDeques(s: State, a: Action, s': State)
    requires DequesOk(s) && Decides(s, a, s') && MovesQueues(s, a, s') && |s'.pcs| == |s.pcs|
    ensures DequesOk(s')
  {
    forall w | 0 <= w < |s.deques|
      ensures Exactly(s'.deques[w], s'.fates, IsLocal(w))
    {
      KeepsDeque(s, a, s', w);
    }
  }

  lemma KeepsHolding(s: State, a: Action, s': State, w: nat)
    requires WorkersOk(s) && Decides(s, a, s') && MovesWorkers(s, a, s') && w < |s'.pcs| && s'.pcs[w].Holding?
    ensures FateOf(s'.fates, s'.pcs[w].sub) == Some(Taken(w))
  {
  }

  lemma KeepsTaken(s: State, a: Action, s': State, sub: nat)
    requires WorkersOk(s) && Decides(s, a, s') && MovesWorkers(s, a, s') && sub in s'.fates && s'.fates[sub].Taken?
    ensures var w := s'.fates[sub].worker; w < |s'.pcs| && s'.pcs[w].Holding? && s'.pcs[w].sub == sub
  {
  }

  lemma KeepsLeft(s: State, a: Action, s': State)
    requires WorkersOk(s) && MovesWorkers(s, a, s')
    ensures forall w :: 0 <= w < |s'.pcs| && s'.pcs[w].Left? ==> s'.shuttingDown
  {
  }

  lemma KeepsWorkers(s: State, a: Action, s': State)
    requires WorkersOk(s) && Decides(s, a, s') && MovesWorkers(s, a, s')
    ensures WorkersOk(s')
  {
    forall w | 0 <= w < |s'.pcs| && s'.pcs[w].Holding?
      ensures FateOf(s'.fates, s'.pcs[w].sub) == Some(Taken(w))
    {
      KeepsHolding(s, a, s', w);
    }
    forall sub | sub in s'.fates && s'.fates[sub].Taken?
      ensures var w := s'.fates[sub].worker; w < |s'.pcs| && s'.pcs[w].Holding? && s'.pcs[w].sub == sub
    {
      KeepsTaken(s, a, s', sub);
    }
    KeepsLeft(s, a, s');
  }

  lemma KeepAll(s: State, a: Action, s': State)
    requires Inv(s) && Decides(s, a, s') && MovesQueues(s, a, s') && MovesWorkers(s, a, s') && Records(s, a, s')
    ensures Inv(s')
  {
    KeepsExternal(s, a, s');
    KeepsResumes(s, a, s');
    KeepsDeques(s, a, s');
    KeepsWorkers(s, a, s');
  }

  lemma {:induction false} StepKeepsInv(s: State, a: Action, s': State)
    requires Inv(s) && Step(s, a, s')
    ensures Inv(s')
  {
    InvEnds(s);
    StepDecides(s, a, s');
    StepMoves(s, a, s');
    KeepAll(s, a, s');
  }

  type Run = Runs.Run<State, Action>

  ghost predicate IsRun(r: Run) {
    match r
    case Start(s) => Init(s)
    case Then(p, a, s) => IsRun(p) && Step(Last(p), a, s)
  }

  lemma {:induction false} RunKeepsInv(r: Run)
    requires IsRun(r)
    ensures Inv(Last(r))
  {
    match r
    case Start(s) =>
    case Then(p, a, s) =>
      RunKeepsInv(p);
      StepKeepsInv(Last(p), a, s);
  }

  /** No submission is resumed twice, and one is in exactly one queue while it waits and in none otherwise. */
  lemma {:induction false} ResumedAtMostOnce(r: Run)
    requires IsRun(r)
    ensures var s := Last(r);
      && s.fates.Keys == s.handles.Keys && |s.deques| == |s.pcs|
      && Unique(s.resumes) && Unique(s.external) && (forall w :: 0 <= w < |s.deques| ==> Unique(s.deques[w]))
      && (forall sub :: sub in s.resumes <==> sub in s.fates && IsResumed(s.fates[sub]))
      && (forall sub :: sub in s.external <==> sub in s.fates && s.fates[sub] == Queued)
      && (forall w, sub :: 0 <= w < |s.deques| ==> (sub in s.deques[w] <==> sub in s.fates && s.fates[sub] == Local(w)))
  {
    RunKeepsInv(r);
    var s := Last(r);
    forall w, sub | 0 <= w < |s.deques|
      ensures sub in s.deques[w] <==> sub in s.fates && s.fates[sub] == Local(w)
    {
      assert Exactly(s.deques[w], s.fates, IsLocal(w));
    }
  }

  predicate IsFinal(f: Fate) {
    IsResumed(f) || f.Rejected? || f.Threw? || f.Dropped?
  }

  /** What is final stays, and what a worker has taken only that worker decides. */
  predicate MayBecome(f: Fate, f': Fate) {
    && (IsFinal(f) ==> f' == f)
    && (f.Taken? ==> f' == f || f' == Resumed(f.worker) || f' == Dropped(f.worker))
  }

  /** A fate that is final stays: what one worker has consumed no other worker gets. */
  lemma {:induction false} FatesAreFinal(r: Run, a: Action, s': State, sub: nat)
    requires IsRun(r) && Step(Last(r), a, s') && sub in Last(r).fates
    ensures sub in s'.fates && MayBecome(Last(r).fates[sub], s'.fates[sub])
  {
    RunKeepsInv(r);
    InvEnds(Last(r));
    StepDecides(Last(r), a, s');
    FateMayBecome(Last(r), a, s', sub);
  }

  lemma FateMayBecome(s: State, a: Action, s': State, sub: nat)
    requires Decides(s, a, s') && sub in s.fates
    ensures sub in s'.fates && MayBecome(s.fates[sub], s'.fates[sub])
  {
    DecidesFinally(s, a, s', sub);
  }

  lemma DecidesFinally(s: State, a: Action, s': State, sub: nat)
    requires Decides(s, a, s') && sub in s.fates
    ensures sub in s'.fates
    ensures s'.fates[sub] == s.fates[sub]
            || (Decided(s, a) == Some(sub) && Follows(a, Some(s.fates[sub]), s'.fates[sub]))
  {
  }

  // ---------------------------------------------------------------- the scheduler as it is

  /** No continuation is pushed to a worker's own deque; the code has no such push. */
  ghost predicate NoPushOwn(r: Run) {
    r.Then? ==> NoPushOwn(r.before) && !r.action.PushOwn?
  }

  ghost predicate DequesEmpty(s: State) {
    |s.deques| == |s.pcs| && forall w :: 0 <= w < |s.deques| ==> s.deques[w] == []
  }

  lemma EmptyStays(s: State, a: Action, s': State)
    requires DequesEmpty(s) && !a.PushOwn? && MovesQueues(s, a, s') && MovesWorkers(s, a, s')
    ensures DequesEmpty(s')
  {
  }

  lemma EmptyGivesNothing(s: State)
    requires DequesEmpty(s)
    ensures forall w, s' :: Step(s, PopOwn(w), s') ==> s'.fates == s.fates
    ensures forall w, v, s' :: !Step(s, Steal(w, v), s')
  {
  }

  /** Then nothing ever reaches a deque, and neither a pop nor a steal ever takes anything. */
  lemma {:induction false} DequesStayEmpty(r: Run)
    requires IsRun(r) && NoPushOwn(r)
    ensures DequesEmpty(Last(r))
    ensures forall w, s' :: Step(Last(r), PopOwn(w), s') ==> s'.fates == Last(r).fates
    ensures forall w, v, s' :: !Step(Last(r), Steal(w, v), s')
  {
    match r
    case Start(s) => EmptyGivesNothing(s);
    case Then(p, a, s) =>
      DequesStayEmpty(p);
      StepMoves(Last(p), a, s);
      EmptyStays(Last(p), a, s);
      EmptyGivesNothing(s);
  }

  /** A worker of two has pushed a submission to its own deque. */
  lemma OnePushed() returns (r: Run)
    ensures IsRun(r) && !NoPushOwn(r)
    ensures var s := Last(r);
      && s.pcs == [AtCheck, AtCheck] && s.deques == [[0], []] && s.external == []
      && s.fates == map[0 := Local(0)] && !s.shuttingDown
  {
    var s := State([AtCheck, AtCheck], [], seq(2, _ => []), map[], map[], {}, false, false, []);
    assert [AtCheck, AtCheck] == seq(2, _ => AtCheck);
    r := Start(s);
    assert Init(s) && IsRun(r);
    var t := SetFate(s, 0, Local(0)).(handles := s.handles[0 := Coroutine(5)],
                                      deques := s.deques[0 := s.deques[0] + [0]]);
    r := Then(r, PushOwn(0, 0, Coroutine(5)), t);
    assert s.deques == [[], []] && t.deques[0] == [0] && t.deques[1] == [];
    assert t.deques == [[0], []];
  }

  /** With a push there is something to steal: a run of two workers in which one takes what the other pushed. */
  lemma PushedIsStolen() returns (r: Run)
    ensures IsRun(r) && !NoPushOwn(r) && |Last(r).pcs| == 2 && Last(r).fates == map[0 := Taken(1)]
  {
    r := OnePushed();
    var s := Move(Last(r), 1, AtOwn);
    r := Then(r, CheckFlag(1), s);
    assert IsRun(r) && !NoPushOwn(r);
    s := Move(s, 1, AtExternal);
    r := Then(r, PopOwn(1), s);
    assert IsRun(r) && !NoPushOwn(r);
    s := Move(s, 1, AtScan);
    r := Then(r, TakeExternal(1), s);
    assert IsRun(r) && !NoPushOwn(r);
    r := Then(r, Steal(1, 0), Take(s, 1, 0, true).(deques := s.deques[0 := s.deques[0][1..]]));
  }

  // ---------------------------------------------------------------- shutdown

  ghost predicate AllLeft(s: State) {
    forall w :: 0 <= w < |s.pcs| ==> s.pcs[w].Left?
  }

  /** How a fate can still change when the workers have left. */
  predicate AfterShutdown(f: Fate, f': Fate) {
    match f
    case Validated => f' == f || f' == Rejected || f' == RanInline
    case Accepting => f' == f || f' == Queued || f' == Threw
    case Taken(_) => false
    case Queued => f' == f
    case Local(_) => f' == f
    case Rejected => f' == f
    case Threw => f' == f
    case RanInline => f' == f
    case Resumed(_) => f' == f
    case Dropped(_) => f' == f
  }

  lemma NobodyTakes(s: State, a: Action, s': State, sub: nat)
    requires WorkersOk(s) && MovesWorkers(s, a, s') && AllLeft(s) && s.pcs != [] && sub in s.fates
    ensures s.shuttingDown && !s.fates[sub].Taken? && AllLeft(s') && s'.pcs != [] && WorkerOf(a) == None
  {
    assert s.pcs[0].Left?;
  }

  lemma NothingAccepted(s: State, a: Action, s': State)
    requires Step(s, a, s') && s.shuttingDown && a.CheckScheduler?
    ensures FateOf(s'.fates, a.sub) != Some(Accepting)
  {
  }

  lemma FatesAfterShutdown(s: State, a: Action, s': State, sub: nat)
    requires Decides(s, a, s') && sub in s.fates && !s.fates[sub].Taken? && WorkerOf(a) == None
    requires a.CheckScheduler? ==> FateOf(s'.fates, a.sub) != Some(Accepting)
    ensures sub in s'.fates && AfterShutdown(s.fates[sub], s'.fates[sub])
  {
    DecidesFinally(s, a, s', sub);
  }

  /**
   When the workers have left their loops, nothing is in a worker's hands, and what still
   waits in a queue is never resumed. A submission that is on its way is rejected, run
   inline, queued for nobody, or throws.
   */
  lemma {:induction false} WaitingIsLeftBehind(r: Run, a: Action, s': State, sub: nat)
    requires IsRun(r) && AllLeft(Last(r)) && Last(r).pcs != [] && Step(Last(r), a, s') && sub in Last(r).fates
    ensures AllLeft(s') && s'.pcs != [] && sub in s'.fates && AfterShutdown(Last(r).fates[sub], s'.fates[sub])
  {
    RunKeepsInv(r);
    InvEnds(Last(r));
    StepDecides(Last(r), a, s');
    StepMoves(Last(r), a, s');
    NobodyTakes(Last(r), a, s', sub);
    if a.CheckScheduler? {
      NothingAccepted(Last(r), a, s');
    }
    FatesAfterShutdown(Last(r), a, s', sub);
  }

  /** A worker that is past its check of the flag and has not resumed anything since. */
  predicate MayResume(pc: WorkerPc) {
    !pc.AtCheck? && !pc.Left?
  }

  /** Worker `w` has resumed `sub` in `r`, and had not in its earlier part `p`. */
  ghost predicate ResumedSince(p: Run, r: Run, w: nat, sub: nat) {
    FateOf(Last(r).fates, sub) == Some(Resumed(w)) && FateOf(Last(p).fates, sub) != Some(Resumed(w))
  }

  ghost predicate OneMoreAtMost(p: Run, r: Run, w: nat) {
    && |Last(r).pcs| == |Last(p).pcs| && Last(r).shuttingDown
    && (w < |Last(r).pcs| && MayResume(Last(r).pcs[w]) ==> MayResume(Last(p).pcs[w]))
    && (forall x :: ResumedSince(p, r, w, x) ==>
          w < |Last(r).pcs| && MayResume(Last(p).pcs[w]) && !MayResume(Last(r).pcs[w]))
    && (forall x, y :: ResumedSince(p, r, w, x) && ResumedSince(p, r, w, y) ==> x == y)
  }

  lemma OneMoreStep(p: Run, r: Run, w: nat, a: Action, s': State)
    requires OneMoreAtMost(p, r, w) && Decides(Last(r), a, s') && MovesWorkers(Last(r), a, s')
    ensures OneMoreAtMost(p, Then(r, a, s'), w)
  {
    var r' := Then(r, a, s');
    forall x: nat | ResumedSince(p, r', w, x)
      ensures ResumedSince(p, r, w, x)
              || (a == Look(w) && Decided(Last(r), a) == Some(x) && MayResume(Last(r).pcs[w]) && s'.pcs[w] == AtCheck)
    {
      assert Decided(Last(r), a) == Some(x) || FateOf(s'.fates, x) == FateOf(Last(r).fates, x);
    }
  }

  /**
   Once the flag is set, each worker resumes at most one more submission, and none if it has
   still to check the flag.
   */
  lemma {:induction false} AtMostOneMoreEach(p: Run, r: Run, w: nat)
    requires IsRun(r) && IsPrefix(p, r) && Last(p).shuttingDown
    ensures OneMoreAtMost(p, r, w)
  {
    if p == r {
    } else {
      AtMostOneMoreEach(p, r.before, w);
      RunKeepsInv(r.before);
      InvEnds(Last(r.before));
      StepDecides(Last(r.before), r.action, r.state);
      StepMoves(Last(r.before), r.action, r.state);
      OneMoreStep(p, r.before, w, r.action, r.state);
    }
  }

  // ---------------------------------------------------------------- which queued submissions can still be resumed

  /** The workers that are past the flag and on their way to the external queue. */
  function Takers(s: State): set<nat> {
    set w | 0 <= w < |s.pcs| && (s.pcs[w].AtOwn? || s.pcs[w].AtExternal?)
  }

  /** Everybody who could still take something is used up by the submissions in front. */
  ghost predicate OutOfReach(s: State, sub: nat) {
    && (s.shuttingDown || s.pcs == [])
    && exists k :: |Takers(s)| <= k < |s.external| && s.external[k] == sub
  }

  lemma TakersShrink(s: State, a: Action, s': State)
    requires MovesWorkers(s, a, s') && (s.shuttingDown || s.pcs == [])
    ensures Takers(s') <= Takers(s)
    ensures a.TakeExternal? ==> a.worker in Takers(s) && (s.external != [] ==> a.worker !in Takers(s'))
  {
  }

  lemma OutOfReachStays(s: State, a: Action, s': State, sub: nat)
    requires OutOfReach(s, sub) && MovesWorkers(s, a, s') && MovesQueues(s, a, s')
    ensures OutOfReach(s', sub)
  {
    var k :| |Takers(s)| <= k < |s.external| && s.external[k] == sub;
    TakersShrink(s, a, s');
    if a.TakeExternal? {
      Smaller(Takers(s'), Takers(s) - {a.worker});
      assert |Takers(s) - {a.worker}| == |Takers(s)| - 1;
      assert |Takers(s')| <= k - 1 && s'.external[k - 1] == sub;
    } else {
      Smaller(Takers(s'), Takers(s));
      assert |Takers(s')| <= k && s'.external[k] == sub;
    }
  }

  lemma Smaller(x: set<nat>, y: set<nat>)
    requires x <= y
    ensures |x| <= |y|
  {
    assert y == x + (y - x);
  }

  /** Its handle cannot be resumed, and it has not been. */
  ghost predicate Unusable(s: State, sub: nat) {
    && sub in s.handles && !Resumable(s, s.handles[sub])
    && sub in s.fates && (s.fates[sub] == Queued || s.fates[sub].Taken? || s.fates[sub].Dropped?)
  }

  lemma UnusableStays(s: State, a: Action, s': State, sub: nat)
    requires Unusable(s, sub) && Decides(s, a, s') && Records(s, a, s') && s.finished <= s'.finished
    ensures Unusable(s', sub)
  {
    DecidesFinally(s, a, s', sub);
  }

  ghost predicate Hopeless(s: State, sub: nat) {
    Unusable(s, sub) || OutOfReach(s, sub)
  }

  lemma {:induction false} HopelessForGood(p: Run, r: Run, sub: nat)
    requires IsRun(r) && IsPrefix(p, r) && Hopeless(Last(p), sub)
    ensures Hopeless(Last(r), sub)
  {
    if p == r {
    } else {
      HopelessForGood(p, r.before, sub);
      RunKeepsInv(r.before);
      InvEnds(Last(r.before));
      StepDecides(Last(r.before), r.action, r.state);
      StepMoves(Last(r.before), r.action, r.state);
      if Unusable(Last(r.before), sub) {
        UnusableStays(Last(r.before), r.action, r.state, sub);
      } else {
        OutOfReachStays(Last(r.before), r.action, r.state, sub);
      }
    }
  }

  /** `r'` continues `r`, as the code has it, and there a worker has resumed `sub`. */
  ghost predicate EndsResumed(r: Run, r': Run, sub: nat) {
    IsRun(r') && NoPushOwn(r') && IsPrefix(r, r') && sub in Last(r').fates && Last(r').fates[sub].Resumed?
  }

  ghost predicate CanBeResumed(r: Run, sub: nat) {
    exists r' :: EndsResumed(r, r', sub)
  }

  /** `r'` continues `r`, as the code has it, without a new submission, a coroutine that ends, or a shutdown. */
  ghost predicate WorksOn(r: Run, r': Run) {
    && IsRun(r') && NoPushOwn(r') && IsPrefix(r, r')
    && |Last(r').pcs| == |Last(r).pcs| && Last(r').handles == Last(r).handles
    && Last(r').finished == Last(r).finished && Last(r').shuttingDown == Last(r).shuttingDown
  }

  lemma {:induction false} PrefixesChain(p: Run, q: Run, r: Run)
    requires IsPrefix(p, q) && IsPrefix(q, r)
    ensures IsPrefix(p, r)
  {
    if q == r {
    } else {
      PrefixesChain(p, q, r.before);
    }
  }

  lemma WorksOnChain(p: Run, q: Run, r: Run)
    requires WorksOn(p, q) && WorksOn(q, r)
    ensures WorksOn(p, r)
  {
    PrefixesChain(p, q, r);
  }

  lemma OneStepOn(r: Run, a: Action, s': State)
    requires IsRun(r) && NoPushOwn(r) && WorkerStep(Last(r), a, s')
    requires s'.handles == Last(r).handles && s'.finished == Last(r).finished && s'.shuttingDown == Last(r).shuttingDown
    requires |s'.pcs| == |Last(r).pcs|
    ensures WorksOn(r, Then(r, a, s'))
  {
    assert IsPrefix(r, Then(r, a, s').before);
  }

  /** A taker takes the first submission. */
  lemma TakeFront(r: Run, w: nat) returns (r': Run)
    requires IsRun(r) && NoPushOwn(r) && w in Takers(Last(r)) && Last(r).external != []
    ensures WorksOn(r, r')
    ensures Last(r').external == Last(r).external[1..]
    ensures Last(r').pcs == Last(r).pcs[w := Holding(Last(r).external[0], false)]
  {
    DequesStayEmpty(r);
    r' := r;
    if Last(r).pcs[w].AtOwn? {
      var s := Move(Last(r), w, AtExternal);
      OneStepOn(r, PopOwn(w), s);
      r' := Then(r, PopOwn(w), s);
    }
    var s := Last(r');
    var t := Take(s, w, s.external[0], false).(external := s.external[1..]);
    OneStepOn(r', TakeExternal(w), t);
    if r' != r {
      WorksOnChain(r, r', Then(r', TakeExternal(w), t));
    }
    r' := Then(r', TakeExternal(w), t);
  }

  /** A worker looks at what it holds. */
  lemma LookAt(r: Run, w: nat) returns (r': Run)
    requires IsRun(r) && NoPushOwn(r) && w < |Last(r).pcs| && Last(r).pcs[w].Holding?
    ensures WorksOn(r, r') && Last(r').external == Last(r).external
    ensures Last(r').pcs == Last(r).pcs[w := Last(r').pcs[w]]
    ensures Last(r').pcs[w] == AtCheck || Last(r').pcs[w] == AtScan
    ensures var sub := Last(r).pcs[w].sub;
      && sub in Last(r).handles && sub in Last(r').fates
      && (Resumable(Last(r), Last(r).handles[sub]) ==> Last(r').fates[sub] == Resumed(w))
  {
    RunKeepsInv(r);
    var s := Last(r);
    var sub := s.pcs[w].sub;
    assert FateOf(s.fates, sub) == Some(Taken(w));
    var t := if Resumable(s, s.handles[sub])
             then SetFate(Move(s, w, AtCheck), sub, Resumed(w)).(resumes := s.resumes + [sub])
             else SetFate(Move(s, w, if s.pcs[w].scanning then AtScan else AtCheck), sub, Dropped(w));
    OneStepOn(r, Look(w), t);
    r' := Then(r, Look(w), t);
  }

  /** As long as the flag is not set, a worker comes round to trying the queues again. */
  lemma ComesRound(r: Run, w: nat) returns (r': Run)
    requires IsRun(r) && NoPushOwn(r) && w < |Last(r).pcs| && !Last(r).shuttingDown
    requires Last(r).pcs[w] == AtCheck || Last(r).pcs[w] == AtScan
    ensures WorksOn(r, r') && Last(r').external == Last(r).external && w in Takers(Last(r'))
  {
    DequesStayEmpty(r);
    r' := r;
    if Last(r).pcs[w].AtScan? {
      var s := Move(Last(r), w, AtCheck);
      OneStepOn(r, GiveUp(w), s);
      r' := Then(r, GiveUp(w), s);
    }
    var t := Move(Last(r'), w, AtOwn);
    OneStepOn(r', CheckFlag(w), t);
    if r' != r {
      WorksOnChain(r, r', Then(r', CheckFlag(w), t));
    }
    r' := Then(r', CheckFlag(w), t);
  }

  /** The last step: the worker that takes the submission looks at it. */
  lemma TakeAndLook(r: Run, w: nat) returns (r': Run)
    requires IsRun(r) && NoPushOwn(r) && w in Takers(Last(r)) && Last(r).external != []
    ensures WorksOn(r, r') && Last(r').external == Last(r).external[1..]
    ensures w < |Last(r').pcs| && (Last(r').pcs[w] == AtCheck || Last(r').pcs[w] == AtScan)
    ensures var sub := Last(r).external[0];
      && sub in Last(r).handles
      && (Resumable(Last(r), Last(r).handles[sub]) ==> sub in Last(r').fates && Last(r').fates[sub] == Resumed(w))
  {
    var mid := TakeFront(r, w);
    r' := LookAt(mid, w);
    WorksOnChain(r, mid, r');
  }

  lemma ContinueResumed(r: Run, mid: Run, r': Run, sub: nat)
    requires WorksOn(r, mid) && EndsResumed(mid, r', sub)
    ensures EndsResumed(r, r', sub)
  {
    PrefixesChain(r, mid, r');
  }

  lemma OneTakerLess(s: State, s': State, w: nat)
    requires w in Takers(s) && |s'.pcs| == |s.pcs| && s'.pcs == s.pcs[w := s'.pcs[w]] && s'.pcs[w].Holding?
    ensures |Takers(s')| == |Takers(s)| - 1
  {
    assert Takers(s') == Takers(s) - {w};
  }

  /** With enough takers, each takes one, up to the submission in question. */
  lemma {:induction false} TakersReach(r: Run, k: nat) returns (r': Run)
    requires IsRun(r) && NoPushOwn(r) && k < |Last(r).external| && k < |Takers(Last(r))|
    requires var s := Last(r); s.external[k] in s.handles && Resumable(s, s.handles[s.external[k]])
    ensures EndsResumed(r, r', Last(r).external[k])
    decreases k
  {
    var w :| w in Takers(Last(r));
    if k == 0 {
      r' := TakeAndLook(r, w);
    } else {
      var mid := TakeFront(r, w);
      OneTakerLess(Last(r), Last(mid), w);
      r' := TakersReach(mid, k - 1);
      ContinueResumed(r, mid, r', Last(r).external[k]);
    }
  }

  /** As long as the flag is not set, one worker can take all that is in front, and then the submission in question. */
  lemma {:induction false} OneWorkerReaches(r: Run, w: nat, k: nat) returns (r': Run)
    requires IsRun(r) && NoPushOwn(r) && k < |Last(r).external| && w in Takers(Last(r)) && !Last(r).shuttingDown
    requires var s := Last(r); s.external[k] in s.handles && Resumable(s, s.handles[s.external[k]])
    ensures EndsResumed(r, r', Last(r).external[k])
    decreases k
  {
    if k == 0 {
      r' := TakeAndLook(r, w);
    } else {
      var looked := TakeAndLook(r, w);
      var mid := ComesRound(looked, w);
      WorksOnChain(r, looked, mid);
      r' := OneWorkerReaches(mid, w, k - 1);
      ContinueResumed(r, mid, r', Last(r).external[k]);
    }
  }

  /** Wherever it is in its loop, a worker can be brought to its next try as long as the flag is not set. */
  lemma BecomesTaker(r: Run, w: nat) returns (r': Run)
    requires IsRun(r) && NoPushOwn(r) && w < |Last(r).pcs| && !Last(r).shuttingDown
    ensures WorksOn(r, r') && Last(r').external == Last(r).external && w in Takers(Last(r'))
  {
    RunKeepsInv(r);
    r' := r;
    if Last(r).pcs[w].Holding? {
      var looked := LookAt(r, w);
      r' := ComesRound(looked, w);
      WorksOnChain(r, looked, r');
    } else if Last(r).pcs[w].AtCheck? || Last(r).pcs[w].AtScan? {
      r' := ComesRound(r, w);
    }
  }

  /**
   In the code as it is, a submission in the external queue can still be resumed exactly if its
   handle can be, and there is a worker to take it: any worker before the flag is set, and
   afterwards only the ones already past their check, one for it and one for each in front of it.
   */
  lemma {:induction false} QueuedCanBeResumedIff(r: Run, k: nat)
    requires IsRun(r) && NoPushOwn(r) && k < |Last(r).external|
    ensures var s := Last(r); var sub := s.external[k];
      && sub in s.handles
      && (CanBeResumed(r, sub) <==>
            Resumable(s, s.handles[sub]) && if s.shuttingDown then k < |Takers(s)| else s.pcs != [])
  {
    RunKeepsInv(r);
    var s := Last(r);
    var sub := s.external[k];
    assert sub in s.external;
    if Resumable(s, s.handles[sub]) && s.shuttingDown && k < |Takers(s)| {
      var r' := TakersReach(r, k);
      assert EndsResumed(r, r', sub);
    } else if Resumable(s, s.handles[sub]) && !s.shuttingDown && s.pcs != [] {
      var mid := BecomesTaker(r, 0);
      var r' := OneWorkerReaches(mid, 0, k);
      ContinueResumed(r, mid, r', sub);
      assert EndsResumed(r, r', sub);
    } else {
      NoTakers(s);
      assert Hopeless(s, sub);
      if CanBeResumed(r, sub) {
        var r' :| EndsResumed(r, r', sub);
        HopelessForGood(r, r', sub);
        RunKeepsInv(r');
        HopelessIsNotResumed(Last(r'), sub);
      }
    }
  }

  lemma NoTakers(s: State)
    ensures s.pcs == [] ==> |Takers(s)| == 0
  {
    if s.pcs == [] {
      assert Takers(s) == {};
    }
  }

  lemma HopelessIsNotResumed(s: State, sub: nat)
    requires Inv(s) && Hopeless(s, sub)
    ensures sub in s.fates && !s.fates[sub].Resumed?
  {
    if OutOfReach(s, sub) {
      assert sub in s.external;
    }
  }

  /** A submission to a scheduler with one worker. */
  lemma OneQueued() returns (r: Run)
    ensures IsRun(r) && NoPushOwn(r)
    ensures var s := Last(r); s.pcs == [AtCheck] && |s.deques| == 1 && s.fates == map[0 := Queued] && !s.shuttingDown
  {
    var s := State([AtCheck], [], seq(1, _ => []), map[], map[], {}, false, false, []);
    assert [AtCheck] == seq(1, _ => AtCheck);
    r := Start(s);
    assert Init(s);
    assert IsRun(r) && NoPushOwn(r);
    s := s.(handles := s.handles[0 := Coroutine(5)], fates := s.fates[0 := Validated]);
    r := Then(r, Submit(0, Coroutine(5)), s);
    assert IsRun(r) && NoPushOwn(r);
    s := s.(fates := s.fates[0 := Accepting]);
    r := Then(r, CheckScheduler(0), s);
    assert IsRun(r) && NoPushOwn(r);
    r := Then(r, Send(0), s.(fates := s.fates[0 := Queued], external := s.external + [0]));
  }

  /** It does happen: a submission that was queued before shutdown and waits for ever. */
  lemma QueuedAtShutdown() returns (r: Run)
    ensures IsRun(r) && NoPushOwn(r) && |Last(r).pcs| == 1 && AllLeft(Last(r)) && Last(r).fates == map[0 := Queued]
  {
    r := OneQueued();
    var s := Last(r).(shuttingDown := true);
    r := Then(r, ShutDown, s);
    assert IsRun(r) && NoPushOwn(r);
    r := Then(r, CheckFlag(0), Move(s, 0, Left));
  }
}
