/**
 Sleeping coroutines, the timer thread, the shutdown of the timer service and any number
 of cancellation sources, interleaved. Each sleep has a gate, the fired flag; the timer,
 the drain at shutdown, a cancel and a registration that comes too late all try to flip
 it, and whoever flips it schedules the coroutine.

 The timer's mutex and each source's mutex are modelled by who holds them; the running
 and cancelled flags are atomics that change while somebody else is inside. No timer is
 added after the drain, which is asked of the callers.
 */
module Sleep {
  import opened Wrappers
  import opened TimerHeap
  import opened Runs

  datatype Status = Completed | Cancelled

  /** Where the suspending call of a sleep is. */
  datatype SuspendPc =
    | CheckFlag
    | CheckClock
    | Ready                        // does not suspend at all
    | AddTimer
    | Notify                       // heap entry pushed, timer not yet notified
    | Register
    | InRegister(sawFlag: bool)    // source's mutex held
    | FiredHere                    // source's mutex held, gate won, not yet scheduled
    | Suspended

  /** Where the resumed coroutine is. */
  datatype ResumePc =
    | NotResumed
    | Unregister
    | LoadFlag
    | Returned(status: Status)

  /** Who flipped the gate (history). */
  datatype Waker = ByTimer(at: int) | ByDrain | ByCancel | ByRegister

  datatype Sleeper = Sleeper(
    deadline: int,
    source: Option<nat>,           // of the cancellation token, if there is one
    fired: bool,
    suspend: SuspendPc,
    resume: ResumePc,
    registered: bool,              // callback_id_ has been set to an id
    waker: Option<Waker>,
    readyAt: Option<int>,          // history: the time at which it was found ready without suspending
    scheduled: nat)                // history: how often the coroutine was scheduled

  datatype CancelPc = NotCalled | FlagSet | Firing(rest: seq<nat>) | FiringWon(who: nat, rest: seq<nat>) | Done

  datatype Source = Source(cancelled: bool, cancel: CancelPc, callbacks: seq<nat>, mutex: Option<nat>)

  datatype TimerPc =
    | Top                          // mutex held
    | Checked                      // mutex held, running was set
    | WillSleep                    // mutex held, heap empty and running set
    | Asleep
    | AsleepWoken
    | WillWait(until: int)         // mutex held
    | Waiting(until: int)
    | WaitWoken
    | TimerWon(who: nat)           // mutex released, gate won, not yet scheduled
    | Relock
    | Exited

  datatype ShutdownPc = NotShut | Flagged | Notified | Draining(next: nat) | DrainWon(next: nat) | Shut

  datatype State = State(
    now: int,
    heap: seq<Entry>,
    running: bool,
    timer: TimerPc,
    shutdown: ShutdownPc,
    sleepers: map<nat, Sleeper>,
    sources: map<nat, Source>,     // a source that nobody has touched has no entry
    added: multiset<Entry>,        // history: entries pushed
    popped: multiset<Entry>)       // history: entries popped by the timer thread

  datatype Action =
    | Tick(now: int)
    | CallSleep(i: nat, deadline: int, source: Option<nat>)
    | SuspendStep(i: nat)
    | ResumeStep(i: nat)
    | TimerStep
    | TimerWake                    // timeout or spurious wakeup
    | ShutdownStep
    | CancelStep(c: nat)

  function SourceOf(s: State, c: nat): Source {
    if c in s.sources then s.sources[c] else Source(false, NotCalled, [], None)
  }

  predicate FlagSeen(s: State, x: Sleeper) {
    x.source.Some? && SourceOf(s, x.source.value).cancelled
  }

  function Put(s: State, i: nat, x: Sleeper): State {
    s.(sleepers := s.sleepers[i := x])
  }

  function PutSource(s: State, c: nat, src: Source): State {
    s.(sources := s.sources[c := src])
  }

  predicate TimerHasMutex(s: State) {
    s.timer.Top? || s.timer.Checked? || s.timer.WillSleep? || s.timer.WillWait?
  }

  predicate DrainHasMutex(s: State) {
    s.shutdown.Draining? || s.shutdown.DrainWon?
  }

  predicate MutexFree(s: State) {
    !TimerHasMutex(s) && !DrainHasMutex(s)
  }

  /** notify_one: the timer thread is the only one that waits. */
  function NotifyTimer(t: TimerPc): TimerPc {
    match t case Asleep => AsleepWoken case Waiting(_) => WaitWoken case _ => t
  }

  /** The compare-and-swap on the gate, by waker `w`. */
  function Fire(x: Sleeper, w: Waker): Sleeper {
    if x.fired then x else x.(fired := true, waker := Some(w))
  }

  ghost predicate Init(s: State) {
    s == State(s.now, [], true, Top, NotShut, map[], map[], multiset{}, multiset{})
  }

  // ---------------------------------------------------------------- steps

  ghost predicate SuspendMoves(s: State, i: nat, s': State) {
    && i in s.sleepers
    && var x := s.sleepers[i];
       match x.suspend
       case CheckFlag =>
         s' == Put(s, i, x.(suspend := if FlagSeen(s, x) then Ready else CheckClock))
       case CheckClock =>
         if s.now >= x.deadline
         then s' == Put(s, i, x.(suspend := Ready, readyAt := Some(s.now)))
         else s' == Put(s, i, x.(suspend := AddTimer))
       case AddTimer =>
         var e := Entry(x.deadline, i);
         && MutexFree(s) && !s.shutdown.Shut?
         && PushHeap(s.heap, e, s'.heap)
         && s' == Put(s, i, x.(suspend := Notify)).(heap := s'.heap, added := s.added + multiset{e})
       case Notify =>
         s' == Put(s, i, x.(suspend := if x.source.Some? then Register else Suspended)).(timer := NotifyTimer(s.timer))
       case _ => false
  }

  /** The part of the suspending call that deals with the cancellation source. */
  ghost predicate RegisterMoves(s: State, i: nat, s': State) {
    && i in s.sleepers
    && var x := s.sleepers[i];
       match x.suspend
       case Register =>
         && x.source.Some?
         && var src := SourceOf(s, x.source.value);
            && src.mutex == None
            && s' == PutSource(Put(s, i, x.(suspend := InRegister(src.cancelled))), x.source.value,
                               src.(mutex := Some(i)))
       case InRegister(sawFlag) =>
         && x.source.Some?
         && var src := SourceOf(s, x.source.value);
            if !sawFlag
            then s' == PutSource(Put(s, i, x.(suspend := Suspended, registered := true)), x.source.value,
                                 src.(mutex := None, callbacks := src.callbacks + [i]))
            else if !x.fired
            then s' == Put(s, i, Fire(x, ByRegister).(suspend := FiredHere))
            else s' == PutSource(Put(s, i, x.(suspend := Suspended)), x.source.value, src.(mutex := None))
       case FiredHere =>
         && x.source.Some?
         && s' == PutSource(Put(s, i, x.(suspend := Suspended, scheduled := x.scheduled + 1)), x.source.value,
                            SourceOf(s, x.source.value).(mutex := None))
       case _ => false
  }

  ghost predicate ResumeMoves(s: State, i: nat, s': State) {
    && i in s.sleepers
    && var x := s.sleepers[i];
       match x.resume
       case NotResumed =>
         && (x.suspend.Ready? || x.scheduled > 0)
         && s' == Put(s, i, x.(resume := if x.source.Some? && x.registered then Unregister else LoadFlag))
       case Unregister =>
         // one step: what can happen between the checks and the erasure is in module Cancellation
         && x.source.Some?
         && var src := SourceOf(s, x.source.value);
            if src.cancelled then s' == Put(s, i, x.(resume := LoadFlag))
            else src.mutex == None
                 && s' == PutSource(Put(s, i, x.(resume := LoadFlag)), x.source.value,
                                    src.(callbacks := Without(src.callbacks, i)))
       case LoadFlag =>
         s' == Put(s, i, x.(resume := Returned(if FlagSeen(s, x) then Cancelled else Completed)))
       case Returned(_) => false
  }

  /** The callbacks but the first one of sleeper `i`. */
  function Without(q: seq<nat>, i: nat): seq<nat> {
    if q == [] then []
    else if q[0] == i then q[1..]
    else [q[0]] + Without(q[1..], i)
  }

  ghost predicate TimerMoves(s: State, s': State) {
    match s.timer
    case Top => s' == s.(timer := if s.running then Checked else Exited)
    case Checked =>
      if s.heap == [] then s' == s.(timer := if s.running then WillSleep else Top)
      else if s.heap[0].deadline <= s.now
      then
        var e := s.heap[0];
        && e.who in s.sleepers
        && PopHeap(s.heap, s'.heap)
        && var x := s.sleepers[e.who];
           s' == Put(s, e.who, Fire(x, ByTimer(s.now))).(
             heap := s'.heap, popped := s.popped + multiset{e}, timer := if x.fired then Top else TimerWon(e.who))
      else s' == s.(timer := WillWait(s.heap[0].deadline))
    case WillSleep => s' == s.(timer := Asleep)
    case AsleepWoken =>
      MutexFree(s) && s' == s.(timer := if s.heap != [] || !s.running then Top else WillSleep)
    case WillWait(d) => s' == s.(timer := Waiting(d))
    case WaitWoken => MutexFree(s) && s' == s.(timer := Top)
    case TimerWon(i) =>
      && i in s.sleepers
      && s' == Put(s, i, s.sleepers[i].(scheduled := s.sleepers[i].scheduled + 1)).(timer := Relock)
    case Relock => MutexFree(s) && s' == s.(timer := Top)
    case _ => false
  }

  ghost predicate ShutdownMoves(s: State, s': State) {
    match s.shutdown
    case NotShut => s' == s.(running := false, shutdown := Flagged)
    case Flagged => s' == s.(timer := NotifyTimer(s.timer), shutdown := Notified)
    case Notified => s.timer.Exited? && s' == s.(shutdown := Draining(0))
    case Draining(k) =>
      if k >= |s.heap| then s' == s.(heap := [], shutdown := Shut)
      else
        var i := s.heap[k].who;
        && i in s.sleepers
        && s' == Put(s, i, Fire(s.sleepers[i], ByDrain)).(
             shutdown := if s.sleepers[i].fired then Draining(k + 1) else DrainWon(k))
    case DrainWon(k) =>
      && k < |s.heap| && s.heap[k].who in s.sleepers
      && var i := s.heap[k].who;
         s' == Put(s, i, s.sleepers[i].(scheduled := s.sleepers[i].scheduled + 1)).(shutdown := Draining(k + 1))
    case Shut => false
  }

  ghost predicate CancelMoves(s: State, c: nat, s': State) {
    var src := SourceOf(s, c);
    match src.cancel
    case NotCalled => s' == PutSource(s, c, src.(cancelled := true, cancel := FlagSet))
    case FlagSet =>
      src.mutex == None && s' == PutSource(s, c, src.(callbacks := [], cancel := Firing(src.callbacks)))
    case Firing(rest) =>
      if rest == [] then s' == PutSource(s, c, src.(cancel := Done))
      else
        var i := rest[0];
        && i in s.sleepers
        && s' == PutSource(Put(s, i, Fire(s.sleepers[i], ByCancel)), c,
                           src.(cancel := if s.sleepers[i].fired then Firing(rest[1..]) else FiringWon(i, rest[1..])))
    case FiringWon(i, rest) =>
      && i in s.sleepers
      && s' == PutSource(Put(s, i, s.sleepers[i].(scheduled := s.sleepers[i].scheduled + 1)), c,
                         src.(cancel := Firing(rest)))
    case Done => false
  }

  ghost predicate Step(s: State, a: Action, s': State) {
    match a
    case Tick(now) => now >= s.now && s' == s.(now := now)
    case CallSleep(i, deadline, source) =>
      && i !in s.sleepers
      && s' == Put(s, i, Sleeper(deadline, source, false, CheckFlag, NotResumed, false, None, None, 0))
    case SuspendStep(i) => SuspendMoves(s, i, s') || RegisterMoves(s, i, s')
    case ResumeStep(i) => ResumeMoves(s, i, s')
    case TimerStep => TimerMoves(s, s')
    case TimerWake => (s.timer.Asleep? || s.timer.Waiting?) && s' == s.(timer := NotifyTimer(s.timer))
    case ShutdownStep => ShutdownMoves(s, s')
    case CancelStep(c) => CancelMoves(s, c, s')
  }

  // ---------------------------------------------------------------- invariant

  /** Waker `w` has flipped the gate of sleeper `i` and has not scheduled it yet. */
  predicate Owes(s: State, i: nat, w: Waker) {
    match w
    case ByTimer(_) => s.timer == TimerWon(i)
    case ByDrain => s.shutdown.DrainWon? && s.shutdown.next < |s.heap| && s.heap[s.shutdown.next].who == i
    case ByCancel =>
      && i in s.sleepers && s.sleepers[i].source.Some?
      && var c := SourceOf(s, s.sleepers[i].source.value).cancel;
         c.FiringWon? && c.who == i
    case ByRegister => i in s.sleepers && s.sleepers[i].suspend.FiredHere?
  }

  /** The suspending call has pushed its heap entry. */
  predicate PastAdd(pc: SuspendPc) {
    pc.Notify? || pc.Register? || pc.InRegister? || pc.FiredHere? || pc.Suspended?
  }

  /** The sleeper's callback waits in its source, or in the hands of that source's cancel. */
  predicate CallbackWaits(s: State, c: nat, i: nat) {
    var src := SourceOf(s, c);
    i in src.callbacks || ((src.cancel.Firing? || src.cancel.FiringWon?) && i in src.cancel.rest)
  }

  /** What concerns one sleeper in the state. */
  datatype View = View(
    x: Sleeper, now: int, running: bool,
    owed: bool,                    // its waker has not scheduled it yet
    inHeap: bool,
    flag: bool,                    // its source is cancelled
    waits: bool,                   // its callback waits
    mutex: bool,                   // it holds its source's mutex
    undrained: bool)               // its source's cancel has not taken the callbacks yet

  function ViewOf(s: State, i: nat): View
    requires i in s.sleepers
  {
    var x := s.sleepers[i];
    View(x, s.now, s.running,
         x.waker.Some? && Owes(s, i, x.waker.value),
         Entry(x.deadline, i) in s.heap,
         FlagSeen(s, x),
         x.source.Some? && CallbackWaits(s, x.source.value, i),
         x.source.Some? && SourceOf(s, x.source.value).mutex == Some(i),
         x.source.Some? && (var c := SourceOf(s, x.source.value).cancel; c.NotCalled? || c.FlagSet?))
  }

  ghost predicate GateOk(v: View) {
    var x := v.x;
    && (x.fired <==> x.waker.Some?)
    && x.scheduled == (if x.waker.Some? && !v.owed then 1 else 0)
    && (x.fired ==> PastAdd(x.suspend))
    && (x.waker.Some? ==>
          match x.waker.value
          case ByTimer(at) => x.deadline <= at <= v.now
          case ByDrain => !v.running
          case ByCancel => v.flag
          case ByRegister => v.flag)
  }

  /** A heap entry that is gone was processed, and so was a callback that is gone. */
  ghost predicate ProcessedOk(v: View) {
    var x := v.x;
    && (PastAdd(x.suspend) && !x.fired ==> v.inHeap)
    && (x.registered ==> x.source.Some? && x.suspend.Suspended?)
    && (x.registered && !x.fired ==> v.waits)
    && (x.suspend.InRegister? || x.suspend.FiredHere? ==> v.mutex)
    && (x.suspend.InRegister? && !x.suspend.sawFlag ==> v.undrained)
    && ((x.suspend.InRegister? && x.suspend.sawFlag) || x.suspend.FiredHere? ==> v.flag)
    && (x.suspend.FiredHere? ==> x.waker == Some(ByRegister))
    && (x.suspend.Suspended? && x.source.Some? && !x.registered ==> x.fired)
  }

  ghost predicate ResumeOk(v: View) {
    var x := v.x;
    && (!x.resume.NotResumed? ==> x.suspend.Ready? || x.scheduled == 1)
    && (x.readyAt.Some? ==> x.suspend.Ready?)
    && (x.suspend.Ready? ==> v.flag || (x.readyAt.Some? && x.deadline <= x.readyAt.value <= v.now))
    && (x.resume == Returned(Completed) ==>
          || (x.readyAt.Some? && x.deadline <= x.readyAt.value <= v.now)
          || (x.waker.Some? && (x.waker.value.ByTimer? || x.waker.value.ByDrain?)))
    && (x.resume == Returned(Cancelled) ==> v.flag)
  }

  ghost predicate SleeperOk(v: View) {
    GateOk(v) && ProcessedOk(v) && ResumeOk(v)
  }

  /** How the surroundings of a sleeper may change while others move. */
  ghost predicate Undisturbed(v: View, v': View) {
    && v'.x == v.x
    && v.now <= v'.now && (v'.running ==> v.running)
    && v'.owed == v.owed
    && (v.inHeap ==> v'.inHeap || v.x.fired)
    && (v.flag ==> v'.flag)
    && (v.waits ==> v'.waits || v.x.fired)
    && (v.mutex ==> v'.mutex)
    && (v.mutex && v.undrained ==> v'.undrained)
  }

  lemma UndisturbedOk(v: View, v': View)
    requires SleeperOk(v) && Undisturbed(v, v')
    ensures SleeperOk(v')
  {
  }

  /** What never changes back for a sleeper. */
  ghost predicate Grows(x: Sleeper, x': Sleeper) {
    && x'.deadline == x.deadline && x'.source == x.source
    && (x.registered ==> x'.registered)
    && (x.fired ==> x'.fired)
    && (x.waker.Some? ==> x'.waker == x.waker)
    && (PastAdd(x.suspend) ==> PastAdd(x'.suspend))
  }

  ghost predicate AllGrow(s: State, s': State) {
    forall i :: i in s.sleepers ==> i in s'.sleepers && Grows(s.sleepers[i], s'.sleepers[i])
  }

  ghost predicate CallbackOk(s: State, c: nat, i: nat) {
    i in s.sleepers && s.sleepers[i].source == Some(c) && s.sleepers[i].registered
  }

  ghost predicate SourceOk(s: State, c: nat) {
    var src := SourceOf(s, c);
    && (src.cancelled <==> !src.cancel.NotCalled?)
    && (forall i :: i in src.callbacks ==> CallbackOk(s, c, i))
    && (src.cancel.Firing? || src.cancel.FiringWon? || src.cancel.Done? ==> src.callbacks == [])
    && (src.cancel.Firing? || src.cancel.FiringWon? ==> forall i :: i in src.cancel.rest ==> CallbackOk(s, c, i))
    && (src.cancel.FiringWon? ==>
          CallbackOk(s, c, src.cancel.who) && s.sleepers[src.cancel.who].waker == Some(ByCancel))
  }

  ghost predicate HeapOk(s: State) {
    && IsHeap(s.heap)
    && (forall e :: e in s.heap ==>
          e.who in s.sleepers && s.sleepers[e.who].deadline == e.deadline && PastAdd(s.sleepers[e.who].suspend))
    && (!s.shutdown.Shut? ==> s.added == multiset(s.heap) + s.popped)
  }

  /** The adder of this entry has not notified the timer yet. */
  ghost predicate WillNotify(s: State, e: Entry) {
    e.who in s.sleepers && s.sleepers[e.who].suspend.Notify?
  }

  ghost predicate TimerOk(s: State) {
    match s.timer
    case WillSleep => s.heap == []
    case Asleep => forall e :: e in s.heap ==> WillNotify(s, e)
    case WillWait(d) => forall e :: e in s.heap ==> d <= e.deadline
    case Waiting(d) => forall e :: e in s.heap && e.deadline < d ==> WillNotify(s, e)
    case TimerWon(i) => i in s.sleepers && s.sleepers[i].waker.Some? && s.sleepers[i].waker.value.ByTimer?
    case _ => true
  }

  ghost predicate WokenAt(s: State, k: nat)
    requires k < |s.heap|
  {
    s.heap[k].who in s.sleepers && s.sleepers[s.heap[k].who].fired
  }

  ghost predicate ShutdownOk(s: State) {
    && (s.running <==> s.shutdown.NotShut?)
    && (DrainHasMutex(s) || s.shutdown.Shut? ==> s.timer.Exited?)
    && (DrainHasMutex(s) ==>
          s.shutdown.next <= |s.heap| && forall k :: 0 <= k < s.shutdown.next ==> WokenAt(s, k))
    && (s.shutdown.DrainWon? ==>
          && s.shutdown.next < |s.heap| && WokenAt(s, s.shutdown.next)
          && s.sleepers[s.heap[s.shutdown.next].who].waker == Some(ByDrain))
    && (s.shutdown.Shut? ==> s.heap == [])
  }

  ghost predicate Inv(s: State) {
    && HeapOk(s)
    && TimerOk(s)
    && ShutdownOk(s)
    && (forall c :: SourceOk(s, c))
    && (forall i :: i in s.sleepers ==> SleeperOk(ViewOf(s, i)))
  }

  // ---------------------------------------------------------------- every step

  lemma SourceFrame(s: State, s': State, c: nat)
    requires SourceOk(s, c) && SourceOf(s', c) == SourceOf(s, c) && AllGrow(s, s')
    ensures SourceOk(s', c)
  {
  }

  lemma SourcesFrame(s: State, s': State)
    requires (forall c :: SourceOk(s, c)) && s'.sources == s.sources && AllGrow(s, s')
    ensures forall c :: SourceOk(s', c)
  {
    forall c
      ensures SourceOk(s', c)
    {
      assert SourceOk(s, c);
      SourceFrame(s, s', c);
    }
  }

  /** A gate is open exactly until somebody has flipped it. */
  ghost predicate Aligned(s: State) {
    forall i :: i in s.sleepers ==> (s.sleepers[i].fired <==> s.sleepers[i].waker.Some?)
  }

  lemma SuspendGrows(s: State, i: nat, s': State)
    requires SuspendMoves(s, i, s')
    ensures AllGrow(s, s')
    ensures s'.sources == s.sources && s'.sleepers.Keys == s.sleepers.Keys
  {
    assert Grows(s.sleepers[i], s'.sleepers[i]);
    assert s'.sleepers == s.sleepers[i := s'.sleepers[i]];
  }

  lemma RegisterGrows(s: State, i: nat, s': State)
    requires Aligned(s) && RegisterMoves(s, i, s')
    ensures AllGrow(s, s')
  {
  }

  lemma ResumeGrows(s: State, i: nat, s': State)
    requires ResumeMoves(s, i, s')
    ensures AllGrow(s, s')
  {
  }

  lemma TimerGrows(s: State, s': State)
    requires Aligned(s) && TimerMoves(s, s')
    ensures AllGrow(s, s')
  {
  }

  lemma TimerKeepsDomain(s: State, s': State)
    requires TimerMoves(s, s')
    ensures s'.sources == s.sources && s'.sleepers.Keys == s.sleepers.Keys
  {
  }

  lemma ShutdownGrows(s: State, s': State)
    requires Aligned(s) && ShutdownMoves(s, s')
    ensures AllGrow(s, s')
  {
  }

  lemma CancelGrows(s: State, c: nat, s': State)
    requires Aligned(s) && CancelMoves(s, c, s')
    ensures AllGrow(s, s')
  {
  }

  // suspend

  lemma SuspendKeepsItself(s: State, i: nat, s': State)
    requires SuspendMoves(s, i, s') && SleeperOk(ViewOf(s, i))
    ensures SleeperOk(ViewOf(s', i))
  {
    if s.sleepers[i].suspend.AddTimer? {
      SameMembers(s.heap, Entry(s.sleepers[i].deadline, i), s'.heap);
    }
  }

  lemma SuspendKeepsOther(s: State, i: nat, s': State, j: nat)
    requires SuspendMoves(s, i, s') && j in s.sleepers && j != i
    ensures Undisturbed(ViewOf(s, j), ViewOf(s', j))
  {
    if s.sleepers[i].suspend.AddTimer? {
      AddKeepsOther(s, i, s', j);
    } else if !s.sleepers[i].suspend.Notify? {
      SourceKeptUndisturbed(s, s', j);
    }
  }

  lemma AddKeepsOther(s: State, i: nat, s': State, j: nat)
    requires SuspendMoves(s, i, s') && s.sleepers[i].suspend.AddTimer? && j in s.sleepers && j != i
    ensures Undisturbed(ViewOf(s, j), ViewOf(s', j))
  {
    SameMembers(s.heap, Entry(s.sleepers[i].deadline, i), s'.heap);
    assert s'.sleepers[j] == s.sleepers[j] && s'.sources == s.sources && s'.shutdown == s.shutdown;
  }

  lemma RegisterKeepsItself(s: State, i: nat, s': State)
    requires RegisterMoves(s, i, s') && SleeperOk(ViewOf(s, i))
    requires SourceOk(s, s.sleepers[i].source.value)
    ensures SleeperOk(ViewOf(s', i))
  {
  }

  /** A source may gain callbacks, and its mutex may change hands unless `j` holds it. */
  ghost predicate SourceKept(s: State, s': State, j: nat, c: nat) {
    var a, b := SourceOf(s, c), SourceOf(s', c);
    && b.cancelled == a.cancelled && b.cancel == a.cancel
    && (forall m :: m in a.callbacks && m == j ==> m in b.callbacks)
    && (a.mutex == Some(j) ==> b.mutex == Some(j))
  }

  lemma SourceKeptUndisturbed(s: State, s': State, j: nat)
    requires j in s.sleepers && j in s'.sleepers && s'.sleepers[j] == s.sleepers[j]
    requires s'.heap == s.heap && s'.now == s.now && s'.running == s.running
    requires s'.timer == s.timer && s'.shutdown == s.shutdown
    requires s.sleepers[j].source.Some? ==> SourceKept(s, s', j, s.sleepers[j].source.value)
    ensures Undisturbed(ViewOf(s, j), ViewOf(s', j))
  {
  }

  lemma {:induction false} RegisterKeepsOther(s: State, i: nat, s': State, j: nat)
    requires RegisterMoves(s, i, s') && j in s.sleepers && j != i
    requires SleeperOk(ViewOf(s, i))
    ensures Undisturbed(ViewOf(s, j), ViewOf(s', j))
  {
    SourceKeptUndisturbed(s, s', j);
  }

  lemma {:induction false} WithoutOther(q: seq<nat>, i: nat, j: nat)
    requires j != i
    ensures j in q ==> j in Without(q, i)
  {
    if q == [] || q[0] == i {
    } else {
      WithoutOther(q[1..], i, j);
      assert Without(q, i)[1..] == Without(q[1..], i);
    }
  }

  lemma {:induction false} WithoutOnly(q: seq<nat>, i: nat, j: nat)
    ensures j in Without(q, i) ==> j in q
  {
    if q == [] || q[0] == i {
    } else {
      WithoutOnly(q[1..], i, j);
    }
  }

  // resume

  /** What a step of the resumed coroutine changes in its own view. */
  ghost predicate ResumesView(v: View, v': View) {
    && v' == v.(x := v.x.(resume := v'.x.resume), waits := v'.waits)
    && (v'.waits != v.waits ==> v.x.resume.Unregister?)
    && match v.x.resume
       case NotResumed => (v.x.suspend.Ready? || v.x.scheduled > 0) && !v'.x.resume.Returned?
       case Unregister => v'.x.resume == LoadFlag
       case LoadFlag => v'.x.resume == Returned(if v.flag then Cancelled else Completed)
       case Returned(_) => false
  }

  lemma ResumeChangesView(s: State, i: nat, s': State)
    requires ResumeMoves(s, i, s')
    ensures ResumesView(ViewOf(s, i), ViewOf(s', i))
  {
    var x' := s'.sleepers[i];
    if s.sleepers[i].resume.Unregister? {
      UnregisterChangesView(s, i, s');
    } else {
      assert s' == Put(s, i, x') && x' == s.sleepers[i].(resume := x'.resume);
      PutChangesView(s, i, x');
    }
  }

  /** Only whether the callback waits can change besides. */
  lemma UnregisterChangesView(s: State, i: nat, s': State)
    requires ResumeMoves(s, i, s') && s.sleepers[i].resume.Unregister?
    ensures var v, v' := ViewOf(s, i), ViewOf(s', i);
      v' == v.(x := v.x.(resume := LoadFlag), waits := v'.waits)
  {
  }

  lemma PutChangesView(s: State, i: nat, x': Sleeper)
    requires i in s.sleepers && x' == s.sleepers[i].(resume := x'.resume)
    ensures ViewOf(Put(s, i, x'), i) == ViewOf(s, i).(x := x')
  {
  }

  lemma ResumedViewOk(v: View, v': View)
    requires SleeperOk(v) && ResumesView(v, v')
    ensures SleeperOk(v')
  {
  }

  lemma ResumeKeepsItself(s: State, i: nat, s': State)
    requires ResumeMoves(s, i, s') && SleeperOk(ViewOf(s, i))
    ensures SleeperOk(ViewOf(s', i))
  {
    ResumeChangesView(s, i, s');
    ResumedViewOk(ViewOf(s, i), ViewOf(s', i));
  }

  lemma ResumeKeepsOther(s: State, i: nat, s': State, j: nat)
    requires ResumeMoves(s, i, s') && j in s.sleepers && j != i
    ensures Undisturbed(ViewOf(s, j), ViewOf(s', j))
  {
    if s.sleepers[i].source.Some? {
      WithoutOther(SourceOf(s, s.sleepers[i].source.value).callbacks, i, j);
    }
    SourceKeptUndisturbed(s, s', j);
  }

  // the timer thread

  /** The timer is about to pop a due entry. */
  predicate Pops(s: State) {
    s.timer.Checked? && s.heap != [] && s.heap[0].deadline <= s.now
  }

  /** The sleeper the timer's next step is about, if any. */
  predicate TimerTargets(s: State, j: nat) {
    (Pops(s) && s.heap[0].who == j) || s.timer == TimerWon(j)
  }

  lemma TimerKeepsOther(s: State, s': State, j: nat)
    requires TimerMoves(s, s') && j in s.sleepers && !TimerTargets(s, j)
    requires !DrainHasMutex(s)
    ensures Undisturbed(ViewOf(s, j), ViewOf(s', j))
  {
    if Pops(s) {
      SameMembers(s'.heap, s.heap[0], s.heap);
    }
    assert s'.sleepers[j] == s.sleepers[j] && s'.sources == s.sources;
  }

  lemma TimerKeepsTarget(s: State, s': State, j: nat)
    requires TimerMoves(s, s') && j in s.sleepers && SleeperOk(ViewOf(s, j)) && TimerTargets(s, j)
    requires HeapOk(s) && TimerOk(s) && !DrainHasMutex(s)
    ensures SleeperOk(ViewOf(s', j))
  {
    if Pops(s) {
      SameMembers(s'.heap, s.heap[0], s.heap);
      assert s.heap[0] in s.heap;
    }
    assert s'.sources == s.sources;
  }

  lemma TimerKeepsSleeper(s: State, s': State, j: nat)
    requires TimerMoves(s, s') && j in s.sleepers && SleeperOk(ViewOf(s, j))
    requires HeapOk(s) && TimerOk(s) && ShutdownOk(s)
    ensures SleeperOk(ViewOf(s', j))
  {
    if TimerTargets(s, j) {
      TimerKeepsTarget(s, s', j);
    } else {
      TimerKeepsOther(s, s', j);
      UndisturbedOk(ViewOf(s, j), ViewOf(s', j));
    }
  }

  // shutdown

  predicate ShutdownTargets(s: State, j: nat) {
    DrainHasMutex(s) && s.shutdown.next < |s.heap| && s.heap[s.shutdown.next].who == j
  }

  lemma ShutdownKeepsOther(s: State, s': State, j: nat)
    requires ShutdownMoves(s, s') && j in s.sleepers && !ShutdownTargets(s, j)
    requires SleeperOk(ViewOf(s, j)) && ShutdownOk(s)
    ensures Undisturbed(ViewOf(s, j), ViewOf(s', j))
  {
    assert s'.sleepers[j] == s.sleepers[j] && s'.sources == s.sources;
    if DrainHasMutex(s) && s.shutdown.next == |s.heap| && Entry(s.sleepers[j].deadline, j) in s.heap {
      var k :| 0 <= k < |s.heap| && s.heap[k] == Entry(s.sleepers[j].deadline, j);
      assert WokenAt(s, k);
    }
  }

  lemma ShutdownKeepsTarget(s: State, s': State, j: nat)
    requires ShutdownMoves(s, s') && j in s.sleepers && SleeperOk(ViewOf(s, j)) && ShutdownTargets(s, j)
    requires HeapOk(s) && ShutdownOk(s)
    ensures SleeperOk(ViewOf(s', j))
  {
    assert s.heap[s.shutdown.next] in s.heap && s'.sources == s.sources && s'.heap == s.heap;
  }

  lemma ShutdownKeepsSleeper(s: State, s': State, j: nat)
    requires ShutdownMoves(s, s') && j in s.sleepers && SleeperOk(ViewOf(s, j))
    requires HeapOk(s) && ShutdownOk(s)
    ensures SleeperOk(ViewOf(s', j))
  {
    if ShutdownTargets(s, j) {
      ShutdownKeepsTarget(s, s', j);
    } else {
      ShutdownKeepsOther(s, s', j);
      UndisturbedOk(ViewOf(s, j), ViewOf(s', j));
    }
  }

  // cancel

  predicate CancelTargets(s: State, c: nat, j: nat) {
    var pc := SourceOf(s, c).cancel;
    (pc.Firing? && pc.rest != [] && pc.rest[0] == j) || (pc.FiringWon? && pc.who == j)
  }

  lemma {:induction false} CancelKeepsOther(s: State, c: nat, s': State, j: nat)
    requires CancelMoves(s, c, s') && j in s.sleepers && !CancelTargets(s, c, j)
    requires SourceOk(s, c)
    ensures Undisturbed(ViewOf(s, j), ViewOf(s', j))
  {
    if s.sleepers[j].source == Some(c) {
      CancelKeepsNeighbour(s, c, s', j);
    } else {
      SourceKeptUndisturbed(s, s', j);
    }
  }

  /** A sleeper of the same source whose turn it is not. */
  lemma {:induction false} CancelKeepsNeighbour(s: State, c: nat, s': State, j: nat)
    requires CancelMoves(s, c, s') && j in s.sleepers && !CancelTargets(s, c, j)
    requires SourceOk(s, c) && s.sleepers[j].source == Some(c)
    ensures Undisturbed(ViewOf(s, j), ViewOf(s', j))
  {
    assert s'.sleepers[j] == s.sleepers[j] && s'.heap == s.heap && s'.timer == s.timer && s'.shutdown == s.shutdown;
    var pc := SourceOf(s, c).cancel;
    if pc.Firing? && pc.rest != [] {
      assert j in pc.rest ==> j in pc.rest[1..];
    }
  }

  lemma CancelKeepsTarget(s: State, c: nat, s': State, j: nat)
    requires CancelMoves(s, c, s') && j in s.sleepers && SleeperOk(ViewOf(s, j)) && CancelTargets(s, c, j)
    requires SourceOk(s, c)
    ensures SleeperOk(ViewOf(s', j))
  {
    assert CallbackOk(s, c, j);
    assert s'.heap == s.heap && s'.timer == s.timer && s'.shutdown == s.shutdown;
  }

  lemma CancelKeepsSleeper(s: State, c: nat, s': State, j: nat)
    requires CancelMoves(s, c, s') && j in s.sleepers && SleeperOk(ViewOf(s, j))
    requires SourceOk(s, c)
    ensures SleeperOk(ViewOf(s', j))
  {
    if CancelTargets(s, c, j) {
      CancelKeepsTarget(s, c, s', j);
    } else {
      CancelKeepsOther(s, c, s', j);
      UndisturbedOk(ViewOf(s, j), ViewOf(s', j));
    }
  }

  // sources

  lemma {:induction false} RegisterKeepsSource(s: State, i: nat, s': State, c: nat)
    requires RegisterMoves(s, i, s') && SleeperOk(ViewOf(s, i)) && AllGrow(s, s') && SourceOk(s, c)
    ensures SourceOk(s', c)
  {
    if s.sleepers[i].source != Some(c) {
      SourceFrame(s, s', c);
    } else if s.sleepers[i].suspend != InRegister(false) {
      MutexFrame(s, s', c);
    }
  }

  lemma MutexFrame(s: State, s': State, c: nat)
    requires SourceOk(s, c) && AllGrow(s, s')
    requires SourceOf(s', c) == SourceOf(s, c).(mutex := SourceOf(s', c).mutex)
    ensures SourceOk(s', c)
  {
  }

  lemma ResumeKeepsSource(s: State, i: nat, s': State, c: nat)
    requires ResumeMoves(s, i, s') && AllGrow(s, s') && SourceOk(s, c)
    ensures SourceOk(s', c)
  {
    if s.sleepers[i].source == Some(c) {
      forall j
        ensures j in Without(SourceOf(s, c).callbacks, i) ==> j in SourceOf(s, c).callbacks
      {
        WithoutOnly(SourceOf(s, c).callbacks, i, j);
      }
    } else {
      SourceFrame(s, s', c);
    }
  }

  lemma CancelKeepsSource(s: State, c: nat, s': State, d: nat)
    requires CancelMoves(s, c, s') && AllGrow(s, s') && SourceOk(s, c) && SourceOk(s, d)
    ensures SourceOk(s', d)
  {
    if d != c {
      SourceFrame(s, s', d);
    } else {
      var pc := SourceOf(s, c).cancel;
      if pc.Firing? && pc.rest != [] {
        assert CallbackOk(s, c, pc.rest[0]);
        assert forall i :: i in pc.rest[1..] ==> i in pc.rest;
      }
      assert forall i :: CallbackOk(s, c, i) ==> CallbackOk(s', c, i);
    }
  }

  // heap, timer and shutdown

  /** The step leaves heap, timer, shutdown and pending notifications as they are. */
  ghost predicate LeavesRest(s: State, s': State) {
    && s'.heap == s.heap && s'.timer == s.timer && s'.shutdown == s.shutdown && s'.running == s.running
    && s'.added == s.added && s'.popped == s.popped
    && forall i :: i in s.sleepers && s.sleepers[i].suspend.Notify? ==>
         i in s'.sleepers && s'.sleepers[i].suspend.Notify?
  }

  lemma RegisterLeavesRest(s: State, i: nat, s': State)
    requires RegisterMoves(s, i, s')
    ensures LeavesRest(s, s')
  {
  }

  lemma ResumeLeavesRest(s: State, i: nat, s': State)
    requires ResumeMoves(s, i, s')
    ensures LeavesRest(s, s')
  {
  }

  /** The heap part and the timer part of a step that leaves the heap, the timer and the clock alone. */
  lemma RestFrame(s: State, s': State)
    requires HeapOk(s) && TimerOk(s) && ShutdownOk(s) && AllGrow(s, s') && LeavesRest(s, s')
    ensures HeapOk(s') && TimerOk(s') && ShutdownOk(s')
  {
    forall k | 0 <= k < |s.heap| && WokenAt(s, k)
      ensures WokenAt(s', k)
    {
    }
    forall e | e in s.heap && WillNotify(s, e)
      ensures WillNotify(s', e)
    {
    }
  }

  lemma AddKeepsRest(s: State, i: nat, s': State)
    requires SuspendMoves(s, i, s') && s.sleepers[i].suspend.AddTimer? && AllGrow(s, s')
    requires HeapOk(s) && TimerOk(s) && ShutdownOk(s)
    ensures HeapOk(s') && TimerOk(s') && ShutdownOk(s')
  {
    SameMembers(s.heap, Entry(s.sleepers[i].deadline, i), s'.heap);
    forall e | e in s.heap && WillNotify(s, e)
      ensures WillNotify(s', e)
    {
    }
  }

  lemma SuspendKeepsRest(s: State, i: nat, s': State)
    requires SuspendMoves(s, i, s') && AllGrow(s, s')
    requires HeapOk(s) && TimerOk(s) && ShutdownOk(s)
    ensures HeapOk(s') && TimerOk(s') && ShutdownOk(s')
  {
    if s.sleepers[i].suspend.AddTimer? {
      AddKeepsRest(s, i, s');
    } else if s.sleepers[i].suspend.Notify? {
      forall k | 0 <= k < |s.heap| && WokenAt(s, k)
        ensures WokenAt(s', k)
      {
      }
    } else {
      RestFrame(s, s');
    }
  }

  lemma TimerKeepsRest(s: State, s': State)
    requires TimerMoves(s, s') && AllGrow(s, s')
    requires HeapOk(s) && TimerOk(s) && ShutdownOk(s)
    ensures HeapOk(s') && TimerOk(s') && ShutdownOk(s')
  {
    if Pops(s) {
      PopKeepsRest(s, s');
    } else {
      forall e | e in s.heap
        ensures s.heap[0].deadline <= e.deadline
      {
        var k :| 0 <= k < |s.heap| && s.heap[k] == e;
        FrontIsEarliest(s.heap, k);
      }
    }
  }

  lemma PopKeepsRest(s: State, s': State)
    requires TimerMoves(s, s') && AllGrow(s, s') && Pops(s)
    requires HeapOk(s) && ShutdownOk(s)
    ensures HeapOk(s') && TimerOk(s') && ShutdownOk(s')
  {
    SameMembers(s'.heap, s.heap[0], s.heap);
  }

  lemma ShutdownKeepsRest(s: State, s': State)
    requires ShutdownMoves(s, s') && AllGrow(s, s') && Aligned(s)
    requires HeapOk(s) && TimerOk(s) && ShutdownOk(s)
    ensures HeapOk(s') && TimerOk(s') && ShutdownOk(s')
  {
    if DrainHasMutex(s) {
      DrainKeepsRest(s, s');
    } else {
      forall e | e in s.heap && WillNotify(s, e)
        ensures WillNotify(s', e)
      {
      }
    }
  }

  lemma DrainKeepsRest(s: State, s': State)
    requires ShutdownMoves(s, s') && AllGrow(s, s') && DrainHasMutex(s) && Aligned(s)
    requires HeapOk(s) && ShutdownOk(s)
    ensures HeapOk(s') && TimerOk(s') && ShutdownOk(s')
  {
    if s'.heap == s.heap {
      forall k | 0 <= k < |s.heap| && WokenAt(s, k)
        ensures WokenAt(s', k)
      {
      }
    }
  }

  lemma {:induction false} SuspendKeepsSleepers(s: State, i: nat, s': State)
    requires (forall j :: j in s.sleepers ==> SleeperOk(ViewOf(s, j))) && SuspendMoves(s, i, s')
    requires s'.sleepers.Keys == s.sleepers.Keys
    ensures forall j :: j in s'.sleepers ==> SleeperOk(ViewOf(s', j))
  {
    forall j | j in s'.sleepers
      ensures SleeperOk(ViewOf(s', j))
    {
      assert SleeperOk(ViewOf(s, j));
      if j == i {
        SuspendKeepsItself(s, i, s');
      } else {
        SuspendKeepsOther(s, i, s', j);
        UndisturbedOk(ViewOf(s, j), ViewOf(s', j));
      }
    }
  }

  lemma {:induction false} TimerKeepsSleepers(s: State, s': State)
    requires (forall j :: j in s.sleepers ==> SleeperOk(ViewOf(s, j))) && TimerMoves(s, s')
    requires HeapOk(s) && TimerOk(s) && ShutdownOk(s)
    requires s'.sleepers.Keys == s.sleepers.Keys
    ensures forall j :: j in s'.sleepers ==> SleeperOk(ViewOf(s', j))
  {
    forall j | j in s'.sleepers
      ensures SleeperOk(ViewOf(s', j))
    {
      assert SleeperOk(ViewOf(s, j));
      TimerKeepsSleeper(s, s', j);
    }
  }

  lemma SuspendKeepsFirst(s: State, i: nat, s': State)
    requires Inv(s) && SuspendMoves(s, i, s')
    ensures AllGrow(s, s') && s'.sources == s.sources && s'.sleepers.Keys == s.sleepers.Keys
    ensures HeapOk(s') && TimerOk(s') && ShutdownOk(s')
  {
    SuspendGrows(s, i, s');
    SuspendKeepsRest(s, i, s');
  }

  lemma {:induction false} SuspendKeepsInv(s: State, i: nat, s': State)
    requires Inv(s) && SuspendMoves(s, i, s')
    ensures Inv(s')
  {
    SuspendKeepsFirst(s, i, s');
    SourcesFrame(s, s');
    SuspendKeepsSleepers(s, i, s');
  }

  lemma {:induction false} RegisterKeepsInv(s: State, i: nat, s': State)
    requires Inv(s) && RegisterMoves(s, i, s')
    ensures Inv(s')
  {
    AllAligned(s);
    RegisterGrows(s, i, s');
    RegisterLeavesRest(s, i, s');
    RestFrame(s, s');
    RegisterKeepsSources(s, i, s');
    RegisterKeepsSleepers(s, i, s');
  }

  lemma RegisterKeepsSources(s: State, i: nat, s': State)
    requires Inv(s) && RegisterMoves(s, i, s') && AllGrow(s, s')
    ensures forall c :: SourceOk(s', c)
  {
    assert SleeperOk(ViewOf(s, i));
    forall c
      ensures SourceOk(s', c)
    {
      assert SourceOk(s, c);
      RegisterKeepsSource(s, i, s', c);
    }
  }

  lemma {:induction false} RegisterKeepsSleepers(s: State, i: nat, s': State)
    requires Inv(s) && RegisterMoves(s, i, s')
    ensures forall j :: j in s'.sleepers ==> SleeperOk(ViewOf(s', j))
  {
    assert SleeperOk(ViewOf(s, i));
    forall j | j in s'.sleepers
      ensures SleeperOk(ViewOf(s', j))
    {
      assert SleeperOk(ViewOf(s, j));
      if j == i {
        assert SourceOk(s, s.sleepers[i].source.value);
        RegisterKeepsItself(s, i, s');
      } else {
        RegisterKeepsOther(s, i, s', j);
        UndisturbedOk(ViewOf(s, j), ViewOf(s', j));
      }
    }
  }

  lemma AllAligned(s: State)
    requires Inv(s)
    ensures Aligned(s)
  {
    forall i | i in s.sleepers
      ensures s.sleepers[i].fired <==> s.sleepers[i].waker.Some?
    {
      assert SleeperOk(ViewOf(s, i));
    }
  }

  lemma {:induction false} ResumeKeepsInv(s: State, i: nat, s': State)
    requires Inv(s) && ResumeMoves(s, i, s')
    ensures Inv(s')
  {
    ResumeGrows(s, i, s');
    ResumeLeavesRest(s, i, s');
    RestFrame(s, s');
    forall c
      ensures SourceOk(s', c)
    {
      assert SourceOk(s, c);
      ResumeKeepsSource(s, i, s', c);
    }
    ResumeKeepsSleepers(s, i, s');
  }

  lemma {:induction false} ResumeKeepsSleepers(s: State, i: nat, s': State)
    requires Inv(s) && ResumeMoves(s, i, s')
    ensures forall j :: j in s'.sleepers ==> SleeperOk(ViewOf(s', j))
  {
    forall j | j in s'.sleepers
      ensures SleeperOk(ViewOf(s', j))
    {
      assert SleeperOk(ViewOf(s, j));
      if j == i {
        ResumeKeepsItself(s, i, s');
      } else {
        ResumeKeepsOther(s, i, s', j);
        UndisturbedOk(ViewOf(s, j), ViewOf(s', j));
      }
    }
  }

  lemma TimerKeepsFirst(s: State, s': State)
    requires Inv(s) && TimerMoves(s, s')
    ensures AllGrow(s, s') && s'.sources == s.sources && s'.sleepers.Keys == s.sleepers.Keys
    ensures HeapOk(s') && TimerOk(s') && ShutdownOk(s')
  {
    AllAligned(s);
    TimerGrows(s, s');
    TimerKeepsDomain(s, s');
    TimerKeepsRest(s, s');
  }

  lemma {:induction false} TimerKeepsInv(s: State, s': State)
    requires Inv(s) && TimerMoves(s, s')
    ensures Inv(s')
  {
    TimerKeepsFirst(s, s');
    SourcesFrame(s, s');
    TimerKeepsSleepers(s, s');
  }

  lemma {:induction false} ShutdownKeepsInv(s: State, s': State)
    requires Inv(s) && ShutdownMoves(s, s')
    ensures Inv(s')
  {
    AllAligned(s);
    ShutdownGrows(s, s');
    ShutdownKeepsRest(s, s');
    SourcesFrame(s, s');
    forall j | j in s'.sleepers
      ensures SleeperOk(ViewOf(s', j))
    {
      assert SleeperOk(ViewOf(s, j));
      ShutdownKeepsSleeper(s, s', j);
    }
  }

  lemma {:induction false} CancelKeepsInv(s: State, c: nat, s': State)
    requires Inv(s) && CancelMoves(s, c, s')
    ensures Inv(s')
  {
    AllAligned(s);
    CancelGrows(s, c, s');
    assert SourceOk(s, c);
    RestFrame(s, s');
    forall d
      ensures SourceOk(s', d)
    {
      assert SourceOk(s, d);
      CancelKeepsSource(s, c, s', d);
    }
    forall j | j in s'.sleepers
      ensures SleeperOk(ViewOf(s', j))
    {
      assert SleeperOk(ViewOf(s, j));
      CancelKeepsSleeper(s, c, s', j);
    }
  }

  lemma TickKeepsInv(s: State, s': State)
    requires Inv(s) && s' == s.(now := s'.now) && s.now <= s'.now
    ensures Inv(s')
  {
    SourcesFrame(s, s');
    RestFrame(s, s');
    forall j | j in s'.sleepers
      ensures SleeperOk(ViewOf(s', j))
    {
      assert SleeperOk(ViewOf(s, j));
      UndisturbedOk(ViewOf(s, j), ViewOf(s', j));
    }
  }

  lemma CallKeepsSleeper(s: State, i: nat, x: Sleeper, j: nat)
    requires i !in s.sleepers && (j in s.sleepers || j == i)
    requires j in s.sleepers ==> SleeperOk(ViewOf(s, j))
    requires x == Sleeper(x.deadline, x.source, false, CheckFlag, NotResumed, false, None, None, 0)
    ensures SleeperOk(ViewOf(Put(s, i, x), j))
  {
    if j != i {
      UndisturbedOk(ViewOf(s, j), ViewOf(Put(s, i, x), j));
    }
  }

  lemma {:induction false} CallKeepsInv(s: State, i: nat, s': State, a: Action)
    requires Inv(s) && a.CallSleep? && Step(s, a, s') && i == a.i
    ensures Inv(s')
  {
    SourcesFrame(s, s');
    RestFrame(s, s');
    forall j | j in s'.sleepers
      ensures SleeperOk(ViewOf(s', j))
    {
      CallKeepsSleeper(s, i, s'.sleepers[i], j);
    }
  }

  lemma WakeKeepsInv(s: State, s': State)
    requires Inv(s) && (s.timer.Asleep? || s.timer.Waiting?) && s' == s.(timer := NotifyTimer(s.timer))
    ensures Inv(s')
  {
    SourcesFrame(s, s');
    forall j | j in s'.sleepers
      ensures SleeperOk(ViewOf(s', j))
    {
      assert SleeperOk(ViewOf(s, j));
      UndisturbedOk(ViewOf(s, j), ViewOf(s', j));
    }
    assert forall k :: 0 <= k < |s.heap| ==> (WokenAt(s, k) <==> WokenAt(s', k));
  }

  lemma {:induction false} StepKeepsInv(s: State, a: Action, s': State)
    requires Inv(s) && Step(s, a, s')
    ensures Inv(s')
  {
    match a
    case SuspendStep(i) =>
      if SuspendMoves(s, i, s') {
        SuspendKeepsInv(s, i, s');
      } else {
        RegisterKeepsInv(s, i, s');
      }
    case ResumeStep(i) => ResumeKeepsInv(s, i, s');
    case TimerStep => TimerKeepsInv(s, s');
    case ShutdownStep => ShutdownKeepsInv(s, s');
    case CancelStep(c) => CancelKeepsInv(s, c, s');
    case Tick(_) => TickKeepsInv(s, s');
    case CallSleep(i, _, _) => CallKeepsInv(s, i, s', a);
    case TimerWake => WakeKeepsInv(s, s');
  }

  // ---------------------------------------------------------------- whole runs

  type Run = Runs.Run<State, Action>

  ghost predicate IsRun(r: Run) {
    match r
    case Start(s) => Init(s)
    case Then(p, a, s) => IsRun(p) && Step(Last(p), a, s)
  }

  lemma {:induction false} RunKeepsInv(r: Run)
    requires IsRun(r)
    ensures Inv(Last(r))
  {
    match r
    case Start(s) =>
    case Then(p, a, s) =>
      RunKeepsInv(p);
      StepKeepsInv(Last(p), a, s);
  }

  /** Whoever races for the gate, a sleeping coroutine is scheduled at most once. */
  lemma {:induction false} ScheduledAtMostOnce(r: Run, i: nat)
    requires IsRun(r) && i in Last(r).sleepers
    ensures Last(r).sleepers[i].scheduled <= 1
  {
    RunKeepsInv(r);
    assert SleeperOk(ViewOf(Last(r), i));
  }

  /** The heap entry of sleeper `i` has been dealt with: popped by the timer, or passed by the drain. */
  ghost predicate EntryProcessed(s: State, i: nat)
    requires i in s.sleepers
  {
    PastAdd(s.sleepers[i].suspend) && Entry(s.sleepers[i].deadline, i) !in s.heap
  }

  /**
   The callback of sleeper `i` has had its turn: it is no longer kept anywhere, or a
   registration that came too late ran it.
   */
  ghost predicate CallbackRun(s: State, i: nat)
    requires i in s.sleepers
  {
    var x := s.sleepers[i];
    x.source.Some? &&
    if x.registered then !CallbackWaits(s, x.source.value, i)
    else x.suspend.FiredHere? || x.suspend.Suspended?
  }

  /**
   No sleeper is forgotten: as soon as its heap entry is processed or its callback has run,
   in cancel or inside its own registration, its gate has been won, and it has been scheduled
   exactly once as soon as the winner has taken its next step.
   */
  lemma {:induction false} ScheduledExactlyOnce(r: Run, i: nat)
    requires IsRun(r) && i in Last(r).sleepers
    requires EntryProcessed(Last(r), i) || CallbackRun(Last(r), i)
    ensures var s := Last(r);
            && s.sleepers[i].waker.Some?
            && s.sleepers[i].scheduled == if Owes(s, i, s.sleepers[i].waker.value) then 0 else 1
  {
    RunKeepsInv(r);
    assert SleeperOk(ViewOf(Last(r), i));
  }

  /**
   After the drain at shutdown every sleeper that was ever added has been scheduled exactly
   once, up to a winner's last step.
   */
  lemma {:induction false} ShutdownLeavesNobody(r: Run, i: nat)
    requires IsRun(r) && Last(r).shutdown.Shut? && i in Last(r).sleepers
    requires PastAdd(Last(r).sleepers[i].suspend)
    ensures var s := Last(r);
            && s.sleepers[i].waker.Some?
            && s.sleepers[i].scheduled == if Owes(s, i, s.sleepers[i].waker.value) then 0 else 1
  {
    RunKeepsInv(r);
    ScheduledExactlyOnce(r, i);
  }

  /**
   What the result means. `Completed`: the deadline had passed when the sleep was found
   ready or when the timer scheduled it, or the service was shutting down. `Cancelled`: the
   source was cancelled; so every wakeup by a cancellation is reported as one.
   */
  lemma {:induction false} ResultIsRight(r: Run, i: nat)
    requires IsRun(r) && i in Last(r).sleepers && Last(r).sleepers[i].resume.Returned?
    ensures var s := Last(r); var x := s.sleepers[i];
            && (x.resume.status == Completed ==>
                  || (x.readyAt.Some? && x.deadline <= x.readyAt.value <= s.now)
                  || (x.waker.Some? && x.waker.value.ByTimer? && x.deadline <= x.waker.value.at <= s.now)
                  || (x.waker == Some(ByDrain) && !s.running))
            && (x.resume.status == Cancelled ==> FlagSeen(s, x))
            && (x.waker == Some(ByCancel) || x.waker == Some(ByRegister) ==> x.resume.status == Cancelled)
  {
    RunKeepsInv(r);
    assert SleeperOk(ViewOf(Last(r), i));
  }

  /**
   The timer thread does not oversleep: while it waits until `d` without having been
   notified, no entry in the heap is due before `d`, except those whose adder is just
   about to notify it. The same holds for its wait on the empty heap.
   */
  lemma {:induction false} TimerDoesNotOversleep(r: Run, e: Entry)
    requires IsRun(r) && e in Last(r).heap
    ensures Last(r).timer.Waiting? ==> Last(r).timer.until <= e.deadline || WillNotify(Last(r), e)
    ensures Last(r).timer.Asleep? ==> WillNotify(Last(r), e)
  {
    RunKeepsInv(r);
  }

  /** What the timer pops is due and has the earliest deadline of all entries. */
  lemma {:induction false} PopsTheEarliest(r: Run, s': State, e: Entry)
    requires IsRun(r) && Pops(Last(r)) && TimerMoves(Last(r), s') && e in Last(r).heap
    ensures var s := Last(r);
            && s'.popped == s.popped + multiset{s.heap[0]}
            && s.heap[0].deadline <= e.deadline && s.heap[0].deadline <= s.now
  {
    RunKeepsInv(r);
    var h := Last(r).heap;
    var k :| 0 <= k < |h| && h[k] == e;
    FrontIsEarliest(h, k);
  }

  /** Until the drain has cleared the heap, every entry added was popped once or is still there once. */
  lemma {:induction false} EntriesConserved(r: Run)
    requires IsRun(r) && !Last(r).shutdown.Shut?
    ensures Last(r).added == multiset(Last(r).heap) + Last(r).popped
  {
    RunKeepsInv(r);
  }

  // ---------------------------------------------------------------- does shutdown reach the timer thread?

  /** The run up to shutdown's notify_one. */
  ghost function UpToNotification(r: Run): Run {
    match r
    case Start(s) => r
    case Then(p, _, s) => if Last(p).shutdown.Flagged? then p else UpToNotification(p)
  }

  /** The timer thread is in one of its two waits and has not been woken. */
  predicate Waits(s: State) {
    s.timer.Asleep? || s.timer.Waiting?
  }

  /**
   Where a notification is lost: the timer thread has seen the running flag and is on its
   way into a wait, on the empty heap or until the earliest deadline.
   */
  predicate Missable(s: State) {
    || s.timer.WillSleep?
    || s.timer.WillWait?
    || (s.timer.Checked? && s.heap != [] && s.now < s.heap[0].deadline)
  }

  lemma NotRunning(r: Run)
    requires IsRun(r) && !Last(r).shutdown.NotShut?
    ensures !Last(r).running
  {
    RunKeepsInv(r);
  }

  lemma NotifyStep(s: State, a: Action, s': State)
    requires Step(s, a, s') && !s.shutdown.Notified? && s'.shutdown.Notified?
    ensures s.shutdown.Flagged? && s'.timer == NotifyTimer(s.timer) && s'.heap == s.heap && s'.now == s.now
  {
  }

  /** Once the flag is down, the timer thread gets into a wait only from where it was already on its way. */
  lemma NoNewWait(s: State, a: Action, s': State)
    requires Step(s, a, s') && !s.running
    ensures Waits(s') || Missable(s') ==> Waits(s) || Missable(s)
  {
  }

  /**
   If the timer thread waits, un-notified, after shutdown's notification, then it was on its
   way into a wait when that came.
   */
  lemma {:induction false} WaitsOnlyIfMissed(r: Run)
    requires IsRun(r) && Last(r).shutdown.Notified?
    ensures IsRun(UpToNotification(r)) && Last(UpToNotification(r)).shutdown.Flagged?
    ensures Waits(Last(r)) || Missable(Last(r)) ==> Missable(Last(UpToNotification(r)))
  {
    match r
    case Start(s) =>
    case Then(p, a, s) =>
      if Last(p).shutdown.Notified? {
        WaitsOnlyIfMissed(p);
        NotRunning(p);
        NoNewWait(Last(p), a, s);
      } else {
        NotifyStep(Last(p), a, s);
      }
  }

  /**
   `r'` continues `r` by shutdown's notification, after which the timer thread is in a wait
   and has not been woken.
   */
  ghost predicate LosesNotification(r: Run, r': Run) {
    IsRun(r') && Last(r').shutdown.Notified? && UpToNotification(r') == r && Waits(Last(r'))
  }

  ghost predicate CanLoseNotification(r: Run) {
    exists r' :: LosesNotification(r, r')
  }

  /** From there the timer's own steps do reach the wait. */
  lemma MissedReachesWait(r: Run) returns (r': Run)
    requires IsRun(r) && Last(r).shutdown.Flagged? && Missable(Last(r))
    ensures LosesNotification(r, r')
  {
    var s := Last(r).(shutdown := Notified);
    r' := Then(r, ShutdownStep, s);
    assert IsRun(r') && UpToNotification(r') == r;
    if s.timer.Checked? {
      s := s.(timer := WillWait(s.heap[0].deadline));
      r' := Then(r', TimerStep, s);
      assert IsRun(r') && UpToNotification(r') == r;
    }
    r' := Then(r', TimerStep, s.(timer := if s.timer.WillSleep? then Asleep else Waiting(s.timer.until)));
    assert IsRun(r') && UpToNotification(r') == r;
  }

  /**
   shutdown sets the running flag without the mutex, so its one notification can be lost. It
   can happen that the timer thread waits on without having been notified exactly if, when
   the notification comes, it is past its check of the flag and on its way into a wait.
   */
  lemma {:induction false} WaitsThroughShutdownIffMissed(r: Run)
    requires IsRun(r) && Last(r).shutdown.Flagged?
    ensures CanLoseNotification(r) <==> Missable(Last(r))
  {
    if Missable(Last(r)) {
      var r' := MissedReachesWait(r);
      assert CanLoseNotification(r);
    }
    if CanLoseNotification(r) {
      var r' :| LosesNotification(r, r');
      WaitsOnlyIfMissed(r');
    }
  }

  /** It does happen: a run that ends with the timer asleep on the empty heap, and shutdown waiting for it. */
  lemma ShutdownCanMissTheTimer() returns (r: Run)
    ensures IsRun(r) && Last(r).shutdown.Notified? && Last(r).timer.Asleep? && Last(r).heap == []
    ensures forall s' :: !TimerMoves(Last(r), s') && !ShutdownMoves(Last(r), s')
  {
    var s0 := State(0, [], true, Top, NotShut, map[], map[], multiset{}, multiset{});
    var s1 := s0.(timer := Checked);
    var s2 := s1.(timer := WillSleep);
    var s3 := s2.(running := false, shutdown := Flagged);
    var s4 := s3.(shutdown := Notified);
    var s5 := s4.(timer := Asleep);
    r := Then(Then(Then(Then(Then(Start(s0), TimerStep, s1), TimerStep, s2), ShutdownStep, s3), ShutdownStep, s4),
              TimerStep, s5);
  }

  /** And in the timed wait: the timer waits until a deadline as far off as you like, and shutdown waits for it. */
  lemma ShutdownCanMissTheTimedWait(deadline: int) returns (r: Run)
    requires deadline > 0
    ensures IsRun(r) && Last(r).shutdown.Notified? && Last(r).timer == Waiting(deadline) && Last(r).now == 0
    ensures forall s' :: !TimerMoves(Last(r), s') && !ShutdownMoves(Last(r), s')
  {
    r := OneSleeper(deadline);
    var s := Last(r).(timer := Top);
    r := Then(r, TimerStep, s);
    assert IsRun(r);
    s := s.(timer := Checked);
    r := Then(r, TimerStep, s);
    assert IsRun(r);
    s := s.(timer := WillWait(deadline));
    r := Then(r, TimerStep, s);
    assert IsRun(r);
    s := s.(running := false, shutdown := Flagged);
    r := Then(r, ShutdownStep, s);
    assert IsRun(r);
    s := s.(shutdown := Notified);
    r := Then(r, ShutdownStep, s);
    assert IsRun(r);
    r := Then(r, TimerStep, s.(timer := Waiting(deadline)));
  }

  /** The timer sleeps on the empty heap, a coroutine goes to sleep until `deadline`, and the timer is notified. */
  lemma OneSleeper(deadline: int) returns (r: Run)
    requires deadline > 0
    ensures IsRun(r)
    ensures var s := Last(r);
      && s.timer == AsleepWoken && s.heap == [Entry(deadline, 0)] && s.now == 0
      && s.running && s.shutdown == NotShut
  {
    var s := State(0, [], true, Top, NotShut, map[], map[], multiset{}, multiset{});
    r := Start(s);
    assert IsRun(r);
    s := s.(timer := Checked);
    r := Then(r, TimerStep, s);
    assert IsRun(r);
    s := s.(timer := WillSleep);
    r := Then(r, TimerStep, s);
    assert IsRun(r);
    s := s.(timer := Asleep);
    r := Then(r, TimerStep, s);
    assert IsRun(r);
    var x := Sleeper(deadline, None, false, CheckFlag, NotResumed, false, None, None, 0);
    s := Put(s, 0, x);
    r := Then(r, CallSleep(0, deadline, None), s);
    assert IsRun(r);
    x := x.(suspend := CheckClock);
    s := Put(s, 0, x);
    r := Then(r, SuspendStep(0), s);
    assert IsRun(r);
    x := x.(suspend := AddTimer);
    s := Put(s, 0, x);
    r := Then(r, SuspendStep(0), s);
    assert IsRun(r);
    var e := Entry(deadline, 0);
    x := x.(suspend := Notify);
    s := Put(s, 0, x).(heap := [e], added := multiset{e});
    r := Then(r, SuspendStep(0), s);
    assert IsRun(r);
    r := Then(r, SuspendStep(0), Put(s, 0, x.(suspend := Suspended)).(timer := AsleepWoken));
  }
}
