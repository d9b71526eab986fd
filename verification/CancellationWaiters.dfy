/**
 Awaiting cancellation: coroutines push themselves on the waiter list and then look at the
 cancelled flag again; cancel sets the flag and later takes the whole list. Whoever finds
 the flag set after pushing takes the list as well.

 Every coroutine brings its own node, which lives in its awaiter and is gone as soon as it
 has been scheduled. The main results: no coroutine is forgotten, none is scheduled twice,
 and nobody follows the link of a node that is gone.
 */
module CancellationWaiters {
  import opened Wrappers
  import opened Counting
  import opened Runs

  type Link = Option<nat>

  /** Where a coroutine's call of suspend is. Nodes are named like the coroutine they belong to. */
  datatype SuspendPc =
    | Loaded(seen: Link)              // head loaded, node not yet linked
    | Linked(seen: Link)              // node's next written
    | Added                           // compare-and-swap done
    | MustWake                        // flag found set
    | Waking(wake: Wake)
    | Finished

  /** A wake_all after its exchange; `chain` records the nodes it still has to schedule. */
  datatype Wake =
    | AtNode(head: Link, chain: seq<nat>)
    | HasNext(node: nat, next: Link, chain: seq<nat>)   // next read, node not yet scheduled

  datatype CancelPc = NotCalled | FlagSet | CancelWaking(wake: Wake) | Returned

  /** Where a node is (history). */
  datatype Place = Outside | Listed | Taken(who: Link) | Scheduled

  datatype State = State(
    cancelled: bool,
    head: Link,
    next: map<nat, Link>,             // the next fields of the nodes that still exist
    suspends: map<nat, SuspendPc>,
    cancel: CancelPc,
    list: seq<nat>,                   // history: the nodes in the list, front first
    places: map<nat, Place>,
    schedules: seq<nat>)              // history: every schedule of a coroutine, in order

  datatype Action =
    | CallSuspend(n: nat)
    | SuspendStep(n: nat, spurious: bool)
    | CancelStep

  ghost predicate Init(s: State) {
    s == State(false, None, map[], map[], NotCalled, [], map[], [])
  }

  function Front(q: seq<nat>): Link {
    if q == [] then None else Some(q[0])
  }

  /** The list as it is handed to the waker `who`. */
  function TakeAll(s: State, who: Link): State {
    s.(head := None, list := [],
       places := map n | n in s.places :: if s.places[n] == Listed then Taken(who) else s.places[n])
  }

  /** Scheduling the coroutine of `n` ends the life of its node. */
  function Schedule(s: State, n: nat): State {
    s.(next := s.next - {n}, places := s.places[n := Scheduled], schedules := s.schedules + [n])
  }

  /** The traversal of wake_all can go on: the node it looks at still exists. */
  predicate WakeReady(s: State, w: Wake) {
    match w
    case AtNode(None, _) => true
    case AtNode(Some(n), _) => n in s.next
    case HasNext(n, _, chain) => chain != []
  }

  /** One step of the traversal; None when it has reached the end. */
  function WakeStep(s: State, w: Wake): (State, Option<Wake>)
    requires WakeReady(s, w)
  {
    match w
    case AtNode(None, _) => (s, None)
    case AtNode(Some(n), chain) => (s, Some(HasNext(n, s.next[n], chain)))
    case HasNext(n, next, chain) => (Schedule(s, n), Some(AtNode(next, chain[1..])))
  }

  ghost predicate SuspendMoves(s: State, n: nat, spurious: bool, s': State) {
    && n in s.suspends
    && match s.suspends[n]
       case Loaded(seen) =>
         s' == s.(next := s.next[n := seen], suspends := s.suspends[n := Linked(seen)])
       case Linked(seen) =>
         if s.head == seen && !spurious
         then s' == s.(head := Some(n), list := [n] + s.list, places := s.places[n := Listed],
                       suspends := s.suspends[n := Added])
         else s' == s.(suspends := s.suspends[n := Loaded(s.head)])
       case Added =>
         s' == s.(suspends := s.suspends[n := if s.cancelled then MustWake else Finished])
       case MustWake =>
         s' == TakeAll(s, Some(n)).(suspends := s.suspends[n := Waking(AtNode(s.head, s.list))])
       case Waking(w) =>
         && WakeReady(s, w)
         && var (t, v) := WakeStep(s, w);
            s' == t.(suspends := s.suspends[n := if v == None then Finished else Waking(v.value)])
       case Finished => false
  }

  ghost predicate CancelMoves(s: State, s': State) {
    match s.cancel
    case NotCalled => s' == s.(cancelled := true, cancel := FlagSet)
    case FlagSet => s' == TakeAll(s, None).(cancel := CancelWaking(AtNode(s.head, s.list)))
    case CancelWaking(w) =>
      && WakeReady(s, w)
      && var (t, v) := WakeStep(s, w);
         s' == t.(cancel := if v == None then Returned else CancelWaking(v.value))
    case Returned => false
  }

  ghost predicate Step(s: State, a: Action, s': State) {
    match a
    case CallSuspend(n) =>
      && n !in s.suspends
      && s' == s.(suspends := s.suspends[n := Loaded(s.head)], places := s.places[n := Outside])
    case SuspendStep(n, spurious) => SuspendMoves(s, n, spurious, s')
    case CancelStep => CancelMoves(s, s')
  }

  // ---------------------------------------------------------------- invariant

  /** `q` is a chain of existing nodes, from `start` to the end. */
  ghost predicate Chain(s: State, start: Link, q: seq<nat>) {
    && start == Front(q)
    && (forall i :: 0 <= i < |q| ==> q[i] in s.next && s.next[q[i]] == Front(q[i + 1..]))
  }

  /** The nodes at place `p` are those of `q`, each once. */
  ghost predicate Holds(s: State, q: seq<nat>, p: Place) {
    && (forall n :: n in q <==> n in s.places && s.places[n] == p)
    && (forall i, j :: 0 <= i < j < |q| ==> q[i] != q[j])
  }

  ghost predicate WakeOk(s: State, w: Wake, who: Link) {
    && Holds(s, w.chain, Taken(who))
    && match w
       case AtNode(h, q) => Chain(s, h, q)
       case HasNext(n, next, q) => Chain(s, Some(n), q) && next == Front(q[1..])
  }

  /** The chain a waker has in hand; empty if it is not waking. */
  ghost predicate WakerOk(s: State, who: Link) {
    match who
    case None => if s.cancel.CancelWaking? then WakeOk(s, s.cancel.wake, None) else Holds(s, [], Taken(None))
    case Some(n) =>
      if n in s.suspends && s.suspends[n].Waking? then WakeOk(s, s.suspends[n].wake, who)
      else Holds(s, [], Taken(who))
  }

  predicate CancelTookList(s: State) {
    s.cancel.CancelWaking? || s.cancel.Returned?
  }

  ghost predicate NodeOk(s: State, n: nat) {
    && n in s.places && n in s.suspends
    && (s.places[n] == Outside <==> s.suspends[n].Loaded? || s.suspends[n].Linked?)
    && (s.suspends[n].Linked? ==> n in s.next && s.next[n] == s.suspends[n].seen)
    // after cancel has taken the list, what is in it was put there by someone who is about to take it
    && (s.places[n] == Listed && CancelTookList(s) ==> s.suspends[n].Added? || s.suspends[n].MustWake?)
    && (s.suspends[n].MustWake? ==> s.cancelled)
  }

  ghost predicate Inv(s: State) {
    && s.places.Keys == s.suspends.Keys
    && (forall n :: n in s.suspends ==> NodeOk(s, n))
    && Holds(s, s.list, Listed) && Chain(s, s.head, s.list)
    && (forall who :: WakerOk(s, who))
    && (s.cancelled <==> !s.cancel.NotCalled?)
    && (forall n :: Times(s.schedules, n) == if n in s.places && s.places[n] == Scheduled then 1 else 0)
  }

  // ---------------------------------------------------------------- every step

  /** The part of the state that says what waker `who` is doing. */
  predicate SameWaker(s: State, s': State, who: Link) {
    match who
    case None =>
      s.cancel == s'.cancel || (!s.cancel.CancelWaking? && !s'.cancel.CancelWaking?)
    case Some(n) =>
      || (n in s.suspends && n in s'.suspends && s.suspends[n] == s'.suspends[n])
      || (!(n in s.suspends && s.suspends[n].Waking?) && !(n in s'.suspends && s'.suspends[n].Waking?))
  }

  /** Nothing has happened to the nodes at place `p`. */
  ghost predicate SameAt(s: State, s': State, p: Place) {
    forall n ::
      && ((n in s.places && s.places[n] == p) <==> (n in s'.places && s'.places[n] == p))
      && (n in s.places && s.places[n] == p && n in s.next ==> n in s'.next && s'.next[n] == s.next[n])
  }

  lemma ChainFrame(s: State, s': State, start: Link, q: seq<nat>, p: Place)
    requires Chain(s, start, q) && Holds(s, q, p) && SameAt(s, s', p)
    ensures Chain(s', start, q) && Holds(s', q, p)
  {
    forall i | 0 <= i < |q|
      ensures q[i] in s'.next && s'.next[q[i]] == Front(q[i + 1..])
    {
      assert q[i] in q;
    }
  }

  lemma WakerFrame(s: State, s': State, who: Link)
    requires WakerOk(s, who) && SameWaker(s, s', who) && SameAt(s, s', Taken(who))
    ensures WakerOk(s', who)
  {
    match who
    case None =>
      if s.cancel.CancelWaking? {
        WakeFrame(s, s', s.cancel.wake, who);
      }
    case Some(n) =>
      if n in s.suspends && s.suspends[n].Waking? {
        WakeFrame(s, s', s.suspends[n].wake, who);
      }
  }

  lemma WakeFrame(s: State, s': State, w: Wake, who: Link)
    requires WakeOk(s, w, who) && SameAt(s, s', Taken(who))
    ensures WakeOk(s', w, who)
  {
    match w
    case AtNode(h, q) => ChainFrame(s, s', h, q, Taken(who));
    case HasNext(n, next, q) => ChainFrame(s, s', Some(n), q, Taken(who));
  }

  /** A step that touches no node in the list or in a waker's hands. */
  lemma PrivateKeepsInv(s: State, s': State)
    requires Inv(s)
    requires s'.head == s.head && s'.list == s.list && s'.schedules == s.schedules
    requires s'.cancelled <==> !s'.cancel.NotCalled?
    requires forall p: Place {:trigger SameAt(s, s', p)} :: p.Listed? || p.Taken? ==> SameAt(s, s', p)
    requires forall n :: (n in s.places && s.places[n] == Scheduled) <==> (n in s'.places && s'.places[n] == Scheduled)
    requires forall who :: SameWaker(s, s', who)
    requires s'.places.Keys == s'.suspends.Keys && forall n :: n in s'.suspends ==> NodeOk(s', n)
    ensures Inv(s')
  {
    assert SameAt(s, s', Listed);
    ChainFrame(s, s', s.head, s.list, Listed);
    forall who
      ensures WakerOk(s', who)
    {
      assert WakerOk(s, who) && SameAt(s, s', Taken(who));
      WakerFrame(s, s', who);
    }
    forall n
      ensures Times(s'.schedules, n) == if n in s'.places && s'.places[n] == Scheduled then 1 else 0
    {
      assert Times(s.schedules, n) == if n in s.places && s.places[n] == Scheduled then 1 else 0;
    }
  }

  lemma CallKeepsInv(s: State, n: nat, s': State)
    requires Inv(s) && Step(s, CallSuspend(n), s')
    ensures Inv(s')
  {
    forall m | m in s'.suspends
      ensures NodeOk(s', m)
    {
      assert m in s.suspends ==> NodeOk(s, m);
    }
    PrivateKeepsInv(s, s');
  }

  lemma LinkKeepsInv(s: State, n: nat, spurious: bool, s': State)
    requires Inv(s) && SuspendMoves(s, n, spurious, s')
    requires s.suspends[n].Loaded? || s.suspends[n].Added? || (s.suspends[n].Linked? && !s'.suspends[n].Added?)
    ensures Inv(s')
  {
    assert NodeOk(s, n);
    forall m | m in s'.suspends
      ensures NodeOk(s', m)
    {
      assert NodeOk(s, m);
    }
    PrivateKeepsInv(s, s');
  }

  lemma PushKeepsNodes(s: State, n: nat, s': State, m: nat)
    requires Inv(s) && SuspendMoves(s, n, false, s') && s.suspends[n].Linked? && s'.suspends[n].Added?
    requires m in s'.suspends
    ensures NodeOk(s', m)
  {
    assert NodeOk(s, n) && NodeOk(s, m);
  }

  lemma PushKeepsList(s: State, n: nat, s': State)
    requires Inv(s) && SuspendMoves(s, n, false, s') && s.suspends[n].Linked? && s'.suspends[n].Added?
    ensures Chain(s', s'.head, s'.list) && Holds(s', s'.list, Listed)
  {
    assert NodeOk(s, n);
    assert n !in s.list;
    forall i | 0 <= i < |s'.list|
      ensures s'.list[i] in s'.next && s'.next[s'.list[i]] == Front(s'.list[i + 1..])
    {
      if i > 0 {
        assert s'.list[i] == s.list[i - 1] && s'.list[i + 1..] == s.list[i..];
      } else {
        assert s'.list[1..] == s.list;
      }
    }
  }

  lemma PushKeepsWaker(s: State, n: nat, s': State, who: Link)
    requires Inv(s) && SuspendMoves(s, n, false, s') && s.suspends[n].Linked? && s'.suspends[n].Added?
    ensures WakerOk(s', who)
  {
    assert NodeOk(s, n) && WakerOk(s, who);
    WakerFrame(s, s', who);
  }

  lemma {:induction false} PushKeepsInv(s: State, n: nat, s': State)
    requires Inv(s) && SuspendMoves(s, n, false, s') && s.suspends[n].Linked? && s'.suspends[n].Added?
    ensures Inv(s')
  {
    assert NodeOk(s, n);
    forall m | m in s'.suspends
      ensures NodeOk(s', m)
    {
      PushKeepsNodes(s, n, s', m);
    }
    PushKeepsList(s, n, s');
    forall who
      ensures WakerOk(s', who)
    {
      PushKeepsWaker(s, n, s', who);
    }
    forall m
      ensures Times(s'.schedules, m) == if m in s'.places && s'.places[m] == Scheduled then 1 else 0
    {
      assert Times(s.schedules, m) == if m in s.places && s.places[m] == Scheduled then 1 else 0;
    }
  }

  /** An exchange that hands the whole list to `who`, which was not waking before. */
  lemma TakeKeepsInv(s: State, who: Link, s': State)
    requires Inv(s)
    requires s'.places == TakeAll(s, who).places && s'.next == s.next && s'.schedules == s.schedules
    requires s'.head == None && s'.list == [] && s'.cancelled == s.cancelled
    requires s'.cancelled <==> !s'.cancel.NotCalled?
    requires s'.suspends.Keys == s.suspends.Keys
    requires match who
             case None =>
               !s.cancel.CancelWaking? && s'.cancel == CancelWaking(AtNode(s.head, s.list)) && s'.suspends == s.suspends
             case Some(n) =>
               && n in s.suspends && s.suspends[n].MustWake? && s'.cancel == s.cancel
               && s'.suspends == s.suspends[n := Waking(AtNode(s.head, s.list))]
    ensures Inv(s')
  {
    forall m | m in s'.suspends
      ensures NodeOk(s', m)
    {
      assert NodeOk(s, m);
    }
    forall o
      ensures WakerOk(s', o)
    {
      assert WakerOk(s, o) && WakerOk(s, who);
      if o == who {
        assert WakeOk(s', AtNode(s.head, s.list), who);
      } else {
        WakerFrame(s, s', o);
      }
    }
    forall m
      ensures Times(s'.schedules, m) == if m in s'.places && s'.places[m] == Scheduled then 1 else 0
    {
      assert Times(s.schedules, m) == if m in s.places && s.places[m] == Scheduled then 1 else 0;
    }
  }

  /** The traversal of waker `who` goes one step further. */
  ghost predicate WakerMoves(s: State, who: Link, w: Wake, s': State) {
    && WakeReady(s, w)
    && var (t, v) := WakeStep(s, w);
       match who
       case None =>
         && s.cancel == CancelWaking(w)
         && s' == t.(cancel := if v == None then Returned else CancelWaking(v.value))
       case Some(n) =>
         && n in s.suspends && s.suspends[n] == Waking(w)
         && s' == t.(suspends := s.suspends[n := if v == None then Finished else Waking(v.value)])
  }

  lemma WakeKeepsNodes(s: State, who: Link, w: Wake, s': State, m: nat)
    requires Inv(s) && WakeOk(s, w, who) && WakerMoves(s, who, w, s') && m in s'.suspends
    ensures NodeOk(s', m)
  {
    assert NodeOk(s, m);
    if w.HasNext? {
      assert w.chain[0] == w.node && w.node in w.chain;
      assert NodeOk(s, w.node);
    }
  }

  lemma WakeKeepsOthers(s: State, who: Link, w: Wake, s': State, p: Place)
    requires Inv(s) && WakeOk(s, w, who) && WakerMoves(s, who, w, s')
    requires p != Taken(who) && p != Scheduled
    ensures SameAt(s, s', p)
  {
    if w.HasNext? {
      assert w.chain[0] == w.node && w.node in w.chain;
    }
  }

  lemma WakeKeepsCounts(s: State, who: Link, w: Wake, s': State, m: nat)
    requires Inv(s) && WakeOk(s, w, who) && WakerMoves(s, who, w, s')
    ensures Times(s'.schedules, m) == if m in s'.places && s'.places[m] == Scheduled then 1 else 0
  {
    assert Times(s.schedules, m) == if m in s.places && s.places[m] == Scheduled then 1 else 0;
    if w.HasNext? {
      assert w.chain[0] == w.node && w.node in w.chain;
      assert s'.schedules[..|s.schedules|] == s.schedules;
    }
  }

  lemma OwnWake(s: State, who: Link, w: Wake, s': State)
    requires WakeOk(s, w, who) && WakeReady(s, w)
    requires var (t, v) := WakeStep(s, w); s'.next == t.next && s'.places == t.places
    ensures var (t, v) := WakeStep(s, w);
            if v == None then Holds(s', [], Taken(who)) else WakeOk(s', v.value, who)
  {
    var q := w.chain;
    match w
    case AtNode(None, _) =>
    case AtNode(Some(n), _) =>
      assert q[0 + 1..] == q[1..];
    case HasNext(n, next, _) =>
      assert q[0] == n && n in q;
      assert forall j :: 0 < j < |q| ==> q[1..][j - 1] == q[j];
      forall i | 0 <= i < |q[1..]|
        ensures q[1..][i] in s'.next && s'.next[q[1..][i]] == Front(q[1..][i + 1..])
      {
        assert q[1..][i] == q[i + 1] && q[1..][i + 1..] == q[i + 2..];
      }
      forall m
        ensures m in q[1..] <==> m in s'.places && s'.places[m] == Taken(who)
      {
        if m in q[1..] {
          var i :| 0 <= i < |q[1..]| && q[1..][i] == m;
          assert q[i + 1] == m && m in q;
        } else if m in q {
          var i :| 0 <= i < |q| && q[i] == m;
          assert i == 0;
        }
      }
  }

  lemma WakeKeepsWaker(s: State, who: Link, w: Wake, s': State, o: Link)
    requires Inv(s) && WakeOk(s, w, who) && WakerMoves(s, who, w, s')
    ensures WakerOk(s', o)
  {
    assert WakerOk(s, o);
    if o != who {
      WakeKeepsOthers(s, who, w, s', Taken(o));
      WakerFrame(s, s', o);
    } else {
      OwnWake(s, who, w, s');
    }
  }

  lemma WakeKeepsList(s: State, who: Link, w: Wake, s': State)
    requires Inv(s) && WakeOk(s, w, who) && WakerMoves(s, who, w, s')
    ensures Holds(s', s'.list, Listed) && Chain(s', s'.head, s'.list)
    ensures s'.places.Keys == s'.suspends.Keys && s'.cancelled == s.cancelled
    ensures s.cancel.NotCalled? <==> s'.cancel.NotCalled?
  {
    WakeKeepsOthers(s, who, w, s', Listed);
    ChainFrame(s, s', s.head, s.list, Listed);
    if w.HasNext? {
      assert w.chain[0] == w.node && w.node in w.chain;
    }
  }

  lemma WakeKeepsInv(s: State, who: Link, w: Wake, s': State)
    requires Inv(s) && WakeOk(s, w, who) && WakerMoves(s, who, w, s')
    ensures Inv(s')
  {
    forall m | m in s'.suspends
      ensures NodeOk(s', m)
    {
      WakeKeepsNodes(s, who, w, s', m);
    }
    WakeKeepsList(s, who, w, s');
    forall o
      ensures WakerOk(s', o)
    {
      WakeKeepsWaker(s, who, w, s', o);
    }
    forall m
      ensures Times(s'.schedules, m) == if m in s'.places && s'.places[m] == Scheduled then 1 else 0
    {
      WakeKeepsCounts(s, who, w, s', m);
    }
  }

  lemma StepKeepsInv(s: State, a: Action, s': State)
    requires Inv(s) && Step(s, a, s')
    ensures Inv(s')
  {
    match a
    case CallSuspend(n) =>
      CallKeepsInv(s, n, s');
    case SuspendStep(n, spurious) =>
      var pc := s.suspends[n];
      if pc.MustWake? {
        assert NodeOk(s, n);
        TakeKeepsInv(s, Some(n), s');
      } else if pc.Waking? {
        assert WakerOk(s, Some(n));
        WakeKeepsInv(s, Some(n), pc.wake, s');
      } else if pc.Linked? && s'.suspends[n].Added? {
        PushKeepsInv(s, n, s');
      } else {
        LinkKeepsInv(s, n, spurious, s');
      }
    case CancelStep =>
      if s.cancel.NotCalled? {
        FlagKeepsInv(s, s');
      } else if s.cancel.FlagSet? {
        TakeKeepsInv(s, None, s');
      } else {
        assert WakerOk(s, None);
        WakeKeepsInv(s, None, s.cancel.wake, s');
      }
  }

  lemma FlagKeepsInv(s: State, s': State)
    requires Inv(s) && CancelMoves(s, s') && s.cancel.NotCalled?
    ensures Inv(s')
  {
    forall m | m in s'.suspends
      ensures NodeOk(s', m)
    {
      assert NodeOk(s, m);
    }
    PrivateKeepsInv(s, s');
  }

  // ---------------------------------------------------------------- whole runs

  type Run = Runs.Run<State, Action>

  ghost predicate IsRun(r: Run) {
    match r
    case Start(s) => Init(s)
    case Then(p, a, s) => IsRun(p) && Step(Last(p), a, s)
  }

  lemma {:induction false} RunKeepsInv(r: Run)
    requires IsRun(r)
    ensures Inv(Last(r))
  {
    match r
    case Start(s) =>
      assert forall who :: WakerOk(s, who);
    case Then(p, a, s) =>
      RunKeepsInv(p);
      StepKeepsInv(Last(p), a, s);
  }

  /** However cancel and the suspending coroutines interleave, nobody is ever scheduled twice. */
  lemma {:induction false} NobodyScheduledTwice(r: Run, n: nat)
    requires IsRun(r)
    ensures Times(Last(r).schedules, n) <= 1
  {
    RunKeepsInv(r);
    assert Times(Last(r).schedules, n) == if n in Last(r).places && Last(r).places[n] == Scheduled then 1 else 0;
  }

  /** After cancel has taken the list, whoever is in it is about to take it again. */
  lemma ListedArePending(s: State, m: nat)
    requires Inv(s) && CancelTookList(s) && m in s.list
    ensures s.suspends[m].Added? || s.suspends[m].MustWake?
  {
    assert NodeOk(s, m);
  }

  lemma EmptyWithoutMembers(q: seq<nat>)
    ensures q == [] || exists m :: m in q
  {
    if q != [] {
      assert q[0] in q;
    }
  }

  /**
   No wakeup is lost: once cancel has returned and every call of suspend has returned, the
   list is empty and every coroutine that pushed itself has been scheduled exactly once.
   */
  lemma NobodyForgotten(r: Run, n: nat)
    requires IsRun(r) && Last(r).cancel.Returned?
    requires forall m :: m in Last(r).suspends ==> Last(r).suspends[m].Finished?
    requires n in Last(r).suspends
    ensures Last(r).head == None && Times(Last(r).schedules, n) == 1
  {
    RunKeepsInv(r);
    var s := Last(r);
    forall m
      ensures m !in s.list
    {
      if m in s.list {
        ListedArePending(s, m);
      }
    }
    EmptyWithoutMembers(s.list);
    assert NodeOk(s, n);
    forall who
      ensures s.places[n] != Taken(who)
    {
      assert WakerOk(s, who);
    }
    assert Times(s.schedules, n) == if s.places[n] == Scheduled then 1 else 0;
  }

  /** A waker that reads a node's link finds the node still there: it is scheduled only afterwards. */
  lemma LinksAreLive(r: Run, who: Link)
    requires IsRun(r)
    ensures match who
            case None => Last(r).cancel.CancelWaking? ==> WakeReady(Last(r), Last(r).cancel.wake)
            case Some(n) =>
              n in Last(r).suspends && Last(r).suspends[n].Waking? ==> WakeReady(Last(r), Last(r).suspends[n].wake)
  {
    RunKeepsInv(r);
    assert WakerOk(Last(r), who);
  }
}
