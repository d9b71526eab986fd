/**
 The work-stealing deque under every interleaving of one owner and any number of
 thieves. One step is one atomic load, store or compare-and-swap, or one access to a
 ring slot; memory is sequentially consistent. Rings are never freed while the deque
 lives, so a thief may go on reading a ring that the owner has already replaced.

 The main results: every run is a history of a plain double-ended queue (push and pop at
 the back, steal at the front), every value handed to `push` is returned by exactly one
 `pop` or one `steal` or is still in the deque, and pop's fast path is safe.
 */
module WsDequeMachine {
  import opened Wrappers
  import opened Rings

  /** Where the owner is, with its local variables. */
  datatype OwnerPc<T> =
    | Idle
    | PushBottom(item: T, b: nat)              // bottom loaded
    | PushTop(item: T, b: nat, t: nat)         // top loaded
    | PushGrown(item: T, b: nat, ring: nat)    // larger ring filled, not yet published
    | PushReady(item: T, b: nat, ring: nat)    // capacity is known to suffice
    | PushStored(item: T, b: nat)              // slot written, bottom not yet advanced
    | PopBottom(b: nat)                        // bottom loaded and decremented locally
    | PopRing(b: nat, ring: nat)               // array pointer loaded
    | PopPublished(b: nat, ring: nat)          // bottom stored
    | PopTop(b: nat, ring: nat, t: nat)        // top loaded, t <= b
    | PopLast(b: nat, item: T)                 // item read and t == b: race for it
    | PopRestore(b: nat, result: Option<T>)    // outcome decided, bottom not yet restored

  /** Where a thief is. A thief that is in no call has no entry in the state. */
  datatype ThiefPc<T> =
    | StealTop(t: nat)
    | StealBottom(t: nat)                      // bottom loaded and t < bottom
    | StealRing(t: nat, ring: nat)
    | StealItem(t: nat, item: T)

  datatype State<T> = State(
    blank: T,                                  // what a fresh slot holds
    top: nat,
    bottom: nat,
    current: nat,                              // the published ring
    rings: seq<Ring<T>>,                       // every ring ever allocated
    owner: OwnerPc<T>,
    thieves: map<nat, ThiefPc<T>>)

  datatype Action<T> =
    | CallPush(item: T)
    | CallPop
    | OwnerStep
    | CallSteal(thief: nat)
    | ThiefStep(thief: nat)

  /** What a step does that can be seen from outside, or that decides an outcome. */
  datatype Event<T> =
    | PushCalled(item: T)
    | Pushed(item: T)
    | PopTook(item: T)
    | PopFoundEmpty
    | PopReturned(result: Option<T>)
    | Stole(thief: nat, item: T)
    | StealGaveUp(thief: nat)

  ghost predicate Init<T>(s: State<T>) {
    && |s.rings| == 1 && s.rings[0].Valid()
    && s == State(s.blank, 0, 0, 0, s.rings, Idle, map[])
  }

  // ---------------------------------------------------------------- steps

  /** The owner's next step inside push. Each result is the new state and the events. */
  ghost predicate PushStep<T>(s: State<T>, s': State<T>, es: seq<Event<T>>) {
    match s.owner
    case PushBottom(item, b) =>
      es == [] && s' == s.(owner := PushTop(item, b, s.top))
    case PushTop(item, b, t) =>
      && es == [] && t <= b
      && s.current < |s.rings| && |s.rings[s.current].slots| > 0
      && var ring := s.rings[s.current];
         if b - t > ring.Capacity() - 1
         then s' == s.(rings := s.rings + [ring.Grow(b, t, s.blank)], owner := PushGrown(item, b, |s.rings|))
         else s' == s.(owner := PushReady(item, b, s.current))
    case PushGrown(item, b, ring) =>
      es == [] && s' == s.(current := ring, owner := PushReady(item, b, ring))
    case PushReady(item, b, ring) =>
      && es == []
      && ring < |s.rings| && |s.rings[ring].slots| > 0
      && s' == s.(rings := s.rings[ring := s.rings[ring].Put(b, item)], owner := PushStored(item, b))
    case PushStored(item, b) =>
      es == [Pushed(item)] && s' == s.(bottom := b + 1, owner := Idle)
    case _ => false
  }

  /** The owner's next step inside pop. */
  ghost predicate PopStep<T>(s: State<T>, s': State<T>, es: seq<Event<T>>) {
    match s.owner
    case PopBottom(b) =>
      es == [] && s' == s.(owner := PopRing(b, s.current))
    case PopRing(b, ring) =>
      es == [] && s' == s.(bottom := b, owner := PopPublished(b, ring))
    case PopPublished(b, ring) =>
      if s.top <= b
      then es == [] && s' == s.(owner := PopTop(b, ring, s.top))
      else es == [PopFoundEmpty] && s' == s.(owner := PopRestore(b, None))
    case PopTop(b, ring, t) =>
      && ring < |s.rings| && |s.rings[ring].slots| > 0
      && var item := s.rings[ring].Get(b);
         if t == b
         then es == [] && s' == s.(owner := PopLast(b, item))
         else es == [PopTook(item), PopReturned(Some(item))] && s' == s.(owner := Idle)
    case PopLast(b, item) =>
      if s.top == b
      then es == [PopTook(item)] && s' == s.(top := b + 1, owner := PopRestore(b, Some(item)))
      else es == [PopFoundEmpty] && s' == s.(owner := PopRestore(b, None))
    case PopRestore(b, result) =>
      es == [PopReturned(result)] && s' == s.(bottom := b + 1, owner := Idle)
    case _ => false
  }

  /** The next step of a thief that is inside steal. */
  ghost predicate StealStep<T>(s: State<T>, th: nat, s': State<T>, es: seq<Event<T>>) {
    && th in s.thieves
    && match s.thieves[th]
       case StealTop(t) =>
         if t < s.bottom
         then es == [] && s' == s.(thieves := s.thieves[th := StealBottom(t)])
         else es == [StealGaveUp(th)] && s' == s.(thieves := s.thieves - {th})
       case StealBottom(t) =>
         es == [] && s' == s.(thieves := s.thieves[th := StealRing(t, s.current)])
       case StealRing(t, ring) =>
         && es == []
         && ring < |s.rings| && |s.rings[ring].slots| > 0
         && s' == s.(thieves := s.thieves[th := StealItem(t, s.rings[ring].Get(t))])
       case StealItem(t, item) =>
         if s.top == t
         then es == [Stole(th, item)] && s' == s.(top := t + 1, thieves := s.thieves - {th})
         else es == [StealGaveUp(th)] && s' == s.(thieves := s.thieves - {th})
  }

  ghost predicate Step<T>(s: State<T>, a: Action<T>, s': State<T>, es: seq<Event<T>>) {
    match a
    case CallPush(item) =>
      s.owner.Idle? && es == [PushCalled(item)] && s' == s.(owner := PushBottom(item, s.bottom))
    case CallPop =>
      && s.owner.Idle?
      && if s.bottom == 0
         then es == [PopFoundEmpty, PopReturned(None)] && s' == s
         else es == [] && s' == s.(owner := PopBottom(s.bottom - 1))
    case OwnerStep => PushStep(s, s', es) || PopStep(s, s', es)
    case CallSteal(th) =>
      th !in s.thieves && es == [] && s' == s.(thieves := s.thieves[th := StealTop(s.top)])
    case ThiefStep(th) => StealStep(s, th, s', es)
  }

  // ---------------------------------------------------------------- abstraction

  /**
   One past the last logical index whose element is in the deque. Between publishing a
   smaller bottom and deciding its outcome, pop's index still belongs to the deque.
   */
  function Limit<T>(s: State<T>): nat {
    match s.owner
    case PopPublished(b, _) => b + 1
    case PopTop(b, _, _) => b + 1
    case PopLast(b, _) => b + 1
    case PopRestore(b, _) => b + 1
    case _ => s.bottom
  }

  /** The abstract queue: the elements at logical indices from top to the limit, front first. */
  function Contents<T>(s: State<T>): seq<T>
    requires s.current < |s.rings| && |s.rings[s.current].slots| > 0
    requires s.top <= Limit(s)
  {
    s.rings[s.current].Range(s.top, Limit(s))
  }

  // ---------------------------------------------------------------- invariant

  ghost predicate RingsOk<T>(s: State<T>) {
    && s.current < |s.rings|
    && (forall r :: 0 <= r < |s.rings| ==> s.rings[r].Valid())
  }

  ghost predicate OwnerOk<T>(s: State<T>)
    requires RingsOk(s)
  {
    var ring := s.rings[s.current];
    && s.top <= Limit(s) <= s.top + ring.Capacity()
    && match s.owner
       case Idle => true
       case PushBottom(item, b) => b == s.bottom
       case PushTop(item, b, t) => b == s.bottom && t <= s.top && b <= t + ring.Capacity()
       case PushGrown(item, b, r) =>
         && b == s.bottom && r == |s.rings| - 1 && r != s.current
         && b < s.top + s.rings[r].Capacity()
         && (forall i :: s.top <= i < b ==> s.rings[r].Get(i) == ring.Get(i))
       case PushReady(item, b, r) => b == s.bottom && r == s.current && b < s.top + ring.Capacity()
       case PushStored(item, b) => b == s.bottom && ring.Get(b) == item && b < s.top + ring.Capacity()
       case PopBottom(b) => b + 1 == s.bottom
       case PopRing(b, r) => b + 1 == s.bottom && r == s.current
       case PopPublished(b, r) => b == s.bottom && r == s.current
       case PopTop(b, r, t) => b == s.bottom && r == s.current && t <= s.top && t <= b && (t < b ==> s.top <= b)
       case PopLast(b, item) => b == s.bottom && b <= s.top && ring.Get(b) == item
       case PopRestore(b, _) => b == s.bottom && s.top == b + 1
  }

  /** A thief whose index is still the top holds a live element that pop's fast path cannot take. */
  ghost predicate Holds<T>(s: State<T>, t: nat) {
    && t <= s.top
    && (t == s.top ==>
          && t < Limit(s)
          && (s.owner.PopTop? && s.owner.t < s.owner.b ==> t < s.owner.b))
  }

  ghost predicate ThiefOk<T>(s: State<T>, pc: ThiefPc<T>)
    requires RingsOk(s)
  {
    var ring := s.rings[s.current];
    match pc
    case StealTop(t) => t <= s.top
    case StealBottom(t) => Holds(s, t)
    case StealRing(t, r) =>
      Holds(s, t) && r < |s.rings| && (t == s.top ==> s.rings[r].Get(t) == ring.Get(t))
    case StealItem(t, item) =>
      Holds(s, t) && (t == s.top ==> item == ring.Get(t))
  }

  ghost predicate Inv<T>(s: State<T>) {
    && RingsOk(s)
    && OwnerOk(s)
    && (forall th :: th in s.thieves ==> ThiefOk(s, s.thieves[th]))
  }

  // ---------------------------------------------------------------- the queue it implements

  /** One event on a plain double-ended queue; None if the queue does not allow it. */
  function Apply<T(==)>(q: seq<T>, e: Event<T>): Option<seq<T>> {
    match e
    case Pushed(item) => Some(q + [item])
    case PopTook(item) =>
      if |q| > 0 && q[|q| - 1] == item then Some(q[..|q| - 1]) else None
    case PopFoundEmpty => if q == [] then Some(q) else None
    case Stole(_, item) => if |q| > 0 && q[0] == item then Some(q[1..]) else None
    case PushCalled(_) => Some(q)
    case PopReturned(_) => Some(q)
    case StealGaveUp(_) => Some(q)
  }

  /** What the owner's current call has committed itself to: the value it pushes, or the answer it gives. */
  datatype OwnerCall<T> = NoCommitment | Pushing(item: T) | Answering(result: Option<T>)

  /** One event of the owner's calls, one call at a time; None if it is not what the call is committed to. */
  function Commit<T(==)>(c: OwnerCall<T>, e: Event<T>): Option<OwnerCall<T>> {
    match e
    case PushCalled(item) => if c.NoCommitment? then Some(Pushing(item)) else None
    case Pushed(item) => if c == Pushing(item) then Some(NoCommitment) else None
    case PopTook(item) => if c.NoCommitment? then Some(Answering(Some(item))) else None
    case PopFoundEmpty => if c.NoCommitment? then Some(Answering(None)) else None
    case PopReturned(result) => if c == Answering(result) then Some(NoCommitment) else None
    case Stole(_, _) => Some(c)
    case StealGaveUp(_) => Some(c)
  }

  /** The sequential object: a double-ended queue, and its owner's commitment. */
  datatype Object<T> = Object(queue: seq<T>, call: OwnerCall<T>)

  function Do<T(==)>(o: Object<T>, e: Event<T>): Option<Object<T>> {
    if Apply(o.queue, e).Some? && Commit(o.call, e).Some?
    then Some(Object(Apply(o.queue, e).value, Commit(o.call, e).value))
    else None
  }

  function Replay<T(==)>(o: Object<T>, es: seq<Event<T>>): Option<Object<T>> {
    if es == [] then Some(o)
    else
      match Replay(o, es[..|es| - 1])
      case None => None
      case Some(o') => Do(o', es[|es| - 1])
  }

  function CallOf<T>(pc: OwnerPc<T>): OwnerCall<T> {
    match pc
    case PushBottom(item, _) => Pushing(item)
    case PushTop(item, _, _) => Pushing(item)
    case PushGrown(item, _, _) => Pushing(item)
    case PushReady(item, _, _) => Pushing(item)
    case PushStored(item, _) => Pushing(item)
    case PopRestore(_, result) => Answering(result)
    case _ => NoCommitment
  }

  /** What the deque stands for. */
  function ObjectOf<T>(s: State<T>): Object<T>
    requires s.current < |s.rings| && |s.rings[s.current].slots| > 0
    requires s.top <= Limit(s)
  {
    Object(Contents(s), CallOf(s.owner))
  }

  // ---------------------------------------------------------------- every step

  lemma ReplayOne<T>(o: Object<T>, e: Event<T>)
    ensures Replay(o, [e]) == Do(o, e)
  {
    assert [e][..0] == [];
  }

  lemma ReplayTwo<T>(o: Object<T>, e: Event<T>, f: Event<T>)
    requires Do(o, e).Some?
    ensures Replay(o, [e, f]) == Do(Do(o, e).value, f)
  {
    ReplayOne(o, e);
    assert [e, f][..1] == [e];
  }

  lemma PushKeepsOwner<T>(s: State<T>, s': State<T>, es: seq<Event<T>>)
    requires Inv(s) && PushStep(s, s', es)
    ensures RingsOk(s') && OwnerOk(s')
  {
    if s.owner.PushTop? {
      GrowKeeps(s.rings[s.current], s.owner.b, s.owner.t, s.blank);
    }
  }

  lemma PushKeepsThief<T>(s: State<T>, s': State<T>, es: seq<Event<T>>, pc: ThiefPc<T>)
    requires Inv(s) && PushStep(s, s', es) && ThiefOk(s, pc) && RingsOk(s')
    ensures ThiefOk(s', pc)
  {
    if s.owner.PushReady? && !pc.StealTop? && pc.t == s.top {
      PutElsewhere(s.rings[s.current], pc.t, s.owner.b, s.owner.item);
    }
  }

  lemma PushKeepsInv<T>(s: State<T>, s': State<T>, es: seq<Event<T>>)
    requires Inv(s) && PushStep(s, s', es)
    ensures Inv(s')
  {
    PushKeepsOwner(s, s', es);
    forall th | th in s'.thieves
      ensures ThiefOk(s', s'.thieves[th])
    {
      PushKeepsThief(s, s', es, s.thieves[th]);
    }
  }

  lemma PushRefines<T>(s: State<T>, s': State<T>, es: seq<Event<T>>)
    requires Inv(s) && Inv(s') && PushStep(s, s', es)
    ensures Replay(ObjectOf(s), es) == Some(ObjectOf(s'))
  {
    var q := Contents(s);
    if s.owner.PushStored? {
      ReplayOne(ObjectOf(s), Pushed(s.owner.item));
      assert Contents(s') == q + [s.owner.item];
    } else {
      if s.owner.PushReady? {
        forall i | s.top <= i < s.owner.b
          ensures s'.rings[s.current].Get(i) == s.rings[s.current].Get(i)
        {
          PutElsewhere(s.rings[s.current], i, s.owner.b, s.owner.item);
        }
      }
      assert Contents(s') == q;
    }
  }

  lemma PopKeepsThief<T>(s: State<T>, s': State<T>, es: seq<Event<T>>, pc: ThiefPc<T>)
    requires Inv(s) && PopStep(s, s', es) && ThiefOk(s, pc) && RingsOk(s')
    ensures ThiefOk(s', pc)
  {
  }

  lemma PopKeepsOwner<T>(s: State<T>, s': State<T>, es: seq<Event<T>>)
    requires Inv(s) && PopStep(s, s', es)
    ensures RingsOk(s') && OwnerOk(s') && s'.thieves == s.thieves
  {
  }

  lemma {:induction false} PopKeepsInv<T>(s: State<T>, s': State<T>, es: seq<Event<T>>)
    requires Inv(s) && PopStep(s, s', es)
    ensures Inv(s')
  {
    PopKeepsOwner(s, s', es);
    forall th | th in s'.thieves
      ensures ThiefOk(s', s'.thieves[th])
    {
      PopKeepsThief(s, s', es, s.thieves[th]);
    }
  }

  lemma PopRefines<T>(s: State<T>, s': State<T>, es: seq<Event<T>>)
    requires Inv(s) && Inv(s') && PopStep(s, s', es)
    ensures Replay(ObjectOf(s), es) == Some(ObjectOf(s'))
  {
    var q := Contents(s);
    var pc := s.owner;
    if pc.PopTop? && pc.t < pc.b {
      var item := s.rings[pc.ring].Get(pc.b);
      assert q[|q| - 1] == item;
      assert Contents(s') == q[..|q| - 1];
      ReplayTwo(ObjectOf(s), PopTook(item), PopReturned(Some(item)));
    } else if pc.PopLast? && s.top == pc.b {
      assert q == [pc.item];
      assert Contents(s') == q[..|q| - 1];
      ReplayOne(ObjectOf(s), PopTook(pc.item));
    } else {
      assert Contents(s') == q;
      if |es| == 1 {
        ReplayOne(ObjectOf(s), es[0]);
      }
    }
  }

  lemma StealKeepsOther<T>(s: State<T>, th: nat, s': State<T>, es: seq<Event<T>>, pc: ThiefPc<T>)
    requires Inv(s) && StealStep(s, th, s', es) && ThiefOk(s, pc)
    ensures RingsOk(s') && ThiefOk(s', pc)
  {
  }

  lemma StealKeepsOwner<T>(s: State<T>, th: nat, s': State<T>, es: seq<Event<T>>)
    requires Inv(s) && StealStep(s, th, s', es)
    ensures RingsOk(s') && OwnerOk(s')
  {
    assert ThiefOk(s, s.thieves[th]);
    assert s' == s.(top := s'.top, thieves := s'.thieves);
    if s'.top != s.top {
      assert s'.top == s.top + 1 <= Limit(s);
    }
  }

  lemma StealKeepsSelf<T>(s: State<T>, th: nat, s': State<T>, es: seq<Event<T>>)
    requires Inv(s) && StealStep(s, th, s', es) && RingsOk(s') && th in s'.thieves
    ensures ThiefOk(s', s'.thieves[th])
  {
    assert ThiefOk(s, s.thieves[th]);
  }

  lemma {:induction false} StealKeepsInv<T>(s: State<T>, th: nat, s': State<T>, es: seq<Event<T>>)
    requires Inv(s) && StealStep(s, th, s', es)
    ensures Inv(s')
  {
    StealKeepsOwner(s, th, s', es);
    forall o | o in s'.thieves
      ensures ThiefOk(s', s'.thieves[o])
    {
      if o == th {
        StealKeepsSelf(s, th, s', es);
      } else {
        StealKeepsOther(s, th, s', es, s.thieves[o]);
      }
    }
  }

  lemma StealRefines<T>(s: State<T>, th: nat, s': State<T>, es: seq<Event<T>>)
    requires Inv(s) && Inv(s') && StealStep(s, th, s', es)
    ensures Replay(ObjectOf(s), es) == Some(ObjectOf(s'))
  {
    var q := Contents(s);
    if |es| == 1 {
      ReplayOne(ObjectOf(s), es[0]);
    }
    if s.thieves[th].StealItem? && s.top == s.thieves[th].t {
      assert Contents(s') == q[1..];
    } else {
      assert Contents(s') == q;
    }
  }

  lemma CallKeepsInv<T>(s: State<T>, a: Action<T>, s': State<T>, es: seq<Event<T>>)
    requires Inv(s) && Step(s, a, s', es) && (a.CallPush? || a.CallPop? || a.CallSteal?)
    ensures Inv(s')
  {
    forall th | th in s'.thieves
      ensures ThiefOk(s', s'.thieves[th])
    {
      if th in s.thieves {
        assert ThiefOk(s, s.thieves[th]);
      }
    }
  }

  /** Every step keeps the invariant and is, on the queue and the owner's call, what its events name. */
  lemma StepRefinesQueue<T>(s: State<T>, a: Action<T>, s': State<T>, es: seq<Event<T>>)
    requires Inv(s) && Step(s, a, s', es)
    ensures Inv(s') && Replay(ObjectOf(s), es) == Some(ObjectOf(s'))
  {
    if a.ThiefStep? {
      StealKeepsInv(s, a.thief, s', es);
      StealRefines(s, a.thief, s', es);
    } else if a.OwnerStep? {
      if PushStep(s, s', es) {
        PushKeepsInv(s, s', es);
        PushRefines(s, s', es);
      } else {
        PopKeepsInv(s, s', es);
        PopRefines(s, s', es);
      }
    } else {
      CallKeepsInv(s, a, s', es);
      assert Contents(s') == Contents(s);
      if a.CallPush? {
        ReplayOne(ObjectOf(s), PushCalled(a.item));
      } else if a.CallPop? {
        if s.bottom == 0 {
          ReplayTwo(ObjectOf(s), PopFoundEmpty, PopReturned(None));
        }
      }
    }
  }

  // ---------------------------------------------------------------- whole runs

  /** A run: an initial state, extended one step at a time. */
  datatype Run<T> =
    | Start(first: State<T>)
    | Then(before: Run<T>, action: Action<T>, state: State<T>, events: seq<Event<T>>)

  function Last<T>(r: Run<T>): State<T> {
    match r case Start(s) => s case Then(_, _, s, _) => s
  }

  ghost predicate IsRun<T>(r: Run<T>) {
    match r
    case Start(s) => Init(s)
    case Then(p, a, s, es) => IsRun(p) && Step(Last(p), a, s, es)
  }

  /** Everything that happened in a run, in order. */
  function History<T>(r: Run<T>): seq<Event<T>> {
    match r case Start(_) => [] case Then(p, _, _, es) => History(p) + es
  }

  lemma InitInv<T>(s: State<T>)
    requires Init(s)
    ensures Inv(s) && Contents(s) == []
  {
  }

  lemma {:induction false} ReplayAppend<T>(o: Object<T>, es: seq<Event<T>>, fs: seq<Event<T>>)
    requires Replay(o, es).Some?
    ensures Replay(o, es + fs) == Replay(Replay(o, es).value, fs)
    decreases |fs|
  {
    if fs == [] {
      assert es + fs == es;
    } else {
      var front := fs[..|fs| - 1];
      ReplayAppend(o, es, front);
      assert (es + fs)[..|es + fs| - 1] == es + front;
    }
  }

  /**
   Linearizability: the history of every run is a legal history of a plain double-ended
   queue, every push pushes what it was called with, every pop returns what it took or that it
   found nothing, and what that queue then holds is exactly what the deque holds.
   */
  lemma {:induction false} EveryRunIsAQueueHistory<T>(r: Run<T>)
    requires IsRun(r)
    ensures Inv(Last(r))
    ensures Replay(Object([], NoCommitment), History(r)) == Some(ObjectOf(Last(r)))
  {
    match r
    case Start(s) =>
      InitInv(s);
    case Then(p, a, s, es) =>
      EveryRunIsAQueueHistory(p);
      StepRefinesQueue(Last(p), a, s, es);
      ReplayAppend(Object([], NoCommitment), History(p), es);
  }

  // ---------------------------------------------------------------- conservation

  function One<T(==)>(item: T, x: T): nat {
    if item == x then 1 else 0
  }

  /** How many times `x` was handed to push. */
  function Called<T(==)>(es: seq<Event<T>>, x: T): nat {
    if es == [] then 0
    else Called(es[..|es| - 1], x) + CalledBy(es[|es| - 1], x)
  }

  function CalledBy<T(==)>(e: Event<T>, x: T): nat {
    match e case PushCalled(item) => One(item, x) case _ => 0
  }

  /** How many times `x` was returned, by pop or by steal. */
  function Returned<T(==)>(es: seq<Event<T>>, x: T): nat {
    if es == [] then 0
    else Returned(es[..|es| - 1], x) + ReturnedBy(es[|es| - 1], x)
  }

  function ReturnedBy<T(==)>(e: Event<T>, x: T): nat {
    match e
    case PopReturned(Some(item)) => One(item, x)
    case Stole(_, item) => One(item, x)
    case _ => 0
  }

  /** The element the owner has in hand: being pushed, or taken and about to be returned. */
  function InHand<T(==)>(pc: OwnerPc<T>, x: T): nat {
    match pc
    case PushBottom(item, _) => One(item, x)
    case PushTop(item, _, _) => One(item, x)
    case PushGrown(item, _, _) => One(item, x)
    case PushReady(item, _, _) => One(item, x)
    case PushStored(item, _) => One(item, x)
    case PopRestore(_, Some(item)) => One(item, x)
    case _ => 0
  }

  lemma {:induction false} CountsAppend<T>(es: seq<Event<T>>, fs: seq<Event<T>>, x: T)
    ensures Called(es + fs, x) == Called(es, x) + Called(fs, x)
    ensures Returned(es + fs, x) == Returned(es, x) + Returned(fs, x)
    decreases |fs|
  {
    if fs == [] {
      assert es + fs == es;
    } else {
      CountsAppend(es, fs[..|fs| - 1], x);
      assert (es + fs)[..|es + fs| - 1] == es + fs[..|fs| - 1];
    }
  }

  lemma CountsOfTwo<T>(e: Event<T>, f: Event<T>, x: T)
    ensures Called([e, f], x) == CalledBy(e, x) + CalledBy(f, x)
    ensures Returned([e, f], x) == ReturnedBy(e, x) + ReturnedBy(f, x)
  {
    assert [e][..0] == [] && [e, f][..1] == [e];
    assert Called([e], x) == CalledBy(e, x) && Returned([e], x) == ReturnedBy(e, x);
  }

  lemma CountSplit<T>(q: seq<T>, x: T)
    requires |q| > 0
    ensures multiset(q)[x] == multiset(q[..|q| - 1])[x] + One(q[|q| - 1], x)
    ensures multiset(q)[x] == One(q[0], x) + multiset(q[1..])[x]
  {
    assert q == q[..|q| - 1] + [q[|q| - 1]];
    assert q == [q[0]] + q[1..];
  }

  function AddedBy<T(==)>(e: Event<T>, x: T): nat {
    match e case Pushed(item) => One(item, x) case _ => 0
  }

  function TakenBy<T(==)>(e: Event<T>, x: T): nat {
    match e case PopTook(item) => One(item, x) case Stole(_, item) => One(item, x) case _ => 0
  }

  /** What one event does to the number of copies of `x` in the queue. */
  lemma ApplyCounts<T>(q: seq<T>, e: Event<T>, x: T)
    requires Apply(q, e).Some?
    ensures multiset(Apply(q, e).value)[x] + TakenBy(e, x) == multiset(q)[x] + AddedBy(e, x)
  {
    if |q| > 0 {
      CountSplit(q, x);
    }
  }

  /** The same balance between the owner's hand, the calls and the queue for one event... */
  ghost predicate Balanced<T>(pc: OwnerPc<T>, e: Event<T>, pc': OwnerPc<T>, x: T) {
    CalledBy(e, x) + InHand(pc, x) + TakenBy(e, x) == ReturnedBy(e, x) + InHand(pc', x) + AddedBy(e, x)
  }

  lemma OwnerBalance<T>(s: State<T>, s': State<T>, es: seq<Event<T>>, x: T)
    requires PushStep(s, s', es) || PopStep(s, s', es)
    ensures |es| == 0 ==> InHand(s.owner, x) == InHand(s'.owner, x)
    ensures |es| == 1 ==> Balanced(s.owner, es[0], s'.owner, x)
    ensures |es| == 2 ==> InHand(s.owner, x) == InHand(s'.owner, x) == 0
    ensures |es| == 2 ==> es[0].PopTook? && es[1] == PopReturned(Some(es[0].item))
    ensures |es| <= 2
  {
  }

  lemma StepBalance<T>(s: State<T>, a: Action<T>, s': State<T>, es: seq<Event<T>>, x: T)
    requires Step(s, a, s', es)
    ensures EventsBalanced(s.owner, es, s'.owner, x)
  {
    if a.OwnerStep? {
      OwnerBalance(s, s', es, x);
    }
  }

  ghost predicate EventsBalanced<T>(pc: OwnerPc<T>, es: seq<Event<T>>, pc': OwnerPc<T>, x: T) {
    && |es| <= 2
    && (|es| == 0 ==> InHand(pc, x) == InHand(pc', x))
    && (|es| == 1 ==> Balanced(pc, es[0], pc', x))
    && (|es| == 2 ==>
          && InHand(pc, x) == InHand(pc', x) == 0
          && (es == [PopFoundEmpty, PopReturned(None)]
              || (es[0].PopTook? && es[1] == PopReturned(Some(es[0].item)))))
  }

  /** ... and for one step, whatever queue its events are replayed on. */
  lemma EventsConserve<T>(pc: OwnerPc<T>, es: seq<Event<T>>, pc': OwnerPc<T>, o: Object<T>, o': Object<T>, x: T)
    requires EventsBalanced(pc, es, pc', x) && Replay(o, es) == Some(o')
    ensures Called(es, x) + InHand(pc, x) + multiset(o.queue)[x]
         == Returned(es, x) + InHand(pc', x) + multiset(o'.queue)[x]
  {
    if |es| == 1 {
      assert es == [es[0]] && es[..0] == [];
      ReplayOne(o, es[0]);
      ApplyCounts(o.queue, es[0], x);
    } else if |es| == 2 {
      assert es == [es[0], es[1]];
      CountsOfTwo(es[0], es[1], x);
      ReplayOne(o, es[0]);
      assert es[..1] == [es[0]];
      ApplyCounts(o.queue, es[0], x);
    }
  }

  lemma StepConserves<T>(s: State<T>, a: Action<T>, s': State<T>, es: seq<Event<T>>, o: Object<T>, o': Object<T>, x: T)
    requires Step(s, a, s', es) && Replay(o, es) == Some(o')
    ensures Called(es, x) + InHand(s.owner, x) + multiset(o.queue)[x]
         == Returned(es, x) + InHand(s'.owner, x) + multiset(o'.queue)[x]
  {
    StepBalance(s, a, s', es, x);
    EventsConserve(s.owner, es, s'.owner, o, o', x);
  }

  /**
   Conservation: however often `x` was handed to push, it was that often returned by pop or
   by steal, or is in the deque, or is in the owner's hand.
   */
  lemma {:induction false} NothingLostNothingTwice<T>(r: Run<T>, x: T)
    requires IsRun(r)
    ensures Inv(Last(r))
    ensures Called(History(r), x)
         == Returned(History(r), x) + multiset(Contents(Last(r)))[x] + InHand(Last(r).owner, x)
  {
    match r
    case Start(s) =>
      InitInv(s);
    case Then(p, a, s, es) =>
      NothingLostNothingTwice(p, x);
      StepRefinesQueue(Last(p), a, s, es);
      StepConserves(Last(p), a, s, es, ObjectOf(Last(p)), ObjectOf(s), x);
      CountsAppend(History(p), es, x);
  }

  // ---------------------------------------------------------------- pop's two paths, progress

  /**
   When pop has published bottom = b and then read a top below b, no thief in any local
   state can take index b: one that could still win its compare-and-swap holds a smaller
   index, and one that has not yet checked bottom will find it too small.
   */
  lemma {:induction false} FastPathIsPrivate<T>(r: Run<T>, th: nat)
    requires IsRun(r)
    requires var s := Last(r); s.owner.PopTop? && s.owner.t < s.owner.b && th in s.thieves
    ensures var s := Last(r);
            && s.bottom == s.owner.b
            && s.top <= s.owner.b
            && (s.thieves[th].t == s.top && !s.thieves[th].StealTop? ==> s.top < s.owner.b)
  {
    EveryRunIsAQueueHistory(r);
    assert ThiefOk(Last(r), Last(r).thieves[th]);
  }

  /** The last element is up for exactly one taker. If a thief moves top first, pop finds nothing... */
  lemma {:induction false} LastElementHasOneTaker<T>(r: Run<T>, th: nat, s': State<T>, es: seq<Event<T>>)
    requires IsRun(r) && Last(r).owner.PopLast?
    requires StealStep(Last(r), th, s', es) && |es| == 1 && es[0].Stole?
    ensures es[0].item == Last(r).owner.item && s'.owner == Last(r).owner && s'.top == s'.owner.b + 1
    ensures forall s'', fs :: PopStep(s', s'', fs) ==> fs == [PopFoundEmpty]
  {
    EveryRunIsAQueueHistory(r);
    assert ThiefOk(Last(r), Last(r).thieves[th]);
  }

  lemma LastIsTaken<T>(s: State<T>, s': State<T>, es: seq<Event<T>>)
    requires RingsOk(s) && OwnerOk(s) && s.owner.PopLast? && s.top == s.owner.b && PopStep(s, s', es)
    ensures Contents(s) == [s.owner.item] && es == [PopTook(s.owner.item)]
    ensures s'.owner == PopRestore(s.owner.b, Some(s.owner.item)) && s.owner.b < s'.top
    ensures s'.thieves == s.thieves
  {
  }

  /** ... and if pop moves top first, it takes the element, and its index is below top from then on. */
  lemma {:induction false} PopTakesTheLast<T>(r: Run<T>, s': State<T>, es: seq<Event<T>>)
    requires IsRun(r) && Last(r).owner.PopLast? && Last(r).top == Last(r).owner.b && PopStep(Last(r), s', es)
    ensures Inv(Last(r))
    ensures var s := Last(r);
      && Contents(s) == [s.owner.item] && es == [PopTook(s.owner.item)]
      && s'.owner == PopRestore(s.owner.b, Some(s.owner.item)) && s.owner.b < s'.top
      && s'.thieves == s.thieves
  {
    EveryRunIsAQueueHistory(r);
    LastIsTaken(Last(r), s', es);
  }

  /** `p` is `r` or an earlier part of it. */
  ghost predicate IsPrefix<T>(p: Run<T>, r: Run<T>) {
    p == r || (r.Then? && IsPrefix(p, r.before))
  }

  lemma StepRaisesTop<T>(s: State<T>, a: Action<T>, s': State<T>, es: seq<Event<T>>)
    requires Inv(s) && Step(s, a, s', es)
    ensures s.top <= s'.top
  {
  }

  /** top is never lowered. */
  lemma {:induction false} TopIsMonotone<T>(p: Run<T>, r: Run<T>)
    requires IsRun(r) && IsPrefix(p, r)
    ensures Last(p).top <= Last(r).top
  {
    if p == r {
    } else {
      TopIsMonotone(p, r.before);
      EveryRunIsAQueueHistory(r.before);
      StepRaisesTop(Last(r.before), r.action, r.state, r.events);
    }
  }

  /**
   An index that top has passed is never stolen: whoever holds it, then or later, gives up at
   its compare-and-swap.
   */
  lemma {:induction false} PassedIndexIsGivenUp<T>(p: Run<T>, r: Run<T>, th: nat, s': State<T>, es: seq<Event<T>>)
    requires IsRun(r) && IsPrefix(p, r)
    requires th in Last(r).thieves && Last(r).thieves[th].StealItem? && Last(r).thieves[th].t < Last(p).top
    requires StealStep(Last(r), th, s', es)
    ensures es == [StealGaveUp(th)] && s'.top == Last(r).top
  {
    TopIsMonotone(p, r);
  }

  /**
   What a thief that stops at its bottom check has seen: top has moved on since, or the
   deque is empty, or its only element is the one the owner is popping at this moment.
   */
  lemma {:induction false} EmptyHandedThief<T>(r: Run<T>, th: nat)
    requires IsRun(r) && th in Last(r).thieves
    requires Last(r).thieves[th].StealTop? && Last(r).thieves[th].t >= Last(r).bottom
    ensures Inv(Last(r))
    ensures var s := Last(r);
            || s.top > s.thieves[th].t
            || Contents(s) == []
            || (|Contents(s)| == 1 && (s.owner.PopPublished? || s.owner.PopTop? || s.owner.PopLast?))
  {
    EveryRunIsAQueueHistory(r);
    assert ThiefOk(Last(r), Last(r).thieves[th]);
  }

  /**
   The guards of the step relation hold in every reachable state, so no subtraction of
   push wraps around and no thread ever reads or writes through an invalid ring.
   */
  lemma {:induction false} GuardsHold<T>(r: Run<T>)
    requires IsRun(r)
    ensures var s := Last(r);
            && (s.owner.PushTop? ==> s.owner.t <= s.owner.b && s.current < |s.rings|)
            && (s.owner.PushReady? || s.owner.PopTop? ==> s.owner.ring < |s.rings|)
            && (s.owner.Idle? ==> s.top <= s.bottom)
            && (forall th :: th in s.thieves && s.thieves[th].StealRing? ==> s.thieves[th].ring < |s.rings|)
            && (forall i :: 0 <= i < |s.rings| ==> s.rings[i].Valid())
  {
    EveryRunIsAQueueHistory(r);
    var s := Last(r);
    forall th | th in s.thieves
      ensures ThiefOk(s, s.thieves[th])
    {
    }
  }
}
