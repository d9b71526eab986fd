/**
 Cancellation callbacks: a list that grows by registration, shrinks by removal, and is
 swapped out and run by the first cancel.

 The class is the state as one thread uses it. In the step machine below it any number of
 registrations, removals and cancels interleave; the cancelled flag is an atomic that
 cancel sets outside the mutex, so it can change while somebody else is in the mutex.
 */
module Cancellation {
  import opened Wrappers
  import opened Counting
  import opened Runs

  /** The callbacks with their ids, and the next id to hand out. */
  datatype Registry = Registry(ids: seq<nat>, callbacks: seq<nat>, nextId: nat) {
    ghost predicate Valid() {
      && |ids| == |callbacks|
      && (forall i :: 0 <= i < |ids| ==> 1 <= ids[i] < nextId)
      && (forall i, j :: 0 <= i < j < |ids| ==> ids[i] < ids[j])
      && nextId >= 1
    }

    function Add(callback: nat): Registry {
      Registry(ids + [nextId], callbacks + [callback], nextId + 1)
    }

    function Swap(): Registry {
      Registry([], [], nextId)
    }

    function EraseAt(i: nat): Registry
      requires i < |ids| && i < |callbacks|
    {
      Registry(ids[..i] + ids[i + 1..], callbacks[..i] + callbacks[i + 1..], nextId)
    }

    /** The position of `id`, or None. */
    function Find(id: nat): (r: Option<nat>)
      ensures r.Some? ==> r.value < |ids| && ids[r.value] == id
      ensures r == None ==> id !in ids
    {
      FindFrom(id, 0)
    }

    function FindFrom(id: nat, i: nat): (r: Option<nat>)
      requires i <= |ids|
      decreases |ids| - i
      ensures r.Some? ==> i <= r.value < |ids| && ids[r.value] == id
      ensures r == None ==> id !in ids[i..]
    {
      if i == |ids| then None
      else if ids[i] == id then Some(i)
      else FindFrom(id, i + 1)
    }
  }

  class CancellationState {
    var cancelled: bool
    var ids: seq<nat>
    var callbacks: seq<nat>
    var nextId: nat
    ghost var invoked: seq<nat>            // every callback run so far, in order

    ghost function View(): Registry
      reads this
    {
      Registry(ids, callbacks, nextId)
    }

    ghost predicate Valid()
      reads this
    {
      View().Valid() && (cancelled ==> callbacks == [])
    }

    constructor ()
      ensures Valid() && !cancelled && View() == Registry([], [], 1) && invoked == []
    {
      cancelled, ids, callbacks, nextId, invoked := false, [], [], 1, [];
    }

    method Cancel()
      requires Valid()
      modifies this
      ensures Valid() && cancelled
      ensures invoked == old(invoked) + (if old(cancelled) then [] else old(callbacks))
      ensures View() == if old(cancelled) then old(View()) else old(View()).Swap()
    {
      if cancelled {
        return;
      }
      cancelled := true;
      var cbs := callbacks;
      callbacks := [];
      ids := [];
      var i := 0;
      while i < |cbs|
        invariant 0 <= i <= |cbs|
        invariant invoked == old(invoked) + cbs[..i]
        invariant cancelled && callbacks == [] && ids == [] && nextId == old(nextId)
      {
        invoked := invoked + [cbs[i]];
        i := i + 1;
      }
    }

    method RegisterCallback(callback: nat) returns (id: nat)
      requires Valid()
      modifies this
      ensures Valid() && cancelled == old(cancelled)
      ensures old(cancelled) ==> id == 0 && invoked == old(invoked) + [callback] && View() == old(View())
      ensures !old(cancelled) ==>
        id == old(nextId) != 0 && invoked == old(invoked) && View() == old(View()).Add(callback)
    {
      if cancelled {
        invoked := invoked + [callback];
        return 0;
      }
      id := nextId;
      nextId := nextId + 1;
      callbacks := callbacks + [callback];
      ids := ids + [id];
    }

    method UnregisterCallback(id: nat)
      requires Valid()
      modifies `ids, `callbacks
      ensures Valid()
      ensures var found := old(View()).Find(id);
              View() == if found == None || old(cancelled) then old(View()) else old(View()).EraseAt(found.value)
    {
      if id == 0 || cancelled {
        return;
      }
      var i := 0;
      while i < |ids|
        invariant 0 <= i <= |ids|
        invariant ids == old(ids) && callbacks == old(callbacks)
        invariant View().Find(id) == View().FindFrom(id, i)
      {
        if ids[i] == id {
          callbacks := callbacks[..i] + callbacks[i + 1..];
          ids := ids[..i] + ids[i + 1..];
          return;
        }
        i := i + 1;
      }
    }
  }

  // ---------------------------------------------------------------- interleavings

  /** What the first cancel has done; later cancels find the flag set and return. */
  datatype DrainPc = NotYet | Exchanged | Firing(rest: seq<nat>) | Drained

  /** A registration is named by a number, which also names its callback. */
  datatype RegisterPc =
    | RLocked                      // mutex taken
    | RClear                       // mutex held, flag read as not set
    | RFire                        // mutex held, flag read as set
    | RDone(id: nat)

  datatype UnregisterPc =
    | UEntered(id: nat)
    | UPassed(id: nat)             // first flag check passed
    | UErase(id: nat)              // mutex held, second flag check passed
    | UDone(id: nat, sawCancelled: bool)

  datatype Holder = Free | HeldByRegister(k: nat) | HeldByUnregister(u: nat)

  datatype State = State(
    cancelled: bool,
    registry: Registry,
    mutex: Holder,
    drain: DrainPc,
    registers: map<nat, RegisterPc>,
    unregisters: map<nat, UnregisterPc>,
    invoked: seq<nat>,             // history: callbacks run, in order
    erased: map<nat, nat>)         // history: callbacks removed, and the unregister call that did it

  datatype Action =
    | RegisterStep(k: nat)
    | CallUnregister(u: nat, k: nat)
    | UnregisterStep(u: nat)
    | CancelStep

  ghost predicate Init(s: State) {
    s == State(false, Registry([], [], 1), Free, NotYet, map[], map[], [], map[])
  }

  ghost predicate RegisterMoves(s: State, k: nat, s': State) {
    if k !in s.registers then
      s.mutex == Free && s' == s.(mutex := HeldByRegister(k), registers := s.registers[k := RLocked])
    else
      match s.registers[k]
      case RLocked => s' == s.(registers := s.registers[k := if s.cancelled then RFire else RClear])
      case RClear =>
        s' == s.(registry := s.registry.Add(k), mutex := Free, registers := s.registers[k := RDone(s.registry.nextId)])
      case RFire =>
        s' == s.(invoked := s.invoked + [k], mutex := Free, registers := s.registers[k := RDone(0)])
      case RDone(_) => false
  }

  ghost predicate UnregisterMoves(s: State, u: nat, s': State) {
    && u in s.unregisters
    && match s.unregisters[u]
       case UEntered(id) =>
         if id == 0 then s' == s.(unregisters := s.unregisters[u := UDone(id, false)])
         else if s.cancelled then s' == s.(unregisters := s.unregisters[u := UDone(id, true)])
         else s' == s.(unregisters := s.unregisters[u := UPassed(id)])
       case UPassed(id) =>
         && s.mutex == Free
         && if s.cancelled then s' == s.(unregisters := s.unregisters[u := UDone(id, true)])
            else s' == s.(mutex := HeldByUnregister(u), unregisters := s.unregisters[u := UErase(id)])
       case UErase(id) =>
         var done := s.(mutex := Free, unregisters := s.unregisters[u := UDone(id, false)]);
         var found := s.registry.Find(id);
         if found.Some? && found.value < |s.registry.callbacks|
         then s' == done.(registry := s.registry.EraseAt(found.value),
                          erased := s.erased[s.registry.callbacks[found.value] := u])
         else s' == done
       case UDone(_, _) => false
  }

  ghost predicate CancelMoves(s: State, s': State) {
    match s.drain
    case NotYet => s' == s.(cancelled := true, drain := Exchanged)
    case Exchanged =>
      s.mutex == Free && s' == s.(registry := s.registry.Swap(), drain := Firing(s.registry.callbacks))
    case Firing(rest) =>
      if rest == [] then s' == s.(drain := Drained)
      else s' == s.(invoked := s.invoked + [rest[0]], drain := Firing(rest[1..]))
    case Drained => s' == s
  }

  ghost predicate Step(s: State, a: Action, s': State) {
    match a
    case RegisterStep(k) => RegisterMoves(s, k, s')
    case CallUnregister(u, k) =>
      // ids come from registrations that have returned
      && u !in s.unregisters && k in s.registers && s.registers[k].RDone?
      && s' == s.(unregisters := s.unregisters[u := UEntered(s.registers[k].id)])
    case UnregisterStep(u) => UnregisterMoves(s, u, s')
    case CancelStep => CancelMoves(s, s')
  }

  function Rest(s: State): seq<nat> {
    if s.drain.Firing? then s.drain.rest else []
  }

  /** Where callback `k` is, counted: in the list, waiting to be run, run, or erased. */
  function Places(s: State, k: nat): nat {
    Times(s.registry.callbacks, k) + Times(Rest(s), k) + Times(s.invoked, k) + if k in s.erased then 1 else 0
  }

  ghost predicate RegisterOk(s: State, k: nat) {
    && Places(s, k) == (if k in s.registers && s.registers[k].RDone? then 1 else 0)
    && (k in s.registers ==>
          match s.registers[k]
          case RLocked => s.mutex == HeldByRegister(k)
          case RClear => s.mutex == HeldByRegister(k) && !s.drain.Firing? && !s.drain.Drained?
          case RFire => s.mutex == HeldByRegister(k) && s.cancelled
          case RDone(id) =>
            && id < s.registry.nextId
            && (id == 0 ==> Times(s.invoked, k) == 1 && s.cancelled)
            && (id != 0 && (s.drain.NotYet? || s.drain.Exchanged?) ==> Times(s.invoked, k) == 0))
  }

  /** An id in the list belongs to the callback whose registration returned it. */
  ghost predicate IdsOk(s: State) {
    && s.registry.Valid()
    && (forall i :: 0 <= i < |s.registry.ids| ==>
          var k := s.registry.callbacks[i];
          k in s.registers && s.registers[k] == RDone(s.registry.ids[i]))
    && (forall j, k | j in s.registers && k in s.registers && s.registers[j].RDone? && s.registers[k].RDone?
          :: s.registers[j].id == s.registers[k].id != 0 ==> j == k)
  }

  ghost predicate UnregisterOk(s: State, u: nat) {
    && u in s.unregisters
    && s.unregisters[u].id < s.registry.nextId
    && match s.unregisters[u]
       case UEntered(_) => true
       case UPassed(id) => id != 0
       case UErase(id) => id != 0 && s.mutex == HeldByUnregister(u) && !s.drain.Firing? && !s.drain.Drained?
       case UDone(id, saw) =>
         && (saw ==> s.cancelled && id != 0)
         && (!saw && id != 0 ==>
               forall k :: k in s.registers && s.registers[k] == RDone(id) ==> k in s.erased)
  }

  ghost predicate Inv(s: State) {
    && IdsOk(s)
    && (s.cancelled <==> !s.drain.NotYet?)
    && (s.drain.Firing? || s.drain.Drained? ==> s.registry.callbacks == [])
    && (forall k :: RegisterOk(s, k))
    && (forall u :: u in s.unregisters ==> UnregisterOk(s, u))
  }

  lemma PushKeepsRegister(s: State, k: nat, s': State, o: nat)
    requires RegisterOk(s, k) && RegisterOk(s, o) && s.registry.nextId >= 1
    requires k in s.registers && s.registers[k].RClear?
    requires s' == s.(registry := s.registry.Add(k), mutex := Free,
                      registers := s.registers[k := RDone(s.registry.nextId)])
    ensures RegisterOk(s', o)
  {
    TimesAppend(s.registry.callbacks, k, o);
  }

  lemma FireKeepsRegister(s: State, k: nat, s': State, o: nat)
    requires RegisterOk(s, k) && RegisterOk(s, o) && s.registry.nextId >= 1
    requires s.cancelled <==> !s.drain.NotYet?
    requires k in s.registers && s.registers[k].RFire?
    requires s' == s.(invoked := s.invoked + [k], mutex := Free, registers := s.registers[k := RDone(0)])
    ensures RegisterOk(s', o)
  {
    TimesAppend(s.invoked, k, o);
  }

  lemma RegisterKeepsRegister(s: State, k: nat, s': State, o: nat)
    requires RegisterMoves(s, k, s') && RegisterOk(s, k) && RegisterOk(s, o)
    requires s.cancelled <==> !s.drain.NotYet?
    requires s.registry.nextId >= 1
    ensures RegisterOk(s', o)
  {
    if k in s.registers && s.registers[k].RClear? {
      PushKeepsRegister(s, k, s', o);
    } else if k in s.registers && s.registers[k].RFire? {
      FireKeepsRegister(s, k, s', o);
    }
  }

  lemma PushKeepsIds(s: State, k: nat, s': State)
    requires IdsOk(s) && k in s.registers && s.registers[k].RClear?
    requires forall j :: j in s.registers && s.registers[j].RDone? ==> s.registers[j].id < s.registry.nextId
    requires s' == s.(registry := s.registry.Add(k), mutex := Free,
                      registers := s.registers[k := RDone(s.registry.nextId)])
    ensures IdsOk(s')
  {
    assert s'.registry.Valid();
  }

  lemma RegisterKeepsIds(s: State, k: nat, s': State)
    requires Inv(s) && RegisterMoves(s, k, s')
    ensures IdsOk(s')
  {
    if k in s.registers && s.registers[k].RClear? {
      forall j | j in s.registers && s.registers[j].RDone?
        ensures s.registers[j].id < s.registry.nextId
      {
        assert RegisterOk(s, j);
      }
      PushKeepsIds(s, k, s');
    }
  }

  lemma RegisterKeepsUnregister(s: State, k: nat, s': State, u: nat)
    requires Inv(s) && RegisterMoves(s, k, s') && u in s.unregisters
    ensures UnregisterOk(s', u)
  {
    assert RegisterOk(s, k) && UnregisterOk(s, u);
  }

  lemma RegisterKeepsInv(s: State, k: nat, s': State)
    requires Inv(s) && RegisterMoves(s, k, s')
    ensures Inv(s')
  {
    RegisterKeepsIds(s, k, s');
    assert RegisterOk(s, k);
    forall o
      ensures RegisterOk(s', o)
    {
      assert RegisterOk(s, o);
      RegisterKeepsRegister(s, k, s', o);
    }
    forall u | u in s'.unregisters
      ensures UnregisterOk(s', u)
    {
      RegisterKeepsUnregister(s, k, s', u);
    }
  }

  /** A callback in the list is nowhere else. */
  lemma ListedOnlyThere(s: State, i: nat)
    requires Inv(s) && i < |s.registry.callbacks|
    ensures var k := s.registry.callbacks[i];
            k !in s.erased && Times(s.invoked, k) == 0 && Times(Rest(s), k) == 0
  {
    var k := s.registry.callbacks[i];
    assert RegisterOk(s, k);
    TimesErase(s.registry.callbacks, i, k);
  }

  lemma UnregisterKeepsRegister(s: State, u: nat, s': State, o: nat)
    requires UnregisterMoves(s, u, s') && UnregisterOk(s, u) && RegisterOk(s, o)
    requires forall i :: 0 <= i < |s.registry.callbacks| ==> s.registry.callbacks[i] !in s.erased
    ensures RegisterOk(s', o)
  {
    if s.unregisters[u].UErase? {
      var found := s.registry.Find(s.unregisters[u].id);
      if found.Some? && found.value < |s.registry.callbacks| {
        TimesErase(s.registry.callbacks, found.value, o);
      }
    }
  }

  lemma EraseKeepsValid(g: Registry, i: nat)
    requires g.Valid() && i < |g.ids|
    ensures g.EraseAt(i).Valid()
    ensures forall j :: 0 <= j < |g.EraseAt(i).ids| ==>
      var o := if j < i then j else j + 1;
      g.EraseAt(i).ids[j] == g.ids[o] && g.EraseAt(i).callbacks[j] == g.callbacks[o]
  {
  }

  /** When the search is over, the callback with this id is erased, by this search or before it. */
  lemma SearchErases(s: State, u: nat, s': State, k: nat)
    requires Inv(s) && UnregisterMoves(s, u, s') && s.unregisters[u].UErase?
    requires k in s.registers && s.registers[k] == RDone(s.unregisters[u].id)
    ensures k in s'.erased
  {
    var id := s.unregisters[u].id;
    assert UnregisterOk(s, u) && RegisterOk(s, k);
    TimesIn(s.registry.callbacks, k);
    if k !in s.erased {
      assert k in s.registry.callbacks;
      var i :| 0 <= i < |s.registry.callbacks| && s.registry.callbacks[i] == k;
      assert s.registry.ids[i] == id;
    }
  }

  lemma UnregisterKeepsUnregister(s: State, u: nat, s': State, v: nat)
    requires Inv(s) && UnregisterMoves(s, u, s') && v in s'.unregisters
    ensures UnregisterOk(s', v)
  {
    assert UnregisterOk(s, u) && UnregisterOk(s, v);
    if v == u && s.unregisters[u].UErase? {
      forall k | k in s.registers && s.registers[k] == RDone(s.unregisters[u].id)
        ensures k in s'.erased
      {
        SearchErases(s, u, s', k);
      }
    }
  }

  lemma UnregisterKeepsIds(s: State, u: nat, s': State)
    requires Inv(s) && UnregisterMoves(s, u, s')
    ensures IdsOk(s') && s'.registers == s.registers
    ensures s'.registry.callbacks != [] ==> s.registry.callbacks != []
  {
    if s.unregisters[u].UErase? && s.registry.Find(s.unregisters[u].id).Some? {
      EraseKeepsValid(s.registry, s.registry.Find(s.unregisters[u].id).value);
    }
  }

  lemma UnregisterKeepsInv(s: State, u: nat, s': State)
    requires Inv(s) && UnregisterMoves(s, u, s')
    ensures Inv(s')
  {
    UnregisterKeepsIds(s, u, s');
    assert UnregisterOk(s, u);
    forall i | 0 <= i < |s.registry.callbacks|
      ensures s.registry.callbacks[i] !in s.erased
    {
      ListedOnlyThere(s, i);
    }
    forall o
      ensures RegisterOk(s', o)
    {
      assert RegisterOk(s, o);
      UnregisterKeepsRegister(s, u, s', o);
    }
    forall v | v in s'.unregisters
      ensures UnregisterOk(s', v)
    {
      UnregisterKeepsUnregister(s, u, s', v);
    }
  }

  lemma CancelKeepsRegister(s: State, s': State, o: nat)
    requires CancelMoves(s, s') && RegisterOk(s, o)
    requires s.cancelled <==> !s.drain.NotYet?
    requires s.drain.Firing? || s.drain.Drained? ==> s.registry.callbacks == []
    ensures RegisterOk(s', o)
  {
    if s.drain.Firing? && s.drain.rest != [] {
      TimesAppend(s.invoked, s.drain.rest[0], o);
      TimesTail(s.drain.rest, o);
    }
  }

  lemma CancelKeepsInv(s: State, s': State)
    requires Inv(s) && CancelMoves(s, s')
    ensures Inv(s')
  {
    forall o
      ensures RegisterOk(s', o)
    {
      assert RegisterOk(s, o);
      CancelKeepsRegister(s, s', o);
    }
    forall u | u in s'.unregisters
      ensures UnregisterOk(s', u)
    {
      assert UnregisterOk(s, u);
    }
  }

  lemma StepKeepsInv(s: State, a: Action, s': State)
    requires Inv(s) && Step(s, a, s')
    ensures Inv(s')
  {
    if a.RegisterStep? {
      RegisterKeepsInv(s, a.k, s');
    } else if a.UnregisterStep? {
      UnregisterKeepsInv(s, a.u, s');
    } else if a.CancelStep? {
      CancelKeepsInv(s, s');
    } else {
      CallUnregisterKeepsInv(s, a, s');
    }
  }

  lemma CallUnregisterKeepsInv(s: State, a: Action, s': State)
    requires Inv(s) && Step(s, a, s') && a.CallUnregister?
    ensures Inv(s')
  {
    assert RegisterOk(s, a.k);
    forall o
      ensures RegisterOk(s', o)
    {
      assert RegisterOk(s, o);
    }
    forall u | u in s'.unregisters
      ensures UnregisterOk(s', u)
    {
      assert u in s.unregisters ==> UnregisterOk(s, u);
    }
  }

  // ---------------------------------------------------------------- whole runs

  type Run = Runs.Run<State, Action>

  ghost predicate IsRun(r: Run) {
    match r
    case Start(s) => Init(s)
    case Then(p, a, s) => IsRun(p) && Step(Last(p), a, s)
  }

  lemma InitInv(s: State)
    requires Init(s)
    ensures Inv(s)
  {
    forall k
      ensures RegisterOk(s, k)
    {
    }
  }

  lemma {:induction false} RunKeepsInv(r: Run)
    requires IsRun(r)
    ensures Inv(Last(r))
  {
    match r
    case Start(s) =>
      InitInv(s);
    case Then(p, a, s) =>
      RunKeepsInv(p);
      StepKeepsInv(Last(p), a, s);
  }

  /** In every reachable state the ids are strictly increasing and belong to the callback beside them. */
  lemma {:induction false} IdsStayAligned(r: Run)
    requires IsRun(r)
    ensures Last(r).registry.Valid() && IdsOk(Last(r))
  {
    RunKeepsInv(r);
  }

  /** No callback is ever run twice, and an erased one never runs. */
  lemma InvokedAtMostOnce(r: Run, k: nat)
    requires IsRun(r)
    ensures Times(Last(r).invoked, k) <= 1
    ensures k in Last(r).erased ==> Times(Last(r).invoked, k) == 0
  {
    RunKeepsInv(r);
    assert RegisterOk(Last(r), k);
  }

  /**
   Once the first cancel is through and a registration has returned, its callback has been
   run exactly once, unless unregister erased it.
   */
  lemma InvokedExactlyOnce(r: Run, k: nat)
    requires IsRun(r) && Last(r).drain.Drained?
    requires k in Last(r).registers && Last(r).registers[k].RDone?
    ensures Times(Last(r).invoked, k) == if k in Last(r).erased then 0 else 1
  {
    RunKeepsInv(r);
    assert RegisterOk(Last(r), k);
  }

  // ---------------------------------------------------------------- what unregister guarantees

  /** An unregister call for this id returned without having seen the cancelled flag. */
  ghost predicate SomeUnregisterWasInTime(s: State, id: nat) {
    exists u :: u in s.unregisters && s.unregisters[u] == UDone(id, false)
  }

  ghost predicate ErasersReturned(s: State) {
    forall u :: u in s.unregisters ==> s.unregisters[u].UDone?
  }

  /** Each erased callback was erased by a call that had its id and returned without seeing the flag. */
  ghost predicate ErasedOk(s: State) {
    forall k :: k in s.erased ==>
      && k in s.registers && s.registers[k].RDone? && s.registers[k].id != 0
      && s.erased[k] in s.unregisters && s.unregisters[s.erased[k]] == UDone(s.registers[k].id, false)
  }

  lemma EraseKeepsErased(s: State, u: nat, s': State)
    requires IdsOk(s) && UnregisterMoves(s, u, s') && UnregisterOk(s, u) && ErasedOk(s)
    ensures ErasedOk(s')
  {
  }

  lemma {:induction false} StepKeepsErased(s: State, a: Action, s': State)
    requires Inv(s) && Step(s, a, s') && ErasedOk(s)
    ensures ErasedOk(s')
  {
    if a.UnregisterStep? {
      assert UnregisterOk(s, a.u);
      EraseKeepsErased(s, a.u, s');
    } else {
      assert s'.erased == s.erased;
      forall k | k in s.erased
        ensures k in s'.registers && s'.registers[k] == s.registers[k]
      {
      }
    }
  }

  lemma {:induction false} RunKeepsErased(r: Run)
    requires IsRun(r)
    ensures ErasedOk(Last(r))
  {
    match r
    case Start(s) =>
    case Then(p, a, s) =>
      RunKeepsInv(p);
      RunKeepsErased(p);
      StepKeepsErased(Last(p), a, s);
  }

  /**
   unregister is meant to keep a callback from running later, and does so exactly when one
   of the calls for its id did not see the flag set. A call that sees it returns at once,
   although the callback may still be waiting to be run by cancel.
   */
  lemma UnregisterWorksIffInTime(r: Run, k: nat)
    requires IsRun(r) && Last(r).drain.Drained? && ErasersReturned(Last(r))
    requires k in Last(r).registers && Last(r).registers[k].RDone? && Last(r).registers[k].id != 0
    ensures Times(Last(r).invoked, k) == 0 <==> SomeUnregisterWasInTime(Last(r), Last(r).registers[k].id)
  {
    RunKeepsInv(r);
    InvokedExactlyOnce(r, k);
    var s := Last(r);
    if u :| u in s.unregisters && s.unregisters[u] == UDone(s.registers[k].id, false) {
      assert UnregisterOk(s, u);
    }
    RunKeepsErased(r);
  }

  /** A run in which unregister has returned and the callback runs only after that. */
  lemma {:induction false} UnregisterCanBeTooLate() returns (returned: Run, later: Run)
    ensures IsRun(returned) && IsRun(later)
    ensures later.Then? && later.before.Then? && later.before.before == returned
    ensures Last(returned).registers == map[7 := RDone(1)] && Last(returned).unregisters == map[0 := UDone(1, true)]
    ensures Times(Last(returned).invoked, 7) == 0 && Times(Last(later).invoked, 7) == 1
  {
    var s0 := State(false, Registry([], [], 1), Free, NotYet, map[], map[], [], map[]);
    var s1 := s0.(mutex := HeldByRegister(7), registers := map[7 := RLocked]);
    var s2 := s1.(registers := map[7 := RClear]);
    var s3 := s2.(registry := Registry([1], [7], 2), mutex := Free, registers := map[7 := RDone(1)]);
    var s4 := s3.(cancelled := true, drain := Exchanged);
    var s5 := s4.(unregisters := map[0 := UEntered(1)]);
    var s6 := s5.(unregisters := map[0 := UDone(1, true)]);
    var s7 := s6.(registry := Registry([], [], 2), drain := Firing([7]));
    var s8 := s7.(invoked := [7], drain := Firing([]));
    assert [] + [7] == [7] && [] + [1] == [1] && [7][1..] == [] && [7][..0] == [];
    assert Step(s2, RegisterStep(7), s3) && Step(s6, CancelStep, s7) && Step(s7, CancelStep, s8);
    var r3 := Then(Then(Then(Start(s0), RegisterStep(7), s1), RegisterStep(7), s2), RegisterStep(7), s3);
    assert IsRun(r3);
    returned := Then(Then(Then(r3, CancelStep, s4), CallUnregister(0, 7), s5), UnregisterStep(0), s6);
    later := Then(Then(returned, CancelStep, s7), CancelStep, s8);
    assert Times([7], 7) == 1;
  }
}
