/**
 The one-shot continuation handoff: one word holds a ready flag (bit 0) and the address of
 the installed continuation (the other bits; addresses are even and not zero).

 A class gives the operations as the code runs them. The step machine below it lets any
 number of producers and consumers interleave, with compare-and-swaps that may also fail
 spuriously, and shows who ends up resuming whom.
 */
module Handoff {
  import opened Wrappers
  import opened Runs

  /** What the word says: the flag, and the installed address, 0 if there is none. */
  datatype Word = Word(ready: bool, address: nat)

  predicate IsAddress(address: nat) {
    address % 2 == 0 && address != 0
  }

  function Encode(w: Word): nat {
    w.address + if w.ready then 1 else 0
  }

  /** The two masks: bit 0, and everything but bit 0. */
  function Decode(word: nat): Word {
    Word(word % 2 == 1, word - word % 2)
  }

  /** The encoding loses nothing, in either direction. */
  lemma EncodingIsFaithful(w: Word, word: nat)
    requires w.address % 2 == 0
    ensures Decode(Encode(w)) == w
    ensures Encode(Decode(word)) == word && Decode(word).address % 2 == 0
  {
  }

  class ContinuationHandoff {
    var state: nat

    constructor ()
      ensures Decode(state) == Word(false, 0)
    {
      state := 0;
    }

    /** `failures` bounds how often the weak compare-and-swap fails for no reason. */
    method SetReady(failures: nat) returns (resume: bool)
      modifies this
      ensures Decode(state) == Decode(old(state)).(ready := true)
      ensures resume <==> !Decode(old(state)).ready && Decode(old(state)).address != 0
    {
      var oldVal := state;
      var left := failures;
      while true
        invariant state == old(state) == oldVal
        decreases left
      {
        if oldVal % 2 == 1 {
          return false;
        }
        if left == 0 {
          state := oldVal + 1;
          return oldVal - oldVal % 2 != 0;
        }
        oldVal := state;
        left := left - 1;
      }
    }

    /** None stands for the no-op coroutine. */
    method SetContinuation(h: nat, failures: nat) returns (resume: Option<nat>)
      requires IsAddress(h)
      modifies this
      ensures var w := Decode(old(state));
              && Decode(state) == (if w.address != 0 then w else w.(address := h))
              && resume == (if w == Word(true, 0) then Some(h) else None)
    {
      var oldVal := state;
      var left := failures;
      while true
        invariant state == old(state) == oldVal
        decreases left
      {
        if oldVal - oldVal % 2 != 0 {
          return None;
        }
        if left == 0 {
          state := oldVal % 2 + h;
          return if oldVal % 2 == 1 then Some(h) else None;
        }
        oldVal := state;
        left := left - 1;
      }
    }

    method GetContinuation() returns (h: Option<nat>)
      ensures h == if Decode(state).address != 0 then Some(Decode(state).address) else None
    {
      var addr := state - state % 2;
      h := if addr != 0 then Some(addr) else None;
    }
  }

  // ---------------------------------------------------------------- the protocol

  datatype ProducerPc =
    | PLoaded(seen: Word)
    | PFinished(resumes: bool)             // what set_ready returned
    | PResumed(target: Option<nat>)        // after get_continuation

  datatype ConsumerPc =
    | CLoaded(seen: Word)
    | CResumesItself                       // set_continuation gave the handle back
    | CParked                              // installed; the producer will resume it
    | CRefused                             // someone else's continuation was there

  /** Consumers are named by the address of their coroutine. */
  datatype State = State(
    word: Word,
    producers: map<nat, ProducerPc>,
    consumers: map<nat, ConsumerPc>,
    readyBy: Option<nat>,                  // history: which producer set the flag
    foundThen: nat)                        // history: the address it found, 0 if none

  datatype Action =
    | ProducerLoad(id: nat)
    | ProducerCas(id: nat, spurious: bool)
    | ProducerFetch(id: nat)
    | ConsumerLoad(address: nat)
    | ConsumerCas(address: nat, spurious: bool)

  ghost predicate Init(s: State) {
    s == State(Word(false, 0), map[], map[], None, 0)
  }

  ghost predicate Step(s: State, a: Action, s': State) {
    match a
    case ProducerLoad(id) =>
      id !in s.producers && s' == s.(producers := s.producers[id := PLoaded(s.word)])
    case ProducerCas(id, spurious) =>
      && id in s.producers && s.producers[id].PLoaded?
      && var seen := s.producers[id].seen;
         if seen.ready
         then s' == s.(producers := s.producers[id := PFinished(false)])
         else if s.word == seen && !spurious
         then s' == s.(word := seen.(ready := true), readyBy := Some(id), foundThen := seen.address,
                       producers := s.producers[id := PFinished(seen.address != 0)])
         else s' == s.(producers := s.producers[id := PLoaded(s.word)])
    case ProducerFetch(id) =>
      && id in s.producers && s.producers[id] == PFinished(true)
      && s' == s.(producers := s.producers[id :=
           PResumed(if s.word.address != 0 then Some(s.word.address) else None)])
    case ConsumerLoad(address) =>
      && IsAddress(address) && address !in s.consumers
      && s' == s.(consumers := s.consumers[address := CLoaded(s.word)])
    case ConsumerCas(address, spurious) =>
      && address in s.consumers && s.consumers[address].CLoaded?
      && var seen := s.consumers[address].seen;
         if seen.address != 0
         then s' == s.(consumers := s.consumers[address := CRefused])
         else if s.word == seen && !spurious
         then s' == s.(word := seen.(address := address),
                       consumers := s.consumers[address := if seen.ready then CResumesItself else CParked])
         else s' == s.(consumers := s.consumers[address := CLoaded(s.word)])
  }

  ghost predicate ProducerOk(s: State, id: nat, pc: ProducerPc) {
    match pc
    case PLoaded(seen) => Evolved(seen, s.word) && s.readyBy != Some(id)
    case PFinished(b) => s.word.ready && (b <==> s.readyBy == Some(id) && s.foundThen != 0)
    case PResumed(t) => s.word.ready && s.readyBy == Some(id) && s.foundThen != 0 && t == Some(s.foundThen)
  }

  ghost predicate ConsumerOk(s: State, address: nat, pc: ConsumerPc) {
    && IsAddress(address)
    && match pc
       case CLoaded(seen) => Evolved(seen, s.word) && s.word.address != address
       case CResumesItself => s.word.address == address && s.word.ready && s.foundThen == 0
       case CParked => s.word.address == address && (s.word.ready ==> s.foundThen == address)
       case CRefused => s.word.address != 0 && s.word.address != address
  }

  ghost predicate Inv(s: State) {
    && (s.word.ready <==> s.readyBy.Some?)
    && (s.readyBy.Some? ==> s.readyBy.value in s.producers)
    && (s.foundThen == 0 || s.foundThen == s.word.address)
    && (s.word.address != 0 ==> s.word.address in s.consumers)
    && (forall id :: id in s.producers ==> ProducerOk(s, id, s.producers[id]))
    && (forall a :: a in s.consumers ==> ConsumerOk(s, a, s.consumers[a]))
  }

  lemma StepKeepsProducer(s: State, a: Action, s': State, id: nat)
    requires Inv(s) && Step(s, a, s') && id in s'.producers
    ensures ProducerOk(s', id, s'.producers[id])
  {
    assert id in s.producers ==> ProducerOk(s, id, s.producers[id]);
  }

  lemma StepKeepsConsumer(s: State, a: Action, s': State, c: nat)
    requires Inv(s) && Step(s, a, s') && c in s'.consumers
    ensures ConsumerOk(s', c, s'.consumers[c])
  {
    assert c in s.consumers ==> ConsumerOk(s, c, s.consumers[c]);
  }

  lemma StepKeepsInv(s: State, a: Action, s': State)
    requires Inv(s) && Step(s, a, s')
    ensures Inv(s') && Evolved(s.word, s'.word)
  {
    forall id | id in s'.producers
      ensures ProducerOk(s', id, s'.producers[id])
    {
      StepKeepsProducer(s, a, s', id);
    }
    forall c | c in s'.consumers
      ensures ConsumerOk(s', c, s'.consumers[c])
    {
      StepKeepsConsumer(s, a, s', c);
    }
    if a.ConsumerCas? {
      assert ConsumerOk(s, a.address, s.consumers[a.address]);
    } else if a.ProducerCas? {
      assert ProducerOk(s, a.id, s.producers[a.id]);
    }
  }

  /** How the word may change: a flag stays set and an installed continuation stays installed. */
  ghost predicate Evolved(word: Word, word': Word) {
    && (word.ready ==> word'.ready)
    && (word.address != 0 ==> word'.address == word.address)
  }

  type Run = Runs.Run<State, Action>

  ghost predicate IsRun(r: Run) {
    match r
    case Start(s) => Init(s)
    case Then(p, a, s) => IsRun(p) && Step(Last(p), a, s)
  }

  lemma {:induction false} RunKeepsInv(r: Run)
    requires IsRun(r)
    ensures Inv(Last(r))
  {
    match r
    case Start(s) =>
    case Then(p, a, s) =>
      RunKeepsInv(p);
      StepKeepsInv(Last(p), a, s);
  }

  /** The installed continuation never changes again, and ready is never taken back. */
  lemma {:induction false} InstalledForGood(p: Run, r: Run)
    requires IsRun(r) && IsPrefix(p, r)
    ensures IsRun(p) && Evolved(Last(p).word, Last(r).word)
  {
    if p == r {
    } else {
      InstalledForGood(p, r.before);
      RunKeepsInv(r.before);
      StepKeepsInv(Last(r.before), r.action, r.state);
    }
  }

  ghost predicate ProducerDone(pc: ProducerPc) {
    pc == PFinished(false) || pc.PResumed?
  }

  ghost predicate AllDone(s: State) {
    && s.producers != map[] && s.consumers != map[]
    && (forall id :: id in s.producers ==> ProducerDone(s.producers[id]))
    && (forall a :: a in s.consumers ==> !s.consumers[a].CLoaded?)
  }

  /** Producer `id` hands control to the coroutine at `a`. */
  ghost predicate ResumedByProducer(s: State, id: nat, a: nat) {
    id in s.producers && s.producers[id] == PResumed(Some(a))
  }

  ghost predicate ResumesItself(s: State, a: nat) {
    a in s.consumers && s.consumers[a].CResumesItself?
  }

  /**
   Exactly one of the two ways. Once every call has returned, one continuation is
   installed, and either one producer resumes it or its consumer does, never both.
   */
  lemma ExactlyOneResumes(r: Run)
    requires IsRun(r) && AllDone(Last(r))
    ensures var s := Last(r);
            var a := s.word.address;
            && a in s.consumers
            && ((exists id :: ResumedByProducer(s, id, a)) <==> !ResumesItself(s, a))
            && (forall id, id' :: ResumedByProducer(s, id, a) && ResumedByProducer(s, id', a) ==> id == id')
  {
    RunKeepsInv(r);
    var s := Last(r);
    var someone :| someone in s.producers;
    assert ProducerOk(s, someone, s.producers[someone]);
    var c :| c in s.consumers;
    assert ConsumerOk(s, c, s.consumers[c]);
    var a := s.word.address;
    assert ConsumerOk(s, a, s.consumers[a]);
    var id := s.readyBy.value;
    assert ProducerOk(s, id, s.producers[id]);
    if !ResumesItself(s, a) {
      assert ResumedByProducer(s, id, a);
    }
  }

  /**
   What that means for each consumer: it is resumed if and only if its continuation is the
   installed one. A second coroutine that awaits the same handoff is refused and stays
   suspended.
   */
  lemma ResumedIffInstalled(r: Run, a: nat)
    requires IsRun(r) && AllDone(Last(r)) && a in Last(r).consumers
    ensures var s := Last(r);
            && (ResumesItself(s, a) || (exists id :: ResumedByProducer(s, id, a)) <==> s.word.address == a)
            && (s.consumers[a].CRefused? <==> s.word.address != a)
  {
    ExactlyOneResumes(r);
    RunKeepsInv(r);
    var s := Last(r);
    assert ConsumerOk(s, a, s.consumers[a]);
    if id :| ResumedByProducer(s, id, a) {
      assert ProducerOk(s, id, s.producers[id]);
    }
  }

  ghost predicate IsResumed(s: State, a: nat) {
    ResumesItself(s, a) || exists id :: ResumedByProducer(s, id, a)
  }

  /** What that means for callers: all coroutines that await a handoff are resumed exactly if there is only one. */
  lemma {:induction false} AllResumedIffOne(r: Run)
    requires IsRun(r) && AllDone(Last(r))
    ensures (forall a :: a in Last(r).consumers ==> IsResumed(Last(r), a)) <==> |Last(r).consumers.Keys| == 1
  {
    ExactlyOneResumes(r);
    var s := Last(r);
    var installed := s.word.address;
    assert installed in s.consumers.Keys;
    forall a | a in s.consumers
      ensures IsResumed(s, a) <==> a == installed
    {
      ResumedIffInstalled(r, a);
    }
    if |s.consumers.Keys| == 1 {
      forall a | a in s.consumers.Keys
        ensures a == installed
      {
        OnlyMember(s.consumers.Keys, a, installed);
      }
    }
    if forall a :: a in s.consumers ==> IsResumed(s, a) {
      assert s.consumers.Keys == {installed};
    }
  }

  lemma OnlyMember(s: set<nat>, a: nat, b: nat)
    requires |s| == 1 && a in s && b in s
    ensures a == b
  {
    var rest := s - {a};
    assert |rest| == 0;
    assert b == a || b in rest;
  }

  /** A run of one producer and two consumers: the first is resumed, the second refused although all calls are over. */
  lemma SecondConsumerRefused() returns (r: Run)
    ensures IsRun(r) && AllDone(Last(r))
    ensures ResumedByProducer(Last(r), 0, 2) && Last(r).consumers == map[2 := CParked, 4 := CRefused]
    ensures !ResumesItself(Last(r), 4) && forall id :: !ResumedByProducer(Last(r), id, 4)
  {
    var empty, two := Word(false, 0), Word(false, 2);
    var s0 := State(empty, map[], map[], None, 0);
    r := Start(s0);
    assert IsRun(r);
    var s1 := s0.(consumers := map[2 := CLoaded(empty)]);
    r := Then(r, ConsumerLoad(2), s1);
    assert IsRun(r);
    var s2 := s1.(word := two, consumers := map[2 := CParked]);
    r := Then(r, ConsumerCas(2, false), s2);
    assert IsRun(r);
    var s3 := s2.(consumers := s2.consumers[4 := CLoaded(two)]);
    r := Then(r, ConsumerLoad(4), s3);
    assert IsRun(r);
    var s4 := s3.(consumers := s3.consumers[4 := CRefused]);
    r := Then(r, ConsumerCas(4, false), s4);
    assert IsRun(r);
    var s5 := s4.(producers := map[0 := PLoaded(two)]);
    r := Then(r, ProducerLoad(0), s5);
    assert IsRun(r);
    var s6 := s5.(word := Word(true, 2), readyBy := Some(0), foundThen := 2, producers := map[0 := PFinished(true)]);
    r := Then(r, ProducerCas(0, false), s6);
    assert IsRun(r);
    r := Then(r, ProducerFetch(0), s6.(producers := map[0 := PResumed(Some(2))]));
  }
}
