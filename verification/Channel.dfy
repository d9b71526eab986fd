/**
 The blocking channel: a queue under one mutex with two condition variables, one for
 receivers and one for senders of a bounded channel. `close` sets its flag outside the mutex
 and takes it only to notify, so the flag can change in the middle of a section.
 */
module Channel {
  import opened Wrappers
  import opened Monitor
  import opened Runs

  /** How a call behaves when it cannot go on: send/receive, send_for/receive_for, try_send/try_receive. */
  datatype Patience = Blocking | Timed | Try

  datatype Call = Send(value: int, patience: Patience) | Receive(patience: Patience)

  datatype Outcome = Sent | Got(value: int) | Closed | TimedOut | NotNow

  /** What a caller at the mutex finds: it may go on, must wait, or leaves with an outcome. */
  datatype Decision = GoOn | Wait | Leave(outcome: Outcome)

  predicate CanSend(cap: Option<nat>, size: nat) {
    cap.Some? ==> size < cap.value
  }

  /** `expired`: the caller has waited and its time is up. */
  function Decide(cap: Option<nat>, size: nat, closed: bool, call: Call, expired: bool): Decision {
    match call
    case Send(_, patience) =>
      if closed then Leave(Closed)
      else if CanSend(cap, size) then GoOn
      else if patience == Try then Leave(NotNow)
      else if expired then Leave(TimedOut)
      else Wait
    case Receive(patience) =>
      if size > 0 then GoOn
      else if patience == Try then Leave(NotNow)
      else if closed then Leave(Closed)
      else if expired then Leave(TimedOut)
      else Wait
  }

  /** The channel's data, and the sections of its operations between two waits. */
  class SyncChannel {
    const cap: Option<nat>
    var buffer: seq<int>
    var closed: bool
    ghost var sent: seq<int>
    ghost var got: seq<int>
    ghost var receivers: Pool         // the threads at the two condition variables
    ghost var senders: Pool

    ghost predicate Valid()
      reads this
    {
      && receivers.Valid() && senders.Valid()
      && sent == got + buffer
      && (cap.Some? ==> |buffer| <= cap.value)
    }

    constructor (cap: Option<nat>)
      ensures Valid() && this.cap == cap && sent == got == buffer == [] && !closed
      ensures receivers == senders == Pool({}, {})
    {
      this.cap, buffer, closed, sent, got := cap, [], false, [], [];
      receivers, senders := Pool({}, {}), Pool({}, {});
    }

    method TrySend(value: int) returns (ok: bool)
      requires Valid()
      modifies this
      ensures Valid() && closed == old(closed) && got == old(got)
      ensures ok <==> !closed && (cap.Some? ==> old(|buffer|) < cap.value)
      ensures sent == old(sent) + if ok then [value] else []
      ensures buffer == old(buffer) + if ok then [value] else []
      ensures senders == old(senders)
      ensures if ok then NotifyOne(old(receivers), receivers) else receivers == old(receivers)
      ensures Decide(cap, old(|buffer|), closed, Send(value, Try), false)
              == if ok then GoOn else if closed then Leave(Closed) else Leave(NotNow)
    {
      if closed {
        return false;
      }
      if cap.Some? {
        if !(|buffer| < cap.value) {
          return false;
        }
      }
      buffer, sent := buffer + [value], sent + [value];
      receivers := Notify(receivers);
      return true;
    }

    /** send and send_for once the wait is over: throws, or returns false, if the channel is closed. */
    method FinishSend(value: int) returns (ok: bool)
      requires Valid() && !Decide(cap, |buffer|, closed, Send(value, Blocking), false).Wait?
      modifies this
      ensures Valid() && closed == old(closed) && got == old(got)
      ensures ok <==> !closed
      ensures sent == old(sent) + if ok then [value] else []
      ensures buffer == old(buffer) + if ok then [value] else []
      ensures senders == old(senders)
      ensures if ok then NotifyOne(old(receivers), receivers) else receivers == old(receivers)
    {
      if closed {
        return false;
      }
      buffer, sent := buffer + [value], sent + [value];
      receivers := Notify(receivers);
      return true;
    }

    /** Also the section that ends receive and receive_for: nothing is left only if the channel is closed. */
    method TryReceive() returns (value: Option<int>)
      requires Valid()
      modifies this
      ensures Valid() && closed == old(closed) && sent == old(sent)
      ensures value.None? <==> old(got) == sent
      ensures value.Some? <==> old(Decide(cap, |buffer|, closed, Receive(Blocking), false)) == GoOn
      ensures value.None? ==> buffer == old(buffer) && got == old(got)
      ensures receivers == old(receivers)
      ensures if value.Some? && cap.Some? then NotifyOne(old(senders), senders) else senders == old(senders)
      ensures value.Some? ==> got == old(got) + [value.value] && value.value == sent[old(|got|)]
    {
      if buffer == [] {
        return None;
      }
      value := Some(buffer[0]);
      assert sent == (got + [buffer[0]]) + buffer[1..];
      got, buffer := got + [buffer[0]], buffer[1..];
      if cap.Some? {
        senders := Notify(senders);
      }
    }

    method Size() returns (n: nat)
      requires Valid()
      ensures n == |sent| - |got|
    {
      n := |buffer|;
    }

    /** The first half of close: the flag, stored outside the mutex. */
    method SetClosed()
      requires Valid()
      modifies `closed
      ensures Valid() && closed
    {
      closed := true;
    }

    /** The second half, under the mutex: everybody at either condition variable is woken. */
    method OnClose()
      requires Valid()
      modifies `receivers, `senders
      ensures Valid() && receivers == old(receivers).WakeAll() && senders == old(senders).WakeAll()
    {
      receivers := receivers.WakeAll();
      senders := senders.WakeAll();
    }

    /** What is buffered stays, and nobody is left asleep. */
    method Close()
      requires Valid()
      modifies `closed, `receivers, `senders
      ensures Valid() && closed
      ensures receivers.asleep == senders.asleep == {}
      ensures receivers.awake == old(receivers).Members() && senders.awake == old(senders).Members()
    {
      SetClosed();
      OnClose();
    }
  }

  // ---------------------------------------------------------------- interleavings

  /**
   Who holds the mutex between two steps: a caller that has decided to wait and is not asleep
   yet, or a sender that has seen the channel open and has not yet appended its value.
   */
  datatype Holder = Free | WillReceiveLater(call: nat) | WillSendLater(call: nat) | Pushing(call: nat)

  datatype Entry = Entry(call: nat, value: int)

  datatype State = State(
    cap: Option<nat>,
    buffer: seq<int>,
    closed: bool,
    mutex: Holder,
    receivers: Pool,
    senders: Pool,
    expired: set<nat>,
    closing: set<nat>,               // closers that have set the flag and not yet notified
    calls: map<nat, Call>,           // every call that was made
    outcomes: map<nat, Outcome>,     // the calls that are over
    sent: seq<Entry>, got: seq<Entry>)   // history

  datatype Action =
    | Begin(t: nat, call: Call)
    | Enter(t: nat)                  // takes the mutex, the first time or after a wait
    | FallAsleep
    | Push
    | WakeUp(t: nat, timeout: bool)
    | SetFlag(closer: nat)
    | NotifyClosed(closer: nat)

  ghost predicate Init(s: State) {
    s == State(s.cap, [], false, Free, Pool({}, {}), Pool({}, {}), {}, {}, map[], map[], [], [])
  }

  function Slots(s: State): int {
    if s.cap.Some? then s.cap.value - |s.buffer| else 0
  }

  ghost predicate Ended(s: State, t: nat, outcome: Outcome, s': State) {
    s' == s.(outcomes := s.outcomes[t := outcome], receivers := s.receivers.Leave(t), senders := s.senders.Leave(t),
             expired := s.expired - {t})
  }

  ghost predicate EnterStep(s: State, t: nat, s': State) {
    && s.mutex == Free && t in s.calls && t !in s.outcomes
    && t !in s.receivers.asleep && t !in s.senders.asleep
    && match Decide(s.cap, |s.buffer|, s.closed, s.calls[t], t in s.expired)
       case Leave(outcome) => Ended(s, t, outcome, s')
       case Wait =>
         if s.calls[t].Send?
         then s' == s.(mutex := WillSendLater(t), senders := s.senders.Leave(t))
         else s' == s.(mutex := WillReceiveLater(t), receivers := s.receivers.Leave(t))
       case GoOn =>
         if s.calls[t].Send?
         then s' == s.(mutex := Pushing(t), senders := s.senders.Leave(t), expired := s.expired - {t})
         else TakeStep(s, t, s')
  }

  /** The front value is handed out and, on a bounded channel, one sender is notified. */
  ghost predicate TakeStep(s: State, t: nat, s': State) {
    && |s.buffer| > 0
    && s' == s.(buffer := s.buffer[1..], got := s.got + [Entry(t, s.buffer[0])],
                outcomes := s.outcomes[t := Got(s.buffer[0])], receivers := s.receivers.Leave(t),
                expired := s.expired - {t}, senders := s'.senders)
    && if s.cap.Some? then NotifyOne(s.senders, s'.senders) else s'.senders == s.senders
  }

  /** The value is appended and one receiver is notified. */
  ghost predicate PushStep(s: State, s': State) {
    && s.mutex.Pushing? && s.mutex.call in s.calls && s.calls[s.mutex.call].Send?
    && var t := s.mutex.call;
       && s' == s.(mutex := Free, buffer := s.buffer + [s.calls[t].value],
                   sent := s.sent + [Entry(t, s.calls[t].value)], outcomes := s.outcomes[t := Sent],
                   receivers := s'.receivers)
       && NotifyOne(s.receivers, s'.receivers)
  }

  ghost predicate Step(s: State, a: Action, s': State) {
    match a
    case Begin(t, call) => t !in s.calls && s' == s.(calls := s.calls[t := call])
    case Enter(t) => EnterStep(s, t, s')
    case Push => PushStep(s, s')
    case FallAsleep =>
      if s.mutex.WillSendLater? then s' == s.(mutex := Free, senders := s.senders.Sleep(s.mutex.call))
      else s.mutex.WillReceiveLater? && s' == s.(mutex := Free, receivers := s.receivers.Sleep(s.mutex.call))
    case WakeUp(t, timeout) =>
      && t in s.calls && (timeout ==> s.calls[t].patience == Timed)
      && (t in s.senders.asleep || t in s.receivers.asleep)
      && s' == s.(senders := if t in s.senders.asleep then s.senders.Wake(t) else s.senders,
                  receivers := if t in s.receivers.asleep then s.receivers.Wake(t) else s.receivers,
                  expired := if timeout then s.expired + {t} else s.expired)
    case SetFlag(closer) => s' == s.(closed := true, closing := s.closing + {closer})
    case NotifyClosed(closer) =>
      && s.mutex == Free && closer in s.closing
      && s' == s.(closing := s.closing - {closer}, receivers := s.receivers.WakeAll(), senders := s.senders.WakeAll())
  }

  // ---------------------------------------------------------------- the invariant

  /** The call is at a condition variable, or holds the mutex and has decided to wait. */
  ghost predicate MayWait(s: State, t: nat) {
    || t in s.receivers.Members() + s.senders.Members()
    || (s.mutex != Free && !s.mutex.Pushing? && t == s.mutex.call)
  }

  /**
   Waiting calls are unfinished calls of the right kind; the mutex holder is an unfinished
   call outside both pools.
   */
  ghost predicate CallsMatch(s: State) {
    && s.receivers.Valid() && s.senders.Valid()
    && s.outcomes.Keys <= s.calls.Keys
    && (forall t :: t in s.receivers.Members() ==> t in s.calls && t !in s.outcomes && s.calls[t].Receive?)
    && (forall t :: t in s.senders.Members() ==> t in s.calls && t !in s.outcomes && s.calls[t].Send?)
    && (s.mutex != Free ==>
          && s.mutex.call in s.calls && s.mutex.call !in s.outcomes
          && (s.calls[s.mutex.call].Receive? <==> s.mutex.WillReceiveLater?)
          && s.mutex.call !in s.receivers.Members() + s.senders.Members())
    && (forall t :: t in s.calls && MayWait(s, t) ==> s.calls[t].patience != Try)
  }

  /** The buffer is what was sent and not yet received, within the capacity. */
  ghost predicate Queue(s: State) {
    && Values(s.sent) == Values(s.got) + s.buffer
    && (s.cap.Some? ==> |s.buffer| <= s.cap.value)
    && (s.mutex.Pushing? ==> CanSend(s.cap, |s.buffer|))
    && (s.mutex.WillReceiveLater? ==> s.buffer == [])
    && (s.mutex.WillSendLater? ==> !CanSend(s.cap, |s.buffer|))
    && (s.cap.None? ==> s.senders.Members() == {})
  }

  /** Things for receivers: values. Things for senders: slots not claimed by the mutex holder. */
  ghost predicate Served(s: State) {
    && NoneStranded(s.receivers, |s.buffer|)
    && (!s.closed ==> NoneStranded(s.senders, Slots(s) - if s.mutex.Pushing? then 1 else 0))
  }

  /** Whoever sleeps, or is about to, on a closed channel has a closer still to come. */
  ghost predicate CloseReachesAll(s: State) {
    s.closed && (s.receivers.asleep + s.senders.asleep != {} || s.mutex.WillReceiveLater? || s.mutex.WillSendLater?)
    ==> s.closing != {}
  }

  ghost predicate Recorded(s: State) {
    && (forall i, j :: 0 <= i < j < |s.sent| ==> s.sent[i].call != s.sent[j].call)
    && (forall i, j :: 0 <= i < j < |s.got| ==> s.got[i].call != s.got[j].call)
    && (forall i :: 0 <= i < |s.sent| ==> var e := s.sent[i];
          e.call in s.calls && s.calls[e.call].Send? && s.calls[e.call].value == e.value
          && e.call in s.outcomes && s.outcomes[e.call] == Sent)
    && (forall i :: 0 <= i < |s.got| ==> var e := s.got[i];
          e.call in s.calls && s.calls[e.call].Receive? && e.call in s.outcomes && s.outcomes[e.call] == Got(e.value))
    && (forall t :: t in s.outcomes && s.outcomes[t] == Sent ==> exists i :: 0 <= i < |s.sent| && s.sent[i].call == t)
    && (forall t :: t in s.outcomes && s.outcomes[t].Got? ==> exists i :: 0 <= i < |s.got| && s.got[i].call == t)
  }

  ghost predicate Inv(s: State) {
    CallsMatch(s) && Queue(s) && Served(s) && CloseReachesAll(s) && Recorded(s)
  }

  function Values(log: seq<Entry>): (r: seq<int>)
    ensures |r| == |log| && forall i :: 0 <= i < |log| ==> r[i] == log[i].value
  {
    if log == [] then [] else [log[0].value] + Values(log[1..])
  }

  lemma {:induction false} ValuesAppend(log: seq<Entry>, e: Entry)
    ensures Values(log + [e]) == Values(log) + [e.value]
  {
    if log == [] {
      assert [e][1..] == [];
    } else {
      assert (log + [e])[1..] == log[1..] + [e];
      ValuesAppend(log[1..], e);
    }
  }

  lemma NotifyKeepsMembers(p: Pool, p': Pool)
    requires p.Valid() && NotifyOne(p, p')
    ensures p'.Valid() && p'.Members() == p.Members() && p'.asleep <= p.asleep
  {
  }

  lemma EnterKeepsCalls(s: State, t: nat, s': State)
    requires CallsMatch(s) && EnterStep(s, t, s')
    ensures CallsMatch(s')
  {
    if s.cap.Some? && TakeStep(s, t, s') {
      NotifyKeepsMembers(s.senders, s'.senders);
    }
  }

  lemma {:induction false} StepKeepsCalls(s: State, a: Action, s': State)
    requires CallsMatch(s) && Step(s, a, s')
    ensures CallsMatch(s')
  {
    match a
    case Enter(t) => EnterKeepsCalls(s, t, s');
    case Push => NotifyKeepsMembers(s.receivers, s'.receivers);
    case Begin(_, _) =>
    case FallAsleep =>
    case WakeUp(_, _) =>
    case SetFlag(_) =>
    case NotifyClosed(_) =>
  }

  lemma TakeKeepsQueue(s: State, t: nat, s': State)
    requires CallsMatch(s) && Queue(s) && TakeStep(s, t, s') && s.mutex == Free
    ensures Queue(s')
  {
    ValuesAppend(s.got, Entry(t, s.buffer[0]));
    assert s.buffer == [s.buffer[0]] + s.buffer[1..];
    if s.cap.Some? {
      NotifyKeepsMembers(s.senders, s'.senders);
    }
  }

  lemma EnterKeepsQueue(s: State, t: nat, s': State)
    requires CallsMatch(s) && Queue(s) && EnterStep(s, t, s')
    ensures Queue(s')
  {
    if Decide(s.cap, |s.buffer|, s.closed, s.calls[t], t in s.expired) == GoOn && s.calls[t].Receive? {
      TakeKeepsQueue(s, t, s');
    } else {
      assert s'.sent == s.sent && s'.got == s.got && s'.buffer == s.buffer;
    }
  }

  lemma {:induction false} StepKeepsQueue(s: State, a: Action, s': State)
    requires CallsMatch(s) && Queue(s) && Step(s, a, s')
    ensures Queue(s')
  {
    match a
    case Enter(t) => EnterKeepsQueue(s, t, s');
    case Push =>
      ValuesAppend(s.sent, Entry(s.mutex.call, s.calls[s.mutex.call].value));
    case Begin(_, _) =>
    case FallAsleep =>
    case WakeUp(_, _) =>
    case SetFlag(_) =>
    case NotifyClosed(_) =>
  }

  lemma {:induction false} StepServes(s: State, a: Action, s': State)
    requires CallsMatch(s) && Queue(s) && Served(s) && Step(s, a, s')
    ensures Served(s')
  {
    if a.Enter? {
      if s.calls[a.t].Receive? {
        ReceiverEntersServed(s, a.t, s');
      } else {
        SenderEntersServed(s, a.t, s');
      }
    } else if a.Push? {
      PushServes(s, s');
    } else if a.WakeUp? {
      WakeUpServes(s, a.t, a.timeout, s');
    } else {
      RestServes(s, a, s');
    }
  }

  lemma PushServes(s: State, s': State)
    requires CallsMatch(s) && Served(s) && PushStep(s, s')
    ensures Served(s')
  {
    DepositAndNotify(s.receivers, s'.receivers, |s.buffer|);
  }

  lemma RestServes(s: State, a: Action, s': State)
    requires Queue(s) && Served(s) && Step(s, a, s')
    requires a.Begin? || a.FallAsleep? || a.SetFlag? || a.NotifyClosed?
    ensures Served(s')
  {
    assert s'.buffer == s.buffer && s'.cap == s.cap;
  }

  lemma WakeUpServes(s: State, t: nat, timeout: bool, s': State)
    requires CallsMatch(s) && Served(s) && Step(s, WakeUp(t, timeout), s')
    ensures Served(s')
  {
    if t in s.receivers.asleep {
      WakeByItself(s.receivers, t, |s.buffer|);
      assert s'.senders == s.senders;
    } else if !s.closed {
      WakeByItself(s.senders, t, Slots(s) - if s.mutex.Pushing? then 1 else 0);
    }
  }

  lemma TakeServes(s: State, t: nat, s': State)
    requires CallsMatch(s) && Queue(s) && Served(s) && TakeStep(s, t, s')
    requires s.mutex == Free && t in s.calls && s.calls[t].Receive?
    ensures Served(s')
  {
    TakeAndLeave(s.receivers, t, |s.buffer|);
    if s.cap.Some? && !s.closed {
      DepositAndNotify(s.senders, s'.senders, Slots(s));
    }
  }

  lemma ReceiverEntersServed(s: State, t: nat, s': State)
    requires CallsMatch(s) && Queue(s) && Served(s) && EnterStep(s, t, s') && s.calls[t].Receive?
    ensures Served(s')
  {
    if |s.buffer| > 0 {
      TakeServes(s, t, s');
    } else {
      assert s.senders.Leave(t) == s.senders;
      LeaveEmptyHanded(s.receivers, t, 0);
    }
  }

  /** A sender that enters takes nothing from the receivers, and claims a slot if there is one. */
  lemma SenderEnters(s: State, t: nat, s': State)
    requires CallsMatch(s) && EnterStep(s, t, s') && s.calls[t].Send?
    ensures s'.receivers == s.receivers && s'.buffer == s.buffer && s'.cap == s.cap && s'.closed == s.closed
    ensures s'.senders == s.senders.Leave(t)
    ensures !s.closed ==> (s'.mutex.Pushing? <==> CanSend(s.cap, |s.buffer|))
  {
    assert s.receivers.Leave(t) == s.receivers;
  }

  lemma SenderEntersServed(s: State, t: nat, s': State)
    requires CallsMatch(s) && Queue(s) && Served(s) && EnterStep(s, t, s') && s.calls[t].Send?
    ensures Served(s')
  {
    SenderEnters(s, t, s');
    if !s.closed {
      if CanSend(s.cap, |s.buffer|) && s.cap.Some? {
        TakeAndLeave(s.senders, t, Slots(s));
      } else {
        LeaveEmptyHanded(s.senders, t, Slots(s));
      }
    }
  }

  lemma StepKeepsClosing(s: State, a: Action, s': State)
    requires CallsMatch(s) && CloseReachesAll(s) && Step(s, a, s')
    ensures CloseReachesAll(s')
  {
    match a
    case Enter(t) =>
      if s.cap.Some? && TakeStep(s, t, s') {
        NotifyKeepsMembers(s.senders, s'.senders);
      }
    case Push => NotifyKeepsMembers(s.receivers, s'.receivers);
    case SetFlag(closer) => assert closer in s'.closing;
    case Begin(_, _) =>
    case FallAsleep =>
    case WakeUp(t, _) => assert s'.receivers.asleep + s'.senders.asleep <= s.receivers.asleep + s.senders.asleep;
    case NotifyClosed(_) =>
  }

  /** One more entry of a call that has just ended. */
  lemma TakeRecords(s: State, t: nat, s': State)
    requires CallsMatch(s) && Recorded(s) && TakeStep(s, t, s')
    requires t in s.calls && t !in s.outcomes && s.calls[t].Receive?
    ensures Recorded(s')
  {
    assert s'.got[|s.got|].call == t;
    forall u | u in s'.outcomes && s'.outcomes[u].Got? ensures exists i :: 0 <= i < |s'.got| && s'.got[i].call == u {
      if u != t {
        var i :| 0 <= i < |s.got| && s.got[i].call == u;
        assert s'.got[i].call == u;
      }
    }
  }

  lemma PushRecords(s: State, s': State)
    requires CallsMatch(s) && Recorded(s) && PushStep(s, s')
    ensures Recorded(s')
  {
    assert s'.sent[|s.sent|].call == s.mutex.call;
    forall u | u in s'.outcomes && s'.outcomes[u] == Sent
      ensures exists i :: 0 <= i < |s'.sent| && s'.sent[i].call == u
    {
      if u != s.mutex.call {
        var i :| 0 <= i < |s.sent| && s.sent[i].call == u;
        assert s'.sent[i].call == u;
      }
    }
  }

  /** A receiver that enters the mutex and finds a value. */
  predicate Takes(s: State, t: nat) {
    && t in s.calls && s.calls[t].Receive?
    && Decide(s.cap, |s.buffer|, s.closed, s.calls[t], t in s.expired) == GoOn
  }

  lemma StepRecords(s: State, a: Action, s': State)
    requires CallsMatch(s) && Recorded(s) && Step(s, a, s')
    ensures Recorded(s')
  {
    if a.Push? {
      PushRecords(s, s');
    } else if a.Enter? && Takes(s, a.t) {
      TakeRecords(s, a.t, s');
    } else {
      OthersLeaveHistory(s, a, s');
      HistoryFrame(s, s');
    }
  }

  /** No outcome that moves a value is added or changed. */
  ghost predicate SameHistory(s: State, s': State) {
    && s'.sent == s.sent && s'.got == s.got
    && (forall t :: t in s.calls ==> t in s'.calls && s'.calls[t] == s.calls[t])
    && (forall t :: t in s.outcomes ==> t in s'.outcomes && s'.outcomes[t] == s.outcomes[t])
    && (forall t :: t in s'.outcomes && (s'.outcomes[t] == Sent || s'.outcomes[t].Got?) ==> t in s.outcomes)
  }

  lemma OthersLeaveHistory(s: State, a: Action, s': State)
    requires Step(s, a, s') && !a.Push?
    requires a.Enter? ==> !Takes(s, a.t)
    ensures SameHistory(s, s')
  {
  }

  lemma HistoryFrame(s: State, s': State)
    requires Recorded(s) && SameHistory(s, s')
    ensures Recorded(s')
  {
  }

  lemma {:induction false} StepKeepsInv(s: State, a: Action, s': State)
    requires Inv(s) && Step(s, a, s')
    ensures Inv(s')
  {
    StepKeepsCalls(s, a, s');
    StepKeepsQueue(s, a, s');
    StepServes(s, a, s');
    StepKeepsClosing(s, a, s');
    StepRecords(s, a, s');
  }

  // ---------------------------------------------------------------- runs

  type Run = Runs.Run<State, Action>

  ghost predicate IsRun(r: Run) {
    match r
    case Start(s) => Init(s)
    case Then(p, a, s) => IsRun(p) && Step(Last(p), a, s)
  }

  lemma {:induction false} RunKeepsInv(r: Run)
    requires IsRun(r)
    ensures Inv(Last(r))
  {
    match r
    case Start(s) =>
    case Then(p, a, s) =>
      RunKeepsInv(p);
      StepKeepsInv(Last(p), a, s);
  }

  /** The values received are the first values sent, in order; the rest wait in the buffer. */
  lemma {:induction false} FirstInFirstOut(r: Run)
    requires IsRun(r)
    ensures var s := Last(r);
      && |s.got| <= |s.sent| && s.buffer == Values(s.sent)[|s.got|..]
      && (forall k :: 0 <= k < |s.got| ==> s.got[k].value == s.sent[k].value)
      && (s.cap.Some? ==> |s.sent| - |s.got| <= s.cap.value)
  {
    RunKeepsInv(r);
    var s := Last(r);
    forall k | 0 <= k < |s.got| ensures s.got[k].value == s.sent[k].value {
      assert Values(s.sent)[k] == Values(s.got)[k];
    }
  }

  /** A call that reports success moved its value once; a call with any other outcome moved nothing. */
  lemma MovedOnceIffSuccessful(r: Run, t: nat)
    requires IsRun(r) && t in Last(r).outcomes
    ensures var s := Last(r);
      && t in s.calls
      && (s.outcomes[t] == Sent <==> exists i :: 0 <= i < |s.sent| && s.sent[i].call == t)
      && (s.outcomes[t].Got? <==> exists i :: 0 <= i < |s.got| && s.got[i].call == t)
      && (forall i, j :: 0 <= i < j < |s.sent| ==> !(s.sent[i].call == t == s.sent[j].call))
      && (forall i, j :: 0 <= i < j < |s.got| ==> !(s.got[i].call == t == s.got[j].call))
      && (forall i :: 0 <= i < |s.sent| && s.sent[i].call == t ==>
            s.calls[t].Send? && s.sent[i].value == s.calls[t].value)
      && (forall i :: 0 <= i < |s.got| && s.got[i].call == t ==> s.outcomes[t] == Got(s.got[i].value))
  {
    RunKeepsInv(r);
  }

  /** A receiver that sleeps has a woken receiver for every buffered value; dually for senders and free slots. */
  lemma {:induction false} NobodyStranded(r: Run)
    requires IsRun(r)
    ensures var s := Last(r);
      && (s.receivers.asleep != {} ==> |s.buffer| <= |s.receivers.awake|)
      && (s.senders.asleep != {} && !s.closed && s.mutex == Free ==>
            s.cap.Some? && s.cap.value - |s.buffer| <= |s.senders.awake|)
  {
    RunKeepsInv(r);
  }

  /** After close nobody sleeps on without a closer that is still to notify. */
  lemma CloseWakesEverybody(r: Run)
    requires IsRun(r) && Last(r).closed && Last(r).closing == {}
    ensures Last(r).receivers.asleep == {} && Last(r).senders.asleep == {}
  {
    RunKeepsInv(r);
    var s := Last(r);
    assert s.receivers.asleep <= s.receivers.asleep + s.senders.asleep;
    assert s.senders.asleep <= s.receivers.asleep + s.senders.asleep;
  }

  /** A receive has reported that the channel is closed and nothing is left. */
  ghost predicate ReportedClosed(s: State, t: nat) {
    t in s.calls && s.calls[t].Receive? && t in s.outcomes && s.outcomes[t] == Closed
  }

  ghost predicate Drained(s: State) {
    s.closed && s.buffer == [] && !s.mutex.Pushing?
  }

  ghost predicate ReportsTrue(s: State) {
    forall t :: ReportedClosed(s, t) ==> Drained(s)
  }

  /** What is closed, empty and not being sent to stays so, and its history with it. */
  lemma DrainedStays(s: State, a: Action, s': State)
    requires Drained(s) && Step(s, a, s')
    ensures Drained(s') && s'.sent == s.sent && s'.got == s.got
  {
  }

  lemma OnlyDrainedReports(s: State, a: Action, s': State, t: nat)
    requires Step(s, a, s') && !ReportedClosed(s, t) && ReportedClosed(s', t)
    requires t in s.calls || t !in s.outcomes
    ensures Drained(s')
  {
  }

  lemma StepReportsTrue(s: State, a: Action, s': State)
    requires CallsMatch(s) && ReportsTrue(s) && Step(s, a, s')
    ensures ReportsTrue(s')
  {
    forall t | ReportedClosed(s', t)
      ensures Drained(s')
    {
      if ReportedClosed(s, t) {
        DrainedStays(s, a, s');
      } else {
        OnlyDrainedReports(s, a, s', t);
      }
    }
  }

  lemma {:induction false} RunReportsTrue(r: Run)
    requires IsRun(r)
    ensures ReportsTrue(Last(r))
  {
    match r
    case Start(s) =>
    case Then(p, a, s) =>
      RunReportsTrue(p);
      RunKeepsInv(p);
      StepReportsTrue(Last(p), a, s);
  }

  lemma {:induction false} DrainedForGood(p: Run, r: Run)
    requires IsRun(r) && IsPrefix(p, r) && Drained(Last(p))
    ensures IsRun(p) && Drained(Last(r)) && Last(r).sent == Last(p).sent && Last(r).got == Last(p).got
  {
    if p == r {
    } else {
      DrainedForGood(p, r.before);
      DrainedStays(Last(r.before), r.action, r.state);
    }
  }

  lemma {:induction false} PrefixIsRun(p: Run, r: Run)
    requires IsRun(r) && IsPrefix(p, r)
    ensures IsRun(p)
  {
    if p == r {
    } else {
      PrefixIsRun(p, r.before);
    }
  }

  /** A report is final: everything ever sent has been received by then, and nothing is sent any more. */
  lemma {:induction false} ReportedCloseIsFinal(p: Run, r: Run, t: nat)
    requires IsRun(r) && IsPrefix(p, r) && ReportedClosed(Last(p), t)
    ensures Last(r).closed && Last(r).sent == Last(p).sent && Values(Last(r).got) == Values(Last(r).sent)
  {
    PrefixIsRun(p, r);
    RunReportsTrue(p);
    DrainedForGood(p, r);
    RunKeepsInv(r);
  }

  /** Nobody is on the way: no woken waiter, no section in progress, no closer that still has to notify. */
  ghost predicate AtRest(s: State) {
    s.mutex == Free && s.receivers.awake == {} && s.senders.awake == {} && s.closing == {}
  }

  ghost predicate BothAsleep(s: State) {
    s.receivers.asleep != {} && s.senders.asleep != {}
  }

  /** Senders and receivers of a channel that can hold something are never left asleep together. */
  lemma NeverBothAsleep(r: Run)
    requires IsRun(r) && AtRest(Last(r)) && Last(r).cap != Some(0)
    ensures !BothAsleep(Last(r))
  {
    if Last(r).closed {
      CloseWakesEverybody(r);
    } else {
      RunKeepsInv(r);
      RestServed(Last(r));
    }
  }

  lemma RestServed(s: State)
    requires Served(s) && Queue(s) && !s.closed && AtRest(s) && s.cap != Some(0)
    ensures !BothAsleep(s)
  {
    SleepersHaveAReason(s.receivers, |s.buffer|);
    SleepersHaveAReason(s.senders, Slots(s));
  }

  /** A channel that can hold nothing: a sender goes to sleep, then a receiver, and nobody is left to wake them. */
  function SleepingPastEachOther(): (r: Run)
    ensures IsRun(r) && Last(r).cap == Some(0) && AtRest(Last(r)) && BothAsleep(Last(r))
  {
    var send, receive := Send(7, Blocking), Receive(Blocking);
    var s0 := State(Some(0), [], false, Free, Pool({}, {}), Pool({}, {}), {}, {}, map[], map[], [], []);
    var s1 := s0.(calls := s0.calls[0 := send]);
    var s2 := s1.(mutex := WillSendLater(0));
    var s3 := s2.(mutex := Free, senders := Pool({0}, {}));
    var s4 := s3.(calls := s3.calls[1 := receive]);
    var s5 := s4.(mutex := WillReceiveLater(1));
    var s6 := s5.(mutex := Free, receivers := Pool({1}, {}));
    var nobody := Pool({}, {});
    assert nobody.Leave(0) == nobody && nobody.Leave(1) == nobody;
    assert nobody.Sleep(0) == Pool({0}, {}) && nobody.Sleep(1) == Pool({1}, {});
    assert s1.calls[0] == send && s4.calls[1] == receive;
    assert 1 in s6.receivers.asleep && 0 in s6.senders.asleep;
    assert IsRun(Start(s0)) && Step(s0, Begin(0, send), s1);
    var r1 := Then(Start(s0), Begin(0, send), s1);
    assert IsRun(r1);
    var r2 := Then(r1, Enter(0), s2);
    assert IsRun(r2);
    var r3 := Then(r2, FallAsleep, s3);
    assert IsRun(r3);
    var r4 := Then(r3, Begin(1, receive), s4);
    assert IsRun(r4);
    var r5 := Then(r4, Enter(1), s5);
    assert IsRun(r5);
    Then(r5, FallAsleep, s6)
  }

  /** Exactly on a channel of capacity zero can a sender and a receiver sleep past each other for good. */
  lemma BothAsleepOnlyWithoutCapacity(cap: Option<nat>)
    ensures (exists r :: IsRun(r) && Last(r).cap == cap && AtRest(Last(r)) && BothAsleep(Last(r))) <==> cap == Some(0)
  {
    if cap == Some(0) {
      var r := SleepingPastEachOther();
      assert IsRun(r) && BothAsleep(Last(r));
    }
    forall r | IsRun(r) && Last(r).cap == cap && AtRest(Last(r)) && BothAsleep(Last(r)) ensures cap == Some(0) {
      if cap != Some(0) {
        NeverBothAsleep(r);
      }
    }
  }
}
