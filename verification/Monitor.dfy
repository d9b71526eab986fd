/**
 The threads at one condition variable of a monitor, and the law that keeps them from being
 stranded: whoever makes something available notifies one sleeper for it, so as long as
 anybody sleeps there are at least as many woken threads as things to be had.
 */
module Monitor {
  /**
   `asleep`: in the wait, not notified. `awake`: notified, timed out or spuriously woken, and
   on the way to the mutex.
   */
  datatype Pool = Pool(asleep: set<nat>, awake: set<nat>) {
    ghost predicate Valid() {
      asleep !! awake
    }

    function Members(): set<nat> {
      asleep + awake
    }

    function Sleep(t: nat): Pool {
      Pool(asleep + {t}, awake - {t})
    }

    function Wake(t: nat): Pool {
      Pool(asleep - {t}, awake + {t})
    }

    function Leave(t: nat): Pool {
      Pool(asleep, awake - {t})
    }

    function WakeAll(): Pool {
      Pool({}, asleep + awake)
    }
  }

  /** notify_one: some sleeper, if there is one. */
  ghost predicate NotifyOne(p: Pool, p': Pool) {
    if p.asleep == {} then p' == p else exists t :: t in p.asleep && p' == p.Wake(t)
  }

  /** The effect of notify_one on the pool. */
  ghost method Notify(p: Pool) returns (p': Pool)
    ensures NotifyOne(p, p') && (p.Valid() ==> p'.Valid())
  {
    p' := p;
    if p.asleep != {} {
      var t :| t in p.asleep;
      p' := p.Wake(t);
    }
  }

  /** If anybody sleeps un-notified, everything available has a woken thread that comes for it. */
  ghost predicate NoneStranded(p: Pool, available: int) {
    p.asleep != {} ==> available <= |p.awake|
  }

  lemma OneMoreAwake(p: Pool, t: nat)
    requires p.Valid() && t in p.asleep
    ensures p.Wake(t).Valid() && p.Wake(t).Members() == p.Members() && |p.Wake(t).awake| == |p.awake| + 1
  {
  }

  /** The notifier's side: one more thing is available, and one sleeper is notified. */
  lemma DepositAndNotify(p: Pool, p': Pool, available: int)
    requires p.Valid() && NoneStranded(p, available) && NotifyOne(p, p')
    ensures p'.Valid() && NoneStranded(p', available + 1) && p'.Members() == p.Members()
  {
    if p.asleep != {} {
      var t :| t in p.asleep && p' == p.Wake(t);
      OneMoreAwake(p, t);
    }
  }

  /** The taker's side: a woken thread, or one that never slept, takes one thing and leaves. */
  lemma TakeAndLeave(p: Pool, t: nat, available: int)
    requires p.Valid() && NoneStranded(p, available) && available > 0
    ensures p.Leave(t).Valid() && NoneStranded(p.Leave(t), available - 1)
  {
    if t in p.awake {
      assert |p.Leave(t).awake| == |p.awake| - 1;
    } else {
      assert p.Leave(t) == p;
    }
  }

  /** Leaving empty-handed strands nobody when nothing is there to be had. */
  lemma LeaveEmptyHanded(p: Pool, t: nat, available: int)
    requires p.Valid() && available <= 0
    ensures p.Leave(t).Valid() && NoneStranded(p.Leave(t), available)
  {
  }

  /** A timeout or a spurious wakeup strands nobody. */
  lemma WakeByItself(p: Pool, t: nat, available: int)
    requires p.Valid() && NoneStranded(p, available) && t in p.asleep
    ensures p.Wake(t).Valid() && NoneStranded(p.Wake(t), available)
  {
    OneMoreAwake(p, t);
  }

  /** Once no woken thread is left, whoever still sleeps does so because there is nothing to be had. */
  lemma SleepersHaveAReason(p: Pool, available: int)
    requires NoneStranded(p, available) && p.awake == {}
    ensures p.asleep != {} ==> available <= 0
  {
    assert |p.awake| == 0;
  }
}
