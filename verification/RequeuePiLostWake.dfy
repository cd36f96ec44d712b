/** The third party sleeps on a word that nobody writes, and the waker wakes it once. If it is not
    asleep by then, or if -b and -l let the waker hold f2 up to its wake, it never comes back. */
module RequeuePiLostWake {
  import opened RequeuePi
  import opened RequeuePiSafety
  import opened RequeuePiRuns
  import opened RequeuePiDrain
  import opened RequeuePiReach

  // ---------------------------------------------------------------- never woken

  /** No call of the third party fails or returns without cause. */
  predicate Spares(e: Event) {
    !e.BlockerFails? && !e.BlockerReturns?
  }

  predicate AllSpare(es: seq<Event>) {
    forall e <- es :: Spares(e)
  }

  /** The third party has not come back from its wait, and no wake will reach it any more. */
  predicate Stranded(s: State) {
    && s.blocker.pc in {BLock, BLockWait, BWait, BAsleep}
    && (s.waker.pc in {FinalUnlock, KExit} || (s.cfg.broadcast && s.cfg.lock))
  }

  lemma ReleaseStrands(s: State, me: nat, heir: Heir)
    requires Stranded(s) && (heir.To? ==> Queued(s, heir.id))
    ensures Stranded(Release(s, me, heir))
  {
  }

  lemma RunsStrand(s: State, e: Event)
    requires Ownership(s) && Modes(s) && Stranded(s) && Enabled(s, e) && (e == WakerRuns || e == BlockerRuns)
    ensures Stranded(Apply(s, e))
  {
    assert Believes(s, |s.ws|) <==> s.owner == By(|s.ws|);
    assert Believes(s, |s.ws| + 1) <==> s.owner == By(|s.ws| + 1);
  }

  lemma StrandedStays(s: State, e: Event)
    requires Inv(s) && Stranded(s) && Enabled(s, e) && Spares(e)
    ensures Stranded(Apply(s, e))
  {
    hide Ownership, Counts, WakerInv, SpinInv, ResultsInv, Release, RunWaiter, RunRequeue, RunWaker, RunBlocker;
    match e
    case WaiterRuns(_) =>
    case WaiterFails(_, _) =>
    case WaiterUnlocks(t, heir) => ReleaseStrands(SetPc(s, t, Exit), t, heir);
    case WakerRuns => RunsStrand(s, e);
    case WakerRequeues(first, rest, ok) => FirstIsWaiter(s, first, rest, ok);
    case WakerUnlocks(heir) => ReleaseStrands(LeaveWaker(s), |s.ws|, heir);
    case BlockerRuns => RunsStrand(s, e);
    case BlockerUnlocks(_) =>
  }

  /** Once stranded, the third party never leaves its wait, whatever the others do and whichever of
      their calls fail or time out. */
  lemma {:induction false} StrandedForever(s: State, es: seq<Event>)
    requires Inv(s) && Stranded(s) && Valid(s, es) && AllSpare(es)
    ensures Stranded(Exec(s, es))
    decreases |es|
  {
    if es != [] {
      InvKept(s, es[0]);
      StrandedStays(s, es[0]);
      StrandedForever(Apply(s, es[0]), es[1..]);
    }
  }

  /** A broadcast with -l and -o, in every run in which the third party's calls do not fail: the waker
      holds f2 from its lock to its wake, so the third party is not asleep when it wakes it. */
  lemma LockedBroadcastStrands(s0: State, cfg: Config, es: seq<Event>, s: State)
    requires Init(s0, cfg) && cfg.broadcast && LockedThird(cfg) && Valid(s0, es) && AllSpare(es) && s == Exec(s0, es)
    ensures s.blocker.pc in {BLock, BLockWait, BWait, BAsleep}
  {
    InitInv(s0, cfg);
    StrandedForever(s0, es);
  }

  lemma {:induction false} QuietSpares(s: State, es: seq<Event>)
    requires QuietRun(s, es)
    ensures AllSpare(es)
    decreases |es|
  {
    if es != [] {
      QuietSpares(Apply(s, es[0]), es[1..]);
    }
  }

  // ---------------------------------------------------------------- a schedule with an early wake

  predicate SomeOnF2(s: State) {
    exists t :: 0 <= t < |s.ws| && s.ws[t].pc == OnF2
  }

  /** The third party is kept from its sleep: it does not have f2, or has it but does not sleep yet
      and the waker does not need f2. */
  predicate Dodging(s: State) {
    && (s.blocker.pc in {BLock, BLockWait} || (s.blocker.pc == BWait && !s.cfg.lock))
    && (s.waker.pc == KUnlock ==> SomeOnF2(s))
  }

  lemma DodgeTest(s: State)
    requires Dodging(s) && CanWake(s) && s.waker.pc != WakeDone
    ensures Calm(s, WakerRuns) && Dodging(Apply(s, WakerRuns))
  {
  }

  lemma HandToWaker(s: State, e: Event)
    requires Dodging(s) && s.waker.pc == KLockWait && Enabled(s, e)
    requires e.WaiterRuns? || (e.WaiterUnlocks? && e.heir == To(|s.ws|))
    ensures Dodging(Apply(s, e))
  {
  }

  /** The waker queues for f2: the waiter that has f2 goes on and hands it to the waker. */
  lemma DodgeWaiting(s: State) returns (e: Event)
    requires DrainInv(s) && Dodging(s) && s.waker.pc == KLockWait
    ensures Calm(s, e) && Dodging(Apply(s, e))
  {
    assert Queued(s, |s.ws|) && !Believes(s, |s.ws|);
    assert s.owner.By? && Believes(s, s.owner.id);
    var t := s.owner.id;
    e := if s.ws[t].pc == Unlock then WaiterUnlocks(t, To(|s.ws|)) else WaiterRuns(t);
    HandToWaker(s, e);
    hide Release, RunWaiter, Inv;
  }

  /** A waiter requeued while the waker has f2 is queued on f2. */
  lemma RequeueDodges(s: State, first: Heir, rest: set<nat>)
    requires DrainInv(s) && Dodging(s) && Calm(s, WakerRequeues(first, rest, true))
    ensures Dodging(Apply(s, WakerRequeues(first, rest, true)))
  {
    hide RunRequeue, Moved, Take, Taken;
    RequeueSize(s, first, rest);
    FirstIsWaiter(s, first, rest, true);
    if s.cfg.lock {
      assert Believes(s, |s.ws|);
      var t := OneQueues(s, first, rest);
    } else {
      NoUnlock(s, first, rest);
    }
  }

  lemma OneQueues(s: State, first: Heir, rest: set<nat>) returns (t: nat)
    requires RequeueOk(s, first, rest, true) && s.owner != Free && |Taken(first, rest)| > 0
    ensures t < |s.ws| && RunRequeue(s, first, rest, true).ws[t].pc == OnF2
  {
    hide RunRequeue;
    assert rest != {};
    t :| t in rest;
    assert InF1(s, t);
  }

  lemma NoUnlock(s: State, first: Heir, rest: set<nat>)
    requires !s.cfg.lock
    ensures RunRequeue(s, first, rest, true).waker.pc != KUnlock
  {
    hide Moved, Take, Taken;
  }

  lemma UnlockDodges(s: State, t: nat)
    requires Dodging(s) && s.waker.pc == KUnlock && t < |s.ws| && s.ws[t].pc == OnF2 && s.owner == By(|s.ws|)
    ensures Calm(s, WakerUnlocks(To(t))) && Dodging(Apply(s, WakerUnlocks(To(t))))
  {
  }

  /** The waker goes on, and hands f2 to a waiter that it has requeued. */
  lemma DodgeOn(s: State) returns (e: Event)
    requires DrainInv(s) && Dodging(s) && s.waker.pc !in {KLockWait, WakeDone, FinalUnlock, KExit}
    ensures Calm(s, e) && Dodging(Apply(s, e))
  {
    hide Calm, Apply, Inv, WaiterDrains, WakerDrains, BlockerDrains;
    if s.waker.pc == KUnlock {
      UnlockerOwns(s);
      var t :| 0 <= t < |s.ws| && s.ws[t].pc == OnF2;
      UnlockDodges(s, t);
      e := WakerUnlocks(To(t));
    } else if s.waker.pc == Requeue {
      e := SomeRequeue(s);
      CalmTakesAll(s, e);
      RequeueDodges(s, e.first, e.rest);
    } else {
      OnF1IsRest(s);
      DodgeTest(s);
      e := WakerRuns;
    }
  }

  lemma UnlockerOwns(s: State)
    requires Inv(s) && s.waker.pc == KUnlock
    ensures s.owner == By(|s.ws|)
  {
    assert Believes(s, |s.ws|);
  }

  lemma CalmTakesAll(s: State, e: Event)
    requires Calm(s, e) && e.WakerRequeues?
    ensures e.ok
  {
  }

  lemma DodgeStep(s: State) returns (e: Event)
    requires DrainInv(s) && Dodging(s) && s.waker.pc != WakeDone
    ensures Calm(s, e) && Dodging(Apply(s, e))
  {
    hide Calm, Apply, Inv;
    if s.waker.pc == KLockWait {
      e := DodgeWaiting(s);
    } else {
      e := DodgeOn(s);
    }
  }

  lemma WakesNobody(s: State)
    requires Dodging(s) && s.waker.pc == WakeDone
    ensures Quiet(s, WakerRuns) && Stranded(Apply(s, WakerRuns)) && RunWaker(s).waker.pc in {FinalUnlock, KExit}
  {
  }

  /** The waker comes to its wake before the third party sleeps. */
  lemma {:induction false} DodgeDown(s: State) returns (es: seq<Event>)
    requires DrainInv(s) && Dodging(s)
    ensures QuietRun(s, es) && Stranded(Exec(s, es)) && Exec(s, es).waker.pc in {FinalUnlock, KExit}
    decreases Measure(s)
  {
    if s.waker.pc == WakeDone {
      WakesNobody(s);
      es := [WakerRuns];
      assert es[1..] == [];
    } else {
      var e := DodgeStep(s);
      DrainKept(s, e);
      CalmDecreases(s, e);
      MeasureBounds(Apply(s, e));
      var rest := DodgeDown(Apply(s, e));
      es := [e] + rest;
      hide Apply, Quiet, DrainInv, Dodging, Stranded;
      assert es[1..] == rest;
    }
  }

  // ---------------------------------------------------------------- from the start

  /** In every configuration with -o some run without a failed call comes to the wake too early: from
      there on the third party never leaves its wait. */
  lemma WakeMayBeLost(s0: State, cfg: Config) returns (es: seq<Event>)
    requires Init(s0, cfg) && cfg.third && (cfg.broadcast ==> 2 <= cfg.max)
    ensures QuietRun(s0, es) && Exec(s0, es).waker.pc in {FinalUnlock, KExit}
    ensures forall fs :: Valid(Exec(s0, es), fs) && AllSpare(fs) ==>
              Exec(Exec(s0, es), fs).blocker.pc in {BLock, BLockWait, BWait, BAsleep}
  {
    hide Init, Ready, Valid, Exec, Inv, DrainInv, QuietRun;
    var qs := ReadyIsReached(s0, cfg, false);
    var s := Exec(s0, qs);
    ReadyDrains(s);
    ReadyDodges(s);
    var ds := DodgeDown(s);
    Concat(s0, qs, ds);
    es := qs + ds;
    InitInv(s0, cfg);
    InvOnRuns(s0, es);
    forall fs | Valid(Exec(s0, es), fs) && AllSpare(fs)
      ensures Exec(Exec(s0, es), fs).blocker.pc in {BLock, BLockWait, BWait, BAsleep}
    {
      StrandedForever(Exec(s0, es), fs);
    }
  }

  lemma ReadyDodges(s: State)
    requires Ready(s)
    ensures s.blocker.pc in {BLock, BLockWait} || (s.blocker.pc == BWait && !s.cfg.lock) ==> Dodging(s)
  {
  }
}
