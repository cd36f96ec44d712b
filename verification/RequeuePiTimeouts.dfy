/** A broadcast in which waits may fail or time out: whether it can end without an error while a
    waiter has not even been on f1. Here -l is no help, since a requeued waiter whose wait then
    fails is counted twice although the waker holds f2. */
module RequeuePiTimeouts {
  import opened Words
  import opened Sets
  import opened RequeuePi
  import opened RequeuePiSafety
  import opened RequeuePiRuns
  import opened RequeuePiDrain
  import opened RequeuePiReach
  import opened RequeuePiBroadcast

  // ---------------------------------------------------------------- one waiter

  /** An end without an error needs a second round in the limit, and leaves a single waiter past f1. */
  predicate EndsPast(s: State) {
    && |s.ws| == s.cfg.n && 1 <= s.cfg.n && s.cfg.broadcast
    && (s.waker.pc == Retest ==> 1 <= s.waker.i)
    && (s.waker.pc in {WakeDone, FinalUnlock, KExit} && !s.failed && !s.limited ==>
          2 <= s.cfg.max && (s.cfg.n == 1 ==> Past(s.ws[0].pc)))
  }

  lemma RequeueEndsPast(s: State, first: Heir, rest: set<nat>, ok: bool)
    requires EndsPast(s) && s.waker.pc == Requeue && WakerInv(s)
    ensures EndsPast(RunRequeue(s, first, rest, ok))
  {
    hide Take, Moved, Taken;
  }

  lemma TestEndsPast(s: State)
    requires EndsPast(s) && Modes(s) && Counts(s) && WakerInv(s) && s.waker.pc == Retest
    ensures EndsPast(RunWaker(s))
  {
    LoopTestMeans(s);
    if s.cfg.n == 1 && !Past(s.ws[0].pc) {
      assert s.moved == {} && CountedSet(s) == {};
    }
    hide Counts, CountedSet;
  }

  lemma RunEndsPast(s: State)
    requires EndsPast(s) && WakerMode(s) && WakerInv(s) && CanWake(s) && s.waker.pc != Retest
    ensures EndsPast(RunWaker(s))
  {
  }

  lemma UnlockEndsPast(s: State, heir: Heir)
    requires EndsPast(s) && Modes(s) && Enabled(s, WakerUnlocks(heir))
    ensures EndsPast(Apply(s, WakerUnlocks(heir)))
  {
    hide Release;
    assert EndsPast(LeaveWaker(s));
    ReleasePushes(LeaveWaker(s), |s.ws|, heir, 0);
  }

  lemma OthersEndPast(s: State, e: Event)
    requires EndsPast(s) && Enabled(s, e) && !ByWaker(e)
    ensures EndsPast(Apply(s, e))
  {
    hide Apply, Enabled;
    OthersPushWaker(s, e);
    if ByWaiter(e) && e.t == 0 {
      WaiterSelf(s, e);
    } else {
      OthersPush(s, e, 0);
    }
  }

  lemma EndsPastKept(s: State, e: Event)
    requires Inv(s) && EndsPast(s) && Enabled(s, e)
    ensures EndsPast(Apply(s, e))
  {
    if e.WakerRequeues? {
      RequeueEndsPast(s, e.first, e.rest, e.ok);
    } else if e.WakerUnlocks? {
      UnlockEndsPast(s, e.heir);
    } else if !ByWaker(e) {
      OthersEndPast(s, e);
    } else if s.waker.pc == Retest {
      TestEndsPast(s);
    } else {
      RunEndsPast(s);
    }
    hide Inv, EndsPast, RunWaker, RunRequeue, Release;
  }

  lemma {:induction false} EndsPastOnRuns(s: State, es: seq<Event>)
    requires Inv(s) && EndsPast(s) && Valid(s, es)
    ensures EndsPast(Exec(s, es))
    decreases |es|
  {
    if es != [] {
      InvKept(s, es[0]);
      EndsPastKept(s, es[0]);
      EndsPastOnRuns(Apply(s, es[0]), es[1..]);
    }
  }

  // ---------------------------------------------------------------- -l and a wait that fails

  /** The waker takes f2 and comes to its call. */
  lemma LockedCalls(s: State)
    requires Inv(s) && Stage(s, OnF1, OnF1, Calling, KLock) && s.owner == Free
    ensures Enabled(s, WakerRuns) && Enabled(Apply(s, WakerRuns), WakerRuns)
    ensures var s' := Apply(Apply(s, WakerRuns), WakerRuns);
            Stage(s', OnF1, OnF1, Calling, Requeue) && s'.owner == By(|s.ws|) && s'.waker.i == s.waker.i
  {
  }

  lemma LockedStarts(s: State)
    requires Inv(s) && Stage(s, OnF1, OnF1, Calling, Spin) && s.cfg.lock
    ensures Enabled(s, WakerRuns)
    ensures var s' := Apply(s, WakerRuns);
            Stage(s', OnF1, OnF1, Calling, KLock) && s'.owner == s.owner && s'.waker.i == s.waker.i
  {
    AllAnnounced(s);
    hide Inv;
  }

  lemma LockedAllowed(s: State)
    requires Stage(s, OnF1, OnF1, Calling, Requeue) && s.owner == By(|s.ws|)
    requires s.waker.oldVal == s.f1 && |s.ws| <= INT_MAX
    ensures RequeueOk(s, Nobody, Range(|s.ws| - 1), true) && Taken(Nobody, Range(|s.ws| - 1)) == Range(|s.ws| - 1)
  {
    hide Stage, Range;
    AllButLast(s);
  }

  lemma LockedMoves(s: State)
    requires Stage(s, OnF1, OnF1, Calling, Requeue)
    ensures Stage(Moved(s, Nobody, Range(|s.ws| - 1)), OnF2, OnF2, Calling, Requeue)
  {
  }

  /** The call queues all but the last waiter on f2. */
  lemma LockedTakes(s: State)
    requires Inv(s) && Stage(s, OnF1, OnF1, Calling, Requeue) && s.owner == By(|s.ws|)
    requires s.waker.i == 0 && 2 <= s.cfg.max && s.moved == {}
    ensures var e := WakerRequeues(Nobody, Range(|s.ws| - 1), true);
            && Enabled(s, e)
            && var s' := Apply(s, e);
               Stage(s', OnF2, OnF2, Calling, Retest) && s'.moved == Range(|s.ws| - 1) && s'.waker.ret == |s.ws| - 1
  {
    hide Inv, Range, Moved, Take, Taken, RequeueOk, RunRequeue;
    AboutToCall(s);
    LockedAllowed(s);
    LockedMoves(s);
    CallReturns(s, Nobody, Range(|s.ws| - 1));
    RangeSize(|s.ws| - 1);
  }

  /** The wait of waiter 0 times out or fails, and waiter 0 is counted. */
  lemma ZeroFails(s: State, timedOut: bool)
    requires Stage(s, OnF2, OnF2, Calling, Retest)
    ensures Enabled(s, WaiterFails(0, timedOut)) && Enabled(Apply(s, WaiterFails(0, timedOut)), WaiterRuns(0))
    ensures var s' := Apply(Apply(s, WaiterFails(0, timedOut)), WaiterRuns(0));
            Stage(s', Relock, OnF2, Calling, Retest) && s'.moved == s.moved && s'.waker == s.waker
  {
    var s1 := Apply(s, WaiterFails(0, timedOut));
    var errno := if timedOut then TimedOut else OtherError;
    assert s1.ws == s.ws[0 := s.ws[0].(pc := Woke, ret := -1, errno := errno)];
  }

  /** The waker leaves its loop. */
  lemma LockedLeaves(s: State)
    requires Inv(s) && Stage(s, Relock, OnF2, Calling, Retest) && s.moved == Range(|s.ws| - 1) && s.cfg.lock
    ensures Enabled(s, WakerRuns) && Enabled(Apply(s, WakerRuns), WakerRuns)
    ensures var s' := Apply(Apply(s, WakerRuns), WakerRuns);
            Stage(s', Relock, OnF2, Calling, FinalUnlock) && s'.waker.ret == s.waker.ret
  {
    hide Range, Take, Ownership, ResultsInv, SpinInv, Modes;
    RangeSize(|s.ws| - 1);
    assert s.waker.task == |s.ws| - 1;
    OneCounted(s);
    hide Inv;
  }

  lemma LockedExits(s: State) returns (heir: Heir)
    requires Inv(s) && Stage(s, Relock, OnF2, Calling, FinalUnlock) && s.waker.ret > 0
    ensures Enabled(s, WakerUnlocks(heir))
    ensures var s' := Apply(s, WakerUnlocks(heir));
            s'.waker.pc == KExit && s'.waker.ret >= 0 && s'.ws[|s.ws| - 1].pc == Calling
  {
    hide Inv;
    LockedOwns(s);
    TaskCounts(s);
    heir := SomeHeir(s, |s.ws|);
    ExitStep(s, heir);
  }

  lemma LockedOwns(s: State)
    requires Inv(s) && s.waker.pc == FinalUnlock
    ensures s.owner == By(|s.ws|)
  {
    assert Believes(s, |s.ws|);
  }

  lemma ExitStep(s: State, heir: Heir)
    requires Stage(s, Relock, OnF2, Calling, FinalUnlock) && HeirOk(s, |s.ws|, heir)
    requires s.waker.ret > 0 && s.waker.task >= 0
    ensures var s' := Apply(s, WakerUnlocks(heir));
            s'.waker.pc == KExit && s'.waker.ret >= 0 && s'.ws[|s.ws| - 1].pc == Calling
  {
    hide Release;
    ReleasePushes(LeaveWaker(s), |s.ws|, heir, |s.ws| - 1);
  }

  lemma LockedOpening(s0: State, es0: seq<Event>) returns (es: seq<Event>)
    requires Valid(s0, es0) && Inv(s0) && Inv(Exec(s0, es0)) && 2 <= s0.cfg.n && 2 <= s0.cfg.max && s0.cfg.lock
    requires var s := Exec(s0, es0);
             Stage(s, OnF1, OnF1, Start, Spin) && s.owner == Free && s.waker.i == 0 && |s.ws| == s.cfg.n
    ensures Valid(s0, es) && Inv(Exec(s0, es))
    ensures var s := Exec(s0, es);
            && Stage(s, OnF2, OnF2, Calling, Retest) && s.moved == Range(s0.cfg.n - 1) && s.waker.ret == s0.cfg.n - 1
  {
    hide Inv, Apply, Enabled, Valid, Exec, Stage, Range, NoWaitFails, RequeueOk;
    var n := s0.cfg.n;
    TailCalls(Exec(s0, es0));
    es := Then(s0, es0, WaiterRuns(n - 1));
    es := Then(s0, es, WaiterRuns(n - 1));
    LockedStarts(Exec(s0, es));
    es := Then(s0, es, WakerRuns);
    LockedCalls(Exec(s0, es));
    es := Then(s0, es, WakerRuns);
    es := Then(s0, es, WakerRuns);
    NotMovedYet(Exec(s0, es));
    LockedTakes(Exec(s0, es));
    es := Then(s0, es, WakerRequeues(Nobody, Range(n - 1), true));
  }

  /** With -l, two waiters or more and a limit above 1, a requeued waiter whose wait times out, or
      fails if no timeout is set, stands in for one that has not queued: the broadcast ends without
      an error before the last waiter is on f1. */
  lemma LockedStopsEarly(s0: State, cfg: Config) returns (es: seq<Event>)
    requires Init(s0, cfg) && cfg.broadcast && cfg.lock && 2 <= cfg.n && 2 <= cfg.max
    ensures Valid(s0, es) && |Exec(s0, es).ws| == cfg.n
    ensures var s := Exec(s0, es);
            s.waker.pc == KExit && s.waker.ret >= 0 && s.ws[cfg.n - 1].pc == Calling
  {
    hide Apply, Enabled, Valid, Exec, Init, Inv, Range, Stage, NoWaitFails, RequeueOk;
    es := AllButOne(s0, cfg);
    es := LockedOpening(s0, es);
    ZeroFails(Exec(s0, es), cfg.timed);
    es := Then(s0, es, WaiterFails(0, cfg.timed));
    es := Then(s0, es, WaiterRuns(0));
    LockedLeaves(Exec(s0, es));
    es := Then(s0, es, WakerRuns);
    es := Then(s0, es, WakerRuns);
    var heir := LockedExits(Exec(s0, es));
    es := Then(s0, es, WakerUnlocks(heir));
  }

  // ---------------------------------------------------------------- exactly when

  /** In no run whatsoever does the broadcast end without an error while a waiter is on f1 or on its
      way there. */
  ghost predicate LeavesNobody(cfg: Config) {
    forall s0, es :: Init(s0, cfg) && Valid(s0, es) ==>
      var s := Exec(s0, es);
      s.waker.pc == KExit && s.waker.ret >= 0 ==> forall t :: 0 <= t < |s.ws| ==> Past(s.ws[t].pc)
  }

  lemma SingleLeft(s0: State, cfg: Config, es: seq<Event>, s: State)
    requires Init(s0, cfg) && cfg.broadcast && Valid(s0, es) && s == Exec(s0, es)
    requires s.waker.pc == KExit && s.waker.ret >= 0
    ensures 2 <= cfg.max && |s.ws| == cfg.n && (cfg.n == 1 ==> Past(s.ws[0].pc))
  {
    InitInv(s0, cfg);
    EndsPastOnRuns(s0, es);
    InvOnRuns(s0, es);
    EndsWithoutError(s);
    hide Valid, Inv;
  }

  /** Timeouts and failed waits included, a broadcast that ends without an error leaves nobody behind
      if and only if there is one waiter only, or the limit is 1; -l does not matter here. */
  lemma BroadcastLeavesNobodyIff(cfg: Config)
    requires 1 <= cfg.n <= INT_MAX && 1 <= cfg.max && cfg.broadcast
    ensures LeavesNobody(cfg) <==> cfg.n == 1 || cfg.max == 1
  {
    hide Init, Valid, Exec, Range;
    if cfg.n == 1 || cfg.max == 1 {
      forall s0, es | Init(s0, cfg) && Valid(s0, es)
        && Exec(s0, es).waker.pc == KExit && Exec(s0, es).waker.ret >= 0
        ensures var s := Exec(s0, es); forall t :: 0 <= t < |s.ws| ==> Past(s.ws[t].pc)
      {
        SingleLeft(s0, cfg, es, Exec(s0, es));
      }
    } else {
      var s0 := StartState(cfg);
      var es;
      if cfg.lock {
        es := LockedStopsEarly(s0, cfg);
      } else {
        es := StopsEarly(s0, cfg);
      }
      assert !Past(Exec(s0, es).ws[cfg.n - 1].pc);
    }
  }
}
