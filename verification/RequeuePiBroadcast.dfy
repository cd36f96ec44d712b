/** What a broadcast achieves. Its loop test adds the waiters requeued and the waiters that came
    back, so a waiter that is both counts twice. As long as no wait fails, a broadcast that ends
    without an error has served all waiters exactly if f2 is held across the loop (-l), there is
    one waiter only, or the iteration limit lets no broadcast end without an error. */
module RequeuePiBroadcast {
  import opened Words
  import opened Sets
  import opened RequeuePi
  import opened RequeuePiSafety
  import opened RequeuePiDrain
  import opened RequeuePiReach

  predicate NoWaitFails(es: seq<Event>) {
    forall e <- es :: !e.WaiterFails?
  }

  // ---------------------------------------------------------------- invariant

  /** A waiter leaves f1 only by being requeued, and while the waker holds f2 it stays queued there. */
  predicate Placed(s: State, t: nat)
    requires t < |s.ws|
  {
    Past(s.ws[t].pc) ==> t in s.moved && (KOwns(s.cfg, s.waker.pc) ==> s.ws[t].pc == OnF2)
  }

  predicate WakerServes(s: State) {
    var (k, n) := (s.waker, s.cfg.n);
    && (k.pc in {Spin, KLock, KLockWait} ==> k.i == 0)
    && (BeforeCall(k.pc) && k.i == 0 ==> s.moved == {})
    && (k.pc in {ReadF1, Requeue} ==> |s.moved| < n)
    && (k.pc == Retest ==> 1 <= k.i && (s.last == 0 ==> |s.moved| < n) && (k.i == 1 ==> |s.moved| == s.last))
    && (k.pc in {WakeDone, FinalUnlock, KExit} && !s.failed && !s.limited ==> EndsWell(s))
  }

  /** What an end without error says of the waiters and of the last call. */
  predicate EndsWell(s: State) {
    && 2 <= s.cfg.max
    && (s.cfg.lock || s.cfg.n == 1 ==> |s.moved| == s.cfg.n)
    && (s.last == 0 ==> !s.cfg.lock && 2 <= s.cfg.n && 3 <= s.cfg.max)
  }

  predicate ServeInv(s: State) {
    && Inv(s) && s.cfg.broadcast && WakerServes(s)
    && forall t :: 0 <= t < |s.ws| ==> Placed(s, t)
  }

  /** The waker gets f2 only before its first call. */
  lemma OwnsRises(s: State, e: Event)
    requires Modes(s) && s.cfg.broadcast && Enabled(s, e) && !KOwns(s.cfg, s.waker.pc)
    ensures KOwns(s.cfg, Apply(s, e).waker.pc) ==> s.waker.pc in {Spin, KLock, KLockWait}
  {
    if !ByWaker(e) {
      hide Apply;
      OthersPushWaker(s, e);
    }
  }

  /** While the waker holds f2 and nobody has it behind him, f2 is not passed on. */
  lemma HeldStays(s: State, e: Event, t: nat)
    requires ServeInv(s) && Enabled(s, e) && !e.WaiterFails? && !e.WakerRequeues?
    requires KOwns(s.cfg, s.waker.pc) && t < |s.ws| && Past(s.ws[t].pc)
    ensures KOwns(s.cfg, Apply(s, e).waker.pc) ==> Apply(s, e).ws[t] == s.ws[t]
  {
    hide Counts, WakerInv, ResultsInv, WakerServes, SpinInv;
    assert Believes(s, |s.ws|) && Placed(s, t);
    assert !Believes(s, |s.ws| + 1);
    if ByWaiter(e) {
      assert Placed(s, e.t);
      assert !Past(s.ws[e.t].pc);
    }
  }

  lemma PlacedByOwn(s: State, e: Event)
    requires ServeInv(s) && Enabled(s, e) && ByWaiter(e) && !e.WaiterFails?
    ensures Placed(Apply(s, e), e.t)
  {
    hide Counts, WakerInv, ResultsInv, SpinInv, Ownership;
    assert Placed(s, e.t);
  }

  lemma PlacedByOther(s: State, e: Event, t: nat)
    requires ServeInv(s) && Enabled(s, e) && !e.WaiterFails? && !e.WakerRequeues?
    requires t < |s.ws| && (ByWaiter(e) ==> e.t != t)
    ensures Placed(Apply(s, e), t)
  {
    assert Placed(s, t);
    OthersPush(s, e, t);
    MovedOnlyByRequeue(s, e, t);
    if Past(s.ws[t].pc) {
      if KOwns(s.cfg, s.waker.pc) {
        HeldStays(s, e, t);
      } else {
        OwnsRises(s, e);
      }
    }
    hide Apply, Enabled, Inv;
  }

  lemma PlacedByRequeue(s: State, first: Heir, rest: set<nat>, ok: bool, t: nat)
    requires ServeInv(s) && RequeueOk(s, first, rest, ok) && t < |s.ws|
    ensures Placed(RunRequeue(s, first, rest, ok), t)
  {
    hide Counts, WakerInv, ResultsInv, SpinInv, RunRequeue, WakerServes;
    assert Placed(s, t);
    assert Believes(s, |s.ws|) <==> s.owner == By(|s.ws|);
    RequeuePushes(s, first, rest, ok, t);
    assert t in rest ==> InF1(s, t);
  }

  /** Those that came back have been requeued, and while the waker holds f2 nobody comes back. */
  lemma CountedAreMoved(s: State)
    requires ServeInv(s)
    ensures CountedSet(s) <= s.moved && s.woken == |CountedSet(s)| <= |s.moved|
    ensures KOwns(s.cfg, s.waker.pc) ==> s.woken == 0
    ensures |s.moved| <= s.cfg.n
  {
    hide Ownership, WakerInv, ResultsInv, SpinInv, WakerServes;
    forall t <- CountedSet(s) ensures t in s.moved && !KOwns(s.cfg, s.waker.pc) {
      assert Placed(s, t);
    }
    assert KOwns(s.cfg, s.waker.pc) ==> CountedSet(s) == {};
    SubsetSize(CountedSet(s), s.moved);
    FullSize(s.moved, s.cfg.n);
  }

  lemma RunServes(s: State)
    requires WakerServes(s) && WakerInv(s) && WakerMode(s) && CanWake(s) && s.cfg.broadcast && 1 <= s.cfg.n
    requires 0 <= s.woken <= |s.moved| <= s.cfg.n && (KOwns(s.cfg, s.waker.pc) ==> s.woken == 0)
    ensures WakerServes(RunWaker(s))
  {
  }

  lemma RequeueServes(s: State, first: Heir, rest: set<nat>, ok: bool)
    requires WakerServes(s) && WakerInv(s) && s.waker.pc == Requeue && s.cfg.broadcast
    requires |s.moved + Taken(first, rest)| == |s.moved| + |Taken(first, rest)|
    ensures WakerServes(RunRequeue(s, first, rest, ok))
  {
    hide Take, Moved, Taken;
  }

  lemma UnlockServes(s: State, heir: Heir)
    requires ServeInv(s) && Enabled(s, WakerUnlocks(heir))
    ensures WakerServes(Apply(s, WakerUnlocks(heir)))
  {
    hide Take, Release, Ownership, Counts, ResultsInv, SpinInv;
    assert WakerServes(LeaveWaker(s));
    ReleasePushes(LeaveWaker(s), |s.ws|, heir, 0);
  }

  lemma WakerServesKept(s: State, e: Event)
    requires ServeInv(s) && Enabled(s, e)
    ensures WakerServes(Apply(s, e))
  {
    hide RunRequeue, RunWaker, Counts, Ownership, ResultsInv, Release;
    if e.WakerRequeues? {
      RequeueMoves(s, e.first, e.rest, e.ok);
      RequeueServes(s, e.first, e.rest, e.ok);
    } else if e.WakerRuns? {
      CountedAreMoved(s);
      RunServes(s);
    } else if e.WakerUnlocks? {
      UnlockServes(s, e.heir);
    } else {
      hide Apply;
      OthersPushWaker(s, e);
    }
  }

  lemma ServeKept(s: State, e: Event)
    requires ServeInv(s) && Enabled(s, e) && !e.WaiterFails?
    ensures ServeInv(Apply(s, e))
  {
    InvKept(s, e);
    WakerServesKept(s, e);
    forall t | 0 <= t < |s.ws| ensures Placed(Apply(s, e), t) {
      if e.WakerRequeues? {
        PlacedByRequeue(s, e.first, e.rest, e.ok, t);
      } else if ByWaiter(e) && e.t == t {
        PlacedByOwn(s, e);
      } else {
        PlacedByOther(s, e, t);
      }
    }
    hide Apply, Enabled, Inv, WakerServes, Placed;
  }

  lemma {:induction false} ServeOnRuns(s: State, es: seq<Event>)
    requires ServeInv(s) && Valid(s, es) && NoWaitFails(es)
    ensures ServeInv(Exec(s, es))
    decreases |es|
  {
    if es != [] {
      ServeKept(s, es[0]);
      ServeOnRuns(Apply(s, es[0]), es[1..]);
    }
  }

  /** A broadcast in which no wait fails, in every run: with -l its loop stops exactly when all
      waiters have been requeued, and an end without error means that all have been and that this
      is what it reports. */
  lemma LockedBroadcastServes(s0: State, cfg: Config, es: seq<Event>, s: State)
    requires Init(s0, cfg) && cfg.broadcast && Valid(s0, es) && NoWaitFails(es) && s == Exec(s0, es)
    ensures cfg.lock && s.waker.pc == Retest ==>
              (RunWaker(s).waker.pc == WakeDone <==> s.moved == Range(cfg.n))
    ensures cfg.lock && s.waker.pc == KExit && s.waker.ret >= 0 ==> s.moved == Range(cfg.n) && s.waker.ret == cfg.n
  {
    InitInv(s0, cfg);
    ServeOnRuns(s0, es);
    CountedAreMoved(s);
    LoopTestMeans(s);
    FullSize(s.moved, cfg.n);
    hide RunWaker, Range, Valid, Ownership, Counts, ResultsInv, CountedSet;
  }

  // ---------------------------------------------------------------- a broadcast that stops early

  /** Waiter 0, those between, the last waiter and the waker are at these positions. */
  predicate Stage(s: State, zero: WPc, middle: WPc, tail: WPc, k: KPc) {
    && 2 <= |s.ws| == s.cfg.n && s.cfg.broadcast
    && s.ws[0].pc == zero && (forall t :: 1 <= t < |s.ws| - 1 ==> s.ws[t].pc == middle) && s.ws[|s.ws| - 1].pc == tail
    && s.waker.pc == k
  }

  /** The last waiter announces itself, but does not queue yet. */
  lemma TailCalls(s: State)
    requires Inv(s) && Stage(s, OnF1, OnF1, Start, Spin)
    ensures var e := WaiterRuns(|s.ws| - 1);
            && Enabled(s, e) && Enabled(Apply(s, e), e)
            && var s' := Apply(Apply(s, e), e);
               Stage(s', OnF1, OnF1, Calling, Spin) && s'.owner == s.owner && s'.waker == s.waker
  {
    var t := |s.ws| - 1;
    assert RunWaiter(s, t).ws == s.ws[t := s.ws[t].(pc := Marking, oldVal := s.f1)];
  }

  lemma AllAnnounced(s: State)
    requires Counts(s) && Stage(s, OnF1, OnF1, Calling, Spin)
    ensures s.blocked == |s.ws|
  {
    hide Range;
    assert MarkedSet(s) == Range(|s.ws|);
    RangeSize(|s.ws|);
  }

  /** The waker finds all announced and comes to its call. */
  lemma WakerCalls(s: State)
    requires Inv(s) && Stage(s, OnF1, OnF1, Calling, Spin) && !s.cfg.lock
    ensures Enabled(s, WakerRuns) && Enabled(Apply(s, WakerRuns), WakerRuns)
    ensures var s' := Apply(Apply(s, WakerRuns), WakerRuns);
            Stage(s', OnF1, OnF1, Calling, Requeue) && s'.owner == s.owner && s'.waker.i == s.waker.i
  {
    AllAnnounced(s);
    hide Inv;
  }

  lemma AboutToCall(s: State)
    requires Inv(s) && s.waker.pc == Requeue
    ensures s.waker.oldVal == s.f1 && |s.ws| <= INT_MAX
  {
  }

  /** All waiters but the last are on f1. */
  lemma AllButLast(s: State)
    requires Stage(s, OnF1, OnF1, Calling, Requeue)
    ensures forall t <- Range(|s.ws| - 1) :: InF1(s, t)
    ensures |Range(|s.ws| - 1)| == |s.ws| - 1 && 0 in Range(|s.ws| - 1)
    ensures s.waker.pc == Requeue && s.cfg.broadcast
  {
    hide Range;
    RangeSize(|s.ws| - 1);
  }

  lemma CallAllowed(s: State)
    requires Stage(s, OnF1, OnF1, Calling, Requeue) && s.owner == Free && s.waker.oldVal == s.f1 && |s.ws| <= INT_MAX
    ensures RequeueOk(s, To(0), Range(|s.ws| - 1) - {0}, true)
    ensures Taken(To(0), Range(|s.ws| - 1) - {0}) == Range(|s.ws| - 1)
  {
    hide Stage, Range;
    AllButLast(s);
    assert Taken(To(0), Range(|s.ws| - 1) - {0}) == Range(|s.ws| - 1);
  }

  lemma CallMoves(s: State)
    requires Stage(s, OnF1, OnF1, Calling, Requeue)
    ensures var s' := Moved(s, To(0), Range(|s.ws| - 1) - {0});
            Stage(s', Granted, OnF2, Calling, Requeue) && s'.owner == By(0)
  {
  }

  /** What a broadcast's call below the limit does to the waker. */
  lemma CallReturns(s: State, first: Heir, rest: set<nat>)
    requires s.cfg.broadcast && s.waker.i + 1 < s.cfg.max
    ensures var s' := RunRequeue(s, first, rest, true);
            && s'.waker.pc == Retest && s'.waker.ret == |Taken(first, rest)| && s'.waker.i == s.waker.i + 1
            && s'.owner == Moved(s, first, rest).owner
  {
    hide Take, Moved, Taken;
  }

  /** The call takes all that are queued. */
  lemma CallTakes(s: State)
    requires Inv(s) && Stage(s, OnF1, OnF1, Calling, Requeue) && s.owner == Free
    requires s.waker.i == 0 && 2 <= s.cfg.max && s.moved == {}
    ensures var e := WakerRequeues(To(0), Range(|s.ws| - 1) - {0}, true);
            && Enabled(s, e)
            && var s' := Apply(s, e);
               && Stage(s', Granted, OnF2, Calling, Retest)
               && s'.moved == Range(|s.ws| - 1) && s'.waker.ret == |s.ws| - 1 && s'.waker.i == 1
  {
    hide Inv, Range, Moved, Take, Taken, RequeueOk, RunRequeue;
    AboutToCall(s);
    CallAllowed(s);
    CallMoves(s);
    CallReturns(s, To(0), Range(|s.ws| - 1) - {0});
    RangeSize(|s.ws| - 1);
  }

  /** Waiter 0 comes back and is counted. */
  lemma ZeroReturns(s: State)
    requires Stage(s, Granted, OnF2, Calling, Retest)
    ensures Enabled(s, WaiterRuns(0)) && Enabled(Apply(s, WaiterRuns(0)), WaiterRuns(0))
    ensures var s' := Apply(Apply(s, WaiterRuns(0)), WaiterRuns(0));
            Stage(s', Unlock, OnF2, Calling, Retest) && s'.moved == s.moved && s'.waker == s.waker
  {
    assert RunWaiter(s, 0).ws == s.ws[0 := s.ws[0].(pc := Woke, ret := 0, errno := NoError)];
  }

  lemma OneCounted(s: State)
    requires Counts(s) && 0 < |s.ws| && Counted(s.ws[0].pc)
    ensures s.woken >= 1
  {
    assert {0} <= CountedSet(s);
    SubsetSize({0}, CountedSet(s));
  }

  lemma NobodyCounted(s: State)
    requires Counts(s) && Stage(s, Granted, OnF2, Calling, Retest)
    ensures s.woken == 0
  {
    assert CountedSet(s) == {};
  }

  /** Counted as requeued and as woken, waiter 0 stands in for the last one: the waker leaves. */
  lemma WakerLeaves(s: State)
    requires Inv(s) && Stage(s, Unlock, OnF2, Calling, Retest) && s.moved == Range(|s.ws| - 1) && !s.cfg.lock
    ensures Enabled(s, WakerRuns) && Enabled(Apply(s, WakerRuns), WakerRuns)
    ensures var s' := Apply(Apply(s, WakerRuns), WakerRuns);
            && Stage(s', Unlock, OnF2, Calling, KExit) && s'.moved == s.moved
            && s'.waker.ret == FinalRet(s.cfg, s.waker)
  {
    hide Range, Take, Ownership, ResultsInv, SpinInv, Modes;
    RangeSize(|s.ws| - 1);
    assert s.waker.task == |s.ws| - 1;
    OneCounted(s);
    hide Inv;
  }

  /** Only now the last waiter queues. */
  lemma TailQueues(s: State)
    requires Inv(s) && Stage(s, Unlock, OnF2, Calling, KExit)
    ensures var e := WaiterRuns(|s.ws| - 1);
            && Enabled(s, e)
            && var s' := Apply(s, e);
               InF1(s', |s.ws| - 1) && SameCalls(s, s') && s'.waker == s.waker
  {
    hide Ownership, Counts, WakerInv, ResultsInv, SpinInv;
  }

  /** The waker tests before waiter 0 comes back, and calls again. */
  lemma WakerCallsAgain(s: State)
    requires Inv(s) && Stage(s, Granted, OnF2, Calling, Retest) && s.moved == Range(|s.ws| - 1)
    ensures Enabled(s, WakerRuns) && Enabled(Apply(s, WakerRuns), WakerRuns)
    ensures var s' := Apply(Apply(s, WakerRuns), WakerRuns);
            && Stage(s', Granted, OnF2, Calling, Requeue) && s'.moved == s.moved
            && s'.waker.i == s.waker.i
  {
    hide Range, Take, Ownership, ResultsInv, SpinInv, Modes;
    RangeSize(|s.ws| - 1);
    assert s.waker.task == |s.ws| - 1;
    NobodyCounted(s);
    hide Inv;
  }

  /** The second call finds nobody on f1. */
  lemma CallTakesNobody(s: State)
    requires Inv(s) && Stage(s, Granted, OnF2, Calling, Requeue) && s.waker.i == 1 && 3 <= s.cfg.max
    ensures var e := WakerRequeues(Nobody, {}, true);
            && Enabled(s, e)
            && var s' := Apply(s, e);
               Stage(s', Granted, OnF2, Calling, Retest) && s'.moved == s.moved && s'.waker.ret == 0
  {
    hide Ownership, Counts, WakerInv, ResultsInv, SpinInv;
    assert Taken(Nobody, {}) == {};
    assert ToF2(s, {}).ws == s.ws;
    assert s.moved + {} == s.moved;
  }

  lemma Then(s: State, es: seq<Event>, e: Event) returns (es': seq<Event>)
    requires Valid(s, es) && Enabled(Exec(s, es), e)
    ensures es' == es + [e] && Valid(s, es') && Exec(s, es') == Apply(Exec(s, es), e)
    ensures NoWaitFails(es) && !e.WaiterFails? ==> NoWaitFails(es')
    ensures Inv(s) ==> Inv(Exec(s, es'))
  {
    Extend(s, es, e);
    es' := es + [e];
    if Inv(s) {
      InvOnRuns(s, es');
    }
  }

  lemma AllButOne(s0: State, cfg: Config) returns (es: seq<Event>)
    requires Init(s0, cfg) && cfg.broadcast && 2 <= cfg.n
    ensures Valid(s0, es) && NoWaitFails(es) && Inv(s0) && Inv(Exec(s0, es))
    ensures var s := Exec(s0, es);
            && Stage(s, OnF1, OnF1, Start, Spin) && s.owner == Free && s.waker.i == 0
            && s0.cfg == cfg && |s0.ws| == cfg.n
  {
    hide Inv, Apply, Enabled, Valid, Exec;
    es := QueueAll(s0, cfg, cfg.n - 1);
    InitInv(s0, cfg);
    InvOnRuns(s0, es);
  }

  /** It goes on to the waker's test after a first call that took all waiters but the last. */
  lemma OneLate(s0: State, es0: seq<Event>) returns (es: seq<Event>)
    requires Valid(s0, es0) && NoWaitFails(es0) && Inv(s0) && Inv(Exec(s0, es0))
    requires 2 <= s0.cfg.n && 2 <= s0.cfg.max && !s0.cfg.lock
    requires var s := Exec(s0, es0);
             Stage(s, OnF1, OnF1, Start, Spin) && s.owner == Free && s.waker.i == 0 && |s.ws| == s.cfg.n
    ensures Valid(s0, es) && NoWaitFails(es) && Inv(Exec(s0, es))
    ensures var s := Exec(s0, es);
            && Stage(s, Granted, OnF2, Calling, Retest) && s.moved == Range(s0.cfg.n - 1)
            && s.waker.ret == s0.cfg.n - 1 && s.waker.i == 1 && 0 <= s.waker.task
  {
    hide Inv, Apply, Enabled, Valid, Exec, Stage, Range, NoWaitFails, RequeueOk;
    var n := s0.cfg.n;
    TailCalls(Exec(s0, es0));
    es := Then(s0, es0, WaiterRuns(n - 1));
    es := Then(s0, es, WaiterRuns(n - 1));
    WakerCalls(Exec(s0, es));
    es := Then(s0, es, WakerRuns);
    es := Then(s0, es, WakerRuns);
    NotMovedYet(Exec(s0, es));
    CallTakes(Exec(s0, es));
    es := Then(s0, es, WakerRequeues(To(0), Range(n - 1) - {0}, true));
    TaskCounts(Exec(s0, es));
  }

  lemma TaskCounts(s: State)
    requires Inv(s)
    ensures 0 <= s.waker.task
  {
  }

  lemma NotMovedYet(s: State)
    requires Inv(s) && Stage(s, OnF1, OnF1, Calling, Requeue)
    ensures s.moved == {}
  {
    if t :| t in s.moved {
      assert false;
    }
  }

  lemma ZeroCounted(s0: State, es0: seq<Event>) returns (es: seq<Event>)
    requires Valid(s0, es0) && NoWaitFails(es0) && Inv(s0) && Inv(Exec(s0, es0)) && !s0.cfg.lock
    requires Stage(Exec(s0, es0), Granted, OnF2, Calling, Retest) && Exec(s0, es0).moved == Range(s0.cfg.n - 1)
    ensures Valid(s0, es) && NoWaitFails(es) && Inv(Exec(s0, es))
    ensures var s := Exec(s0, es);
            && Stage(s, Unlock, OnF2, Calling, KExit) && s.waker.pc == KExit && s.moved == Range(s0.cfg.n - 1)
            && s.waker.ret == FinalRet(s0.cfg, Exec(s0, es0).waker)
  {
    hide Inv, Apply, Enabled, Valid;
    ZeroReturns(Exec(s0, es0));
    es := Then(s0, es0, WaiterRuns(0));
    es := Then(s0, es, WaiterRuns(0));
    WakerLeaves(Exec(s0, es));
    es := Then(s0, es, WakerRuns);
    es := Then(s0, es, WakerRuns);
  }

  lemma TailLate(s0: State, es0: seq<Event>) returns (es: seq<Event>)
    requires Valid(s0, es0) && NoWaitFails(es0)
    requires var s := Exec(s0, es0); Inv(s) && Stage(s, Unlock, OnF2, Calling, KExit) && 0 < |s.ws|
    ensures Valid(s0, es) && NoWaitFails(es)
    ensures var (s, s') := (Exec(s0, es0), Exec(s0, es));
            s'.waker == s.waker && SameCalls(s, s') && InF1(s', |s.ws| - 1)
  {
    hide Apply, Enabled, Valid, Exec, Inv, Stage, NoWaitFails;
    TailQueues(Exec(s0, es0));
    es := Then(s0, es0, WaiterRuns(|s0.ws| - 1));
  }

  lemma EndsWithoutError(s: State)
    requires Inv(s) && s.waker.pc == KExit && s.waker.ret >= 0
    ensures !s.failed && !s.limited
  {
  }

  /** Without -l, with two waiters or more and a limit above 1, a broadcast may leave a waiter behind:
      waiter 0 is requeued and comes back before the waker re-reads the counters, so it counts twice,
      and the waker leaves without an error before the last waiter queues. */
  lemma StopsEarly(s0: State, cfg: Config) returns (es: seq<Event>)
    requires Init(s0, cfg) && cfg.broadcast && !cfg.lock && 2 <= cfg.n && 2 <= cfg.max
    ensures Valid(s0, es) && NoWaitFails(es)
    ensures var s := Exec(s0, es);
            && s.waker.pc == KExit && s.waker.ret >= 0 && !s.failed && !s.limited
            && InF1(s, cfg.n - 1) && s.moved == Range(cfg.n - 1)
  {
    hide Apply, Enabled, Valid, Exec, Init, Inv, Range, Stage, NoWaitFails, RequeueOk;
    es := AllButOne(s0, cfg);
    es := OneLate(s0, es);
    es := ZeroCounted(s0, es);
    EndsWithoutError(Exec(s0, es));
    es := TailLate(s0, es);
  }

  /** Without -l, with two waiters or more and a limit above 2, a broadcast may report 0 although it
      has moved waiters: its second call moves nobody, and then waiter 0 comes back. */
  lemma ReportsZero(s0: State, cfg: Config) returns (es: seq<Event>)
    requires Init(s0, cfg) && cfg.broadcast && !cfg.lock && 2 <= cfg.n && 3 <= cfg.max
    ensures Valid(s0, es) && NoWaitFails(es)
    ensures var s := Exec(s0, es);
            && s.waker.pc == KExit && s.waker.ret == 0 && !s.failed && !s.limited
            && s.moved == Range(cfg.n - 1) && s.moved != {}
  {
    hide Apply, Enabled, Valid, Exec, Init, Inv, Range, Stage, NoWaitFails, RequeueOk;
    es := AllButOne(s0, cfg);
    es := OneLate(s0, es);
    WakerCallsAgain(Exec(s0, es));
    es := Then(s0, es, WakerRuns);
    es := Then(s0, es, WakerRuns);
    CallTakesNobody(Exec(s0, es));
    es := Then(s0, es, WakerRequeues(Nobody, {}, true));
    es := ZeroCounted(s0, es);
    EndsWithoutError(Exec(s0, es));
    assert 0 in Exec(s0, es).moved;
  }

  // ---------------------------------------------------------------- left behind

  lemma StaysBehind(s: State, e: Event, t: nat)
    requires s.waker.pc == KExit && InF1(s, t) && Enabled(s, e) && !(e.WaiterFails? && e.t == t)
    ensures Apply(s, e).waker.pc == KExit && InF1(Apply(s, e), t)
  {
    MovedOnlyByRequeue(s, e, t);
    OthersPushWaker(s, e);
  }

  /** Once the waker is gone, a waiter on f1 leaves it only if its own wait fails. */
  lemma {:induction false} LeftForever(s: State, es: seq<Event>, t: nat)
    requires s.waker.pc == KExit && InF1(s, t) && Valid(s, es)
    requires forall e <- es :: !(e.WaiterFails? && e.t == t)
    ensures InF1(Exec(s, es), t)
    decreases |es|
  {
    if es != [] {
      StaysBehind(s, es[0], t);
      LeftForever(Apply(s, es[0]), es[1..], t);
    }
  }

  // ---------------------------------------------------------------- exactly when

  function StartState(cfg: Config): (s: State)
    requires 1 <= cfg.n <= INT_MAX && 1 <= cfg.max
    ensures Init(s, cfg)
  {
    State(cfg, 0, Free, seq(cfg.n, _ => Waiter(Start, 0, 0, NoError)), Waker(Spin, 0, 0, 0, 0),
          Blocker(if cfg.third then BLock else Absent, 0, false), 0, 0, {}, {}, 0, 0, false, false)
  }

  /** In no run without a failed wait does the broadcast end without error and with a waiter not requeued. */
  ghost predicate ServesAll(cfg: Config) {
    forall s0, es :: Init(s0, cfg) && Valid(s0, es) && NoWaitFails(es) ==>
      var s := Exec(s0, es); s.waker.pc == KExit && s.waker.ret >= 0 ==> s.moved == Range(cfg.n)
  }

  /** ... does it end without error and report another number than it requeued. */
  ghost predicate ReportsAll(cfg: Config) {
    forall s0, es :: Init(s0, cfg) && Valid(s0, es) && NoWaitFails(es) ==>
      var s := Exec(s0, es); s.waker.pc == KExit && s.waker.ret >= 0 ==> s.waker.ret == |s.moved|
  }

  lemma EndMeans(s0: State, cfg: Config, es: seq<Event>, s: State)
    requires Init(s0, cfg) && cfg.broadcast && Valid(s0, es) && NoWaitFails(es) && s == Exec(s0, es)
    requires s.waker.pc == KExit && s.waker.ret >= 0
    ensures 2 <= cfg.max && (cfg.lock || cfg.n == 1 ==> s.moved == Range(cfg.n))
    ensures cfg.lock || cfg.n == 1 || cfg.max <= 2 ==> s.waker.ret == |s.moved|
  {
    InitInv(s0, cfg);
    ServeOnRuns(s0, es);
    CountedAreMoved(s);
    FullSize(s.moved, cfg.n);
    hide Range, Valid, Ownership, Counts, ResultsInv;
  }

  /** A broadcast is for all waiters, exactly: without failed waits it never ends well with a waiter
      not requeued if and only if -l is given, there is one waiter only, or the limit is 1. */
  lemma BroadcastServesAllIff(cfg: Config)
    requires 1 <= cfg.n <= INT_MAX && 1 <= cfg.max && cfg.broadcast
    ensures ServesAll(cfg) <==> cfg.lock || cfg.n == 1 || cfg.max == 1
  {
    if cfg.lock || cfg.n == 1 || cfg.max == 1 {
      forall s0, es | Init(s0, cfg) && Valid(s0, es) && NoWaitFails(es)
        && Exec(s0, es).waker.pc == KExit && Exec(s0, es).waker.ret >= 0
        ensures Exec(s0, es).moved == Range(cfg.n)
      {
        EndMeans(s0, cfg, es, Exec(s0, es));
      }
    } else {
      var s0 := StartState(cfg);
      var es := StopsEarly(s0, cfg);
      assert cfg.n - 1 !in Exec(s0, es).moved && cfg.n - 1 in Range(cfg.n);
    }
    hide Init, Valid, Exec, Range;
  }

  /** It reports the number of waiters it requeued, exactly: if and only if -l is given, there is
      one waiter only, or the limit allows no second call before the end. */
  lemma BroadcastReportsAllIff(cfg: Config)
    requires 1 <= cfg.n <= INT_MAX && 1 <= cfg.max && cfg.broadcast
    ensures ReportsAll(cfg) <==> cfg.lock || cfg.n == 1 || cfg.max <= 2
  {
    if cfg.lock || cfg.n == 1 || cfg.max <= 2 {
      forall s0, es | Init(s0, cfg) && Valid(s0, es) && NoWaitFails(es)
        && Exec(s0, es).waker.pc == KExit && Exec(s0, es).waker.ret >= 0
        ensures Exec(s0, es).waker.ret == |Exec(s0, es).moved|
      {
        EndMeans(s0, cfg, es, Exec(s0, es));
      }
    } else {
      var s0 := StartState(cfg);
      var es := ReportsZero(s0, cfg);
      assert |Exec(s0, es).moved| != 0;
    }
    hide Init, Valid, Exec, Range;
  }
}
