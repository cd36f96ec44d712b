/** Every run of the requeue-PI test is finite, whatever fails, times out or returns by itself, and
    it cannot end before all threads have exited. */
module RequeuePiRuns {
  import opened Sums
  import opened Sets
  import opened RequeuePi
  import opened RequeuePiSafety

  // ---------------------------------------------------------------- ranks

  function WaiterRank(pc: WPc): nat {
    match pc
    case Start => 10
    case Marking => 9
    case Calling => 8
    case OnF1 => 7
    case OnF2 => 6
    case Granted => 5
    case Woke => 4
    case Relock => 3
    case LockWait => 2
    case Unlock => 1
    case Exit => 0
  }

  function WaiterRanks(s: State): seq<int> {
    seq(|s.ws|, t requires 0 <= t < |s.ws| => WaiterRank(s.ws[t].pc))
  }

  function BlockerRank(s: State): nat {
    match s.blocker.pc
    case BLock => 5
    case BLockWait => 4
    case BWait => 3
    case BAsleep => 2
    case BUnlock => 1
    case Absent => 0
    case BExit => 0
  }

  /** Steps of the waker to the end, `rounds` calls after this one included. */
  function RoundsRank(pc: KPc, rounds: int): int {
    match pc
    case KExit => 0
    case FinalUnlock => 1
    case WakeDone => 2
    case Spin => 18 + 7 * rounds
    case LoopTest => 17 + 7 * rounds
    case KLock => 16 + 7 * rounds
    case KLockWait => 15 + 7 * rounds
    case ReadF1 => 14 + 7 * rounds
    case Requeue => 13 + 7 * rounds
    case Retest => 19 + 7 * rounds
    case KUnlock => 19 + 7 * rounds
  }

  function CallsRank(s: State): int {
    RoundsRank(s.waker.pc, CallLimit(s.cfg) - s.calls)
  }

  function Total(s: State): int {
    Sum(WaiterRanks(s)) + CallsRank(s) + BlockerRank(s)
  }

  lemma ActorGoesDown(s: State, e: Event)
    requires Enabled(s, e) && ByWaiter(e)
    ensures e.t < |s.ws| && WaiterRank(Apply(s, e).ws[e.t].pc) < WaiterRank(s.ws[e.t].pc)
  {
    hide Release;
    if e.WaiterUnlocks? {
      ReleasePushes(SetPc(s, e.t, Exit), e.t, e.heir, e.t);
    }
  }

  lemma WaitersGoDown(s: State, e: Event)
    requires Enabled(s, e)
    ensures Sum(WaiterRanks(Apply(s, e))) <= Sum(WaiterRanks(s)) - if ByWaiter(e) then 1 else 0
  {
    hide Apply, Enabled;
    var s' := Apply(s, e);
    var r, r' := WaiterRanks(s), WaiterRanks(s');
    forall t | 0 <= t < |s.ws| ensures r'[t] <= r[t] {
      if ByWaiter(e) && e.t == t {
        ActorGoesDown(s, e);
      } else {
        OthersPush(s, e, t);
      }
    }
    if ByWaiter(e) {
      ActorGoesDown(s, e);
      SumDrop(r, r', e.t, 1);
    } else {
      SumMonotone(r, r');
    }
  }

  lemma ReleaseGoesDown(s: State, me: nat, heir: Heir)
    requires heir.To? ==> Queued(s, heir.id)
    ensures BlockerRank(Release(s, me, heir)) <= BlockerRank(s)
  {
  }

  lemma BlockerGoesDown(s: State, e: Event)
    requires Enabled(s, e)
    ensures BlockerRank(Apply(s, e)) <= BlockerRank(s) - if ByWaiter(e) || ByWaker(e) then 0 else 1
  {
    hide Release, RunWaiter, RunRequeue, RunWaker, Taken;
    match e
    case WaiterUnlocks(t, heir) => ReleaseGoesDown(SetPc(s, t, Exit), t, heir);
    case WakerUnlocks(heir) => ReleaseGoesDown(LeaveWaker(s), |s.ws|, heir);
    case BlockerUnlocks(heir) => ReleaseGoesDown(LeaveBlocker(s), |s.ws| + 1, heir);
    case WakerRequeues(first, rest, ok) => FirstIsWaiter(s, first, rest, ok);
    case WaiterRuns(_) =>
    case WaiterFails(_, _) =>
    case WakerRuns =>
    case BlockerRuns =>
    case BlockerReturns =>
    case BlockerFails =>
  }

  // ---------------------------------------------------------------- every run is finite

  lemma RequeueCounts(s: State, first: Heir, rest: set<nat>, ok: bool)
    requires s.waker.pc == Requeue && s.calls <= CallLimit(s.cfg)
    ensures CallsRank(RunRequeue(s, first, rest, ok)) < CallsRank(s)
  {
    hide Take, Moved, Taken;
  }

  lemma RunCounts(s: State)
    requires CanWake(s) && s.calls <= CallLimit(s.cfg)
    ensures CallsRank(RunWaker(s)) < CallsRank(s)
  {
  }

  lemma UnlockCounts(s: State, heir: Heir)
    requires 0 < |s.ws| && s.calls <= CallLimit(s.cfg) && Enabled(s, WakerUnlocks(heir))
    ensures CallsRank(Apply(s, WakerUnlocks(heir))) < CallsRank(s)
  {
    hide Take, Release;
    assert CallsRank(LeaveWaker(s)) < CallsRank(s);
    ReleasePushes(LeaveWaker(s), |s.ws|, heir, 0);
  }

  lemma CallsGoDown(s: State, e: Event)
    requires Inv(s) && Enabled(s, e)
    ensures CallsRank(Apply(s, e)) <= CallsRank(s) - if ByWaker(e) then 1 else 0
  {
    hide RunRequeue, RunWaker, Release, Ownership, Counts, ResultsInv;
    if e.WakerRequeues? {
      RequeueCounts(s, e.first, e.rest, e.ok);
    } else if e.WakerUnlocks? {
      UnlockCounts(s, e.heir);
    } else if e.WakerRuns? {
      RunCounts(s);
    } else {
      hide Apply;
      OthersPushWaker(s, e);
    }
  }

  lemma StepDecreases(s: State, e: Event)
    requires Inv(s) && Enabled(s, e)
    ensures Total(Apply(s, e)) < Total(s)
  {
    hide Apply, Enabled, Inv;
    WaitersGoDown(s, e);
    CallsGoDown(s, e);
    BlockerGoesDown(s, e);
  }

  lemma TotalNonNegative(s: State)
    requires Inv(s)
    ensures Total(s) >= 0
  {
    hide Ownership, Counts, ResultsInv;
    SumBounds(WaiterRanks(s), 10);
  }

  lemma {:induction false} RunLength(s: State, es: seq<Event>)
    requires Inv(s) && Valid(s, es)
    ensures Inv(Exec(s, es)) && |es| + Total(Exec(s, es)) <= Total(s)
    decreases |es|
  {
    if es != [] {
      InvKept(s, es[0]);
      StepDecreases(s, es[0]);
      RunLength(Apply(s, es[0]), es[1..]);
    }
  }

  /** No run is longer than 10N + 7C + 23 events, C being the limit of requeue calls. */
  lemma RunBounded(s0: State, cfg: Config, es: seq<Event>)
    requires Init(s0, cfg) && Valid(s0, es)
    ensures |es| <= 10 * cfg.n + 7 * CallLimit(cfg) + 23
  {
    InitInv(s0, cfg);
    RunLength(s0, es);
    TotalNonNegative(Exec(s0, es));
    SumConst(WaiterRanks(s0), 10);
  }

  // ---------------------------------------------------------------- and ends with all threads through

  predicate AllExited(s: State) {
    && (forall t :: 0 <= t < |s.ws| ==> s.ws[t].pc == Exit)
    && s.waker.pc == KExit && s.blocker.pc in {Absent, BExit}
  }

  lemma SomeHeir(s: State, me: nat) returns (heir: Heir)
    requires s.owner == By(me)
    ensures HeirOk(s, me, heir)
  {
    if id :| 0 <= id < |s.ws| + 2 && Queued(s, id) {
      heir := To(id);
    } else {
      heir := Nobody;
    }
  }

  /** A waiter that is not queued in futex_lock_pi can run, unlock or have its wait fail. */
  lemma WaiterCanGoOn(s: State, t: nat) returns (e: Event)
    requires Ownership(s) && t < |s.ws| && s.ws[t].pc !in {LockWait, Exit}
    ensures Enabled(s, e)
  {
    if s.ws[t].pc in {OnF1, OnF2} {
      e := WaiterFails(t, false);
    } else if s.ws[t].pc == Unlock {
      assert Believes(s, t);
      var heir := SomeHeir(s, t);
      e := WaiterUnlocks(t, heir);
    } else {
      e := WaiterRuns(t);
    }
  }

  lemma WakerCanGoOn(s: State) returns (e: Event)
    requires Inv(s) && s.waker.pc !in {KLockWait, KExit}
    ensures Enabled(s, e)
  {
    hide WakerInv, SpinInv, ResultsInv;
    if s.waker.pc == Requeue {
      assert Taken(Nobody, {}) == {};
      e := WakerRequeues(Nobody, {}, false);
    } else if s.waker.pc in {KUnlock, FinalUnlock} {
      assert Believes(s, |s.ws|);
      var heir := SomeHeir(s, |s.ws|);
      e := WakerUnlocks(heir);
    } else if CanWake(s) {
      e := WakerRuns;
    } else {
      var t := Unannounced(s);
      e := WaiterRuns(t);
    }
  }

  /** A spinning waker waits for a waiter that can run. */
  lemma Unannounced(s: State) returns (t: nat)
    requires Counts(s) && s.blocked < |s.ws|
    ensures t < |s.ws| && s.ws[t].pc in {Start, Marking}
  {
    if forall u :: 0 <= u < |s.ws| ==> Marked(s.ws[u].pc) {
      assert MarkedSet(s) == Range(|s.ws|);
      RangeSize(|s.ws|);
    }
    t :| 0 <= t < |s.ws| && !Marked(s.ws[t].pc);
  }

  lemma BlockerCanGoOn(s: State) returns (e: Event)
    requires Ownership(s) && s.blocker.pc !in {Absent, BLockWait, BExit}
    ensures Enabled(s, e)
  {
    if s.blocker.pc == BUnlock {
      assert Believes(s, |s.ws| + 1);
      var heir := SomeHeir(s, |s.ws| + 1);
      e := BlockerUnlocks(heir);
    } else if s.blocker.pc == BAsleep {
      e := BlockerReturns;
    } else {
      e := BlockerRuns;
    }
  }

  /** Until all threads have exited some event is possible: nothing but a call that does not come
      back can hold the test up. */
  lemma CanGoOn(s: State) returns (e: Event)
    requires Inv(s) && !AllExited(s)
    ensures Enabled(s, e)
  {
    hide Modes, Counts, WakerInv, SpinInv, ResultsInv, Enabled;
    if t :| 0 <= t < |s.ws| && s.ws[t].pc !in {LockWait, Exit} {
      e := WaiterCanGoOn(s, t);
    } else if s.waker.pc !in {KLockWait, KExit} {
      e := WakerCanGoOn(s);
    } else if s.blocker.pc !in {Absent, BLockWait, BExit} {
      e := BlockerCanGoOn(s);
    } else {
      assert s.owner.By? ==> Believes(s, s.owner.id);
      SomebodyQueued(s);
    }
  }

  lemma SomebodyQueued(s: State)
    requires !AllExited(s) && s.waker.pc in {KLockWait, KExit} && s.blocker.pc in {Absent, BLockWait, BExit}
    requires forall t :: 0 <= t < |s.ws| ==> s.ws[t].pc in {LockWait, Exit}
    ensures exists id :: 0 <= id < |s.ws| + 2 && Queued(s, id)
  {
    if s.waker.pc == KLockWait {
      assert Queued(s, |s.ws|);
    } else if s.blocker.pc == BLockWait {
      assert Queued(s, |s.ws| + 1);
    } else {
      var t :| 0 <= t < |s.ws| && s.ws[t].pc != Exit;
      assert Queued(s, t);
    }
  }

  lemma ExitedStops(s: State, e: Event)
    requires AllExited(s)
    ensures !Enabled(s, e)
  {
  }

  /** A run that cannot be continued has let all threads exit, and conversely. */
  lemma StuckMeans(s0: State, cfg: Config, es: seq<Event>, s: State)
    requires Init(s0, cfg) && Valid(s0, es) && s == Exec(s0, es)
    ensures AllExited(s) <==> forall e :: !Enabled(s, e)
  {
    InitInv(s0, cfg);
    InvOnRuns(s0, es);
    hide Inv, Init, Valid, AllExited, Enabled;
    if AllExited(s) {
      forall e ensures !Enabled(s, e) {
        ExitedStops(s, e);
      }
    } else {
      var e := CanGoOn(s);
    }
  }
}
