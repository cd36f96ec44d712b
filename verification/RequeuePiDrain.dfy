/** When the requeue-PI test drains: every waiter is queued on f1 before the first requeue, no
    call fails or times out, requeues take as many waiters as they may, and the third party,
    if there is one, is asleep when the waker wakes it. */
module RequeuePiDrain {
  import opened Words
  import opened Sums
  import opened Sets
  import opened RequeuePi
  import opened RequeuePiSafety
  import opened RequeuePiRuns

  function Min(a: nat, b: nat): nat {
    if a < b then a else b
  }

  /** No call fails, none returns without cause, and a requeue takes as many as it may. */
  predicate Quiet(s: State, e: Event) {
    && Enabled(s, e)
    && match e
       case WaiterFails(_, _) => false
       case BlockerReturns => false
       case BlockerFails => false
       case WakerRequeues(first, rest, ok) => ok && |Taken(first, rest)| == Min(1 + NrRequeue(s.cfg), |OnF1Set(s)|)
       case _ => true
  }

  /** An event of an undisturbed run: quiet, and the waker's wake is not too early for the third party. */
  predicate Calm(s: State, e: Event) {
    Quiet(s, e) && (e == WakerRuns && s.waker.pc == WakeDone ==> s.blocker.pc in {Absent, BAsleep})
  }

  /** A run whose events are all quiet, respectively calm. */
  predicate QuietRun(s: State, es: seq<Event>): (quiet: bool)
    ensures quiet ==> Valid(s, es)
    decreases |es|
  {
    es == [] || (Quiet(s, es[0]) && QuietRun(Apply(s, es[0]), es[1..]))
  }

  predicate CalmRun(s: State, es: seq<Event>): (calm: bool)
    ensures calm ==> QuietRun(s, es)
    decreases |es|
  {
    es == [] || (Calm(s, es[0]) && CalmRun(Apply(s, es[0]), es[1..]))
  }

  /** All waiters queued, no requeue made yet; the third party may be anywhere up to its sleep. */
  predicate Ready(s: State) {
    && Inv(s) && s.calls == 0
    && (forall t :: 0 <= t < |s.ws| ==> s.ws[t].pc == OnF1)
    && s.waker.pc in {Spin, LoopTest, KLock, KLockWait, ReadF1, Requeue}
    && s.blocker.pc in {Absent, BLock, BLockWait, BWait, BAsleep} && s.blocker.ret == 0
  }

  /** Everybody is through: each waiter got f2 and left without error, f2 is free, and the waker
      made one call (broadcast) or N (signal) and reports N. */
  predicate Completed(s: State) {
    && s.owner == Free
    && (forall t :: 0 <= t < |s.ws| ==> s.ws[t].pc == Exit && s.ws[t].ret == 0 && t in s.owned)
    && s.waker.pc == KExit && s.waker.ret == s.cfg.n
    && s.blocker.pc in {Absent, BExit} && s.blocker.ret == 0
    && s.calls == if s.cfg.broadcast then 1 else s.cfg.n
  }

  // ---------------------------------------------------------------- invariant of calm runs

  predicate WaiterDrains(s: State, t: nat)
    requires t < |s.ws|
  {
    var w := s.ws[t];
    if t !in s.moved then w.pc == OnF1
    else
      && w.pc in {OnF2, Granted, Woke, Unlock, Exit}
      && (w.pc in {Woke, Unlock, Exit} ==> w.ret == 0)
      && (w.pc != OnF2 ==> t in s.owned)
  }

  predicate WakerDrains(s: State) {
    var (pc, m) := (s.waker.pc, |s.moved|);
    && !s.failed && !s.limited && m <= s.cfg.n
    && s.calls == (if !s.cfg.broadcast then m else if m == 0 then 0 else 1)
    && (pc in {KLock, KLockWait, ReadF1, Requeue} ==> m < s.cfg.n && (s.cfg.broadcast ==> m == 0))
    && (pc == Spin ==> m == 0)
    && (pc in {Retest, WakeDone, FinalUnlock, KExit} ==> m == s.cfg.n)
    && (s.cfg.broadcast && pc in {Retest, WakeDone, FinalUnlock} ==> s.waker.ret > 0)
    && (pc == KExit ==> s.waker.ret == s.cfg.n)
  }

  predicate BlockerDrains(s: State) {
    && s.blocker.ret == 0
    && (s.blocker.pc in {BUnlock, BExit} ==> s.waker.pc in {FinalUnlock, KExit})
    && (s.waker.pc in {FinalUnlock, KExit} ==> s.blocker.pc in {Absent, BUnlock, BExit})
  }

  predicate DrainInv(s: State) {
    && Inv(s) && (s.cfg.broadcast ==> 2 <= s.cfg.max)
    && (forall t :: 0 <= t < |s.ws| ==> WaiterDrains(s, t))
    && WakerDrains(s) && BlockerDrains(s)
  }

  lemma ReadyDrains(s: State)
    requires Ready(s) && (s.cfg.broadcast ==> 2 <= s.cfg.max)
    ensures DrainInv(s) && s.moved == {}
  {
    assert forall t <- s.moved :: InF1(s, t);
    assert s.moved == {};
  }

  /** The waiters on f1 are exactly those not moved; nobody is counted that was not moved. */
  lemma OnF1IsRest(s: State)
    requires DrainInv(s)
    ensures OnF1Set(s) == Range(s.cfg.n) - s.moved && |OnF1Set(s)| == s.cfg.n - |s.moved|
    ensures 0 <= s.woken <= |s.moved| && s.blocked == s.cfg.n
  {
    hide Ownership, WakerInv, WakerDrains, ResultsInv, BlockerDrains, Range;
    forall t | 0 <= t < |s.ws|
      ensures s.ws[t].pc == OnF1 <==> t !in s.moved
      ensures Marked(s.ws[t].pc) && (Counted(s.ws[t].pc) ==> t in s.moved)
    {
      assert WaiterDrains(s, t);
    }
    hide WaiterDrains;
    assert CountedSet(s) <= s.moved;
    assert MarkedSet(s) == Range(s.cfg.n);
    assert OnF1Set(s) == Range(s.cfg.n) - s.moved;
    assert s.moved <= Range(s.cfg.n);
    SizesOf(s.moved, OnF1Set(s), CountedSet(s), s.cfg.n);
  }

  lemma SizesOf(moved: set<nat>, rest: set<nat>, counted: set<nat>, n: nat)
    requires moved <= Range(n) && rest == Range(n) - moved && counted <= moved
    ensures |rest| == n - |moved| && |counted| <= |moved| && |Range(n)| == n
  {
    RangeSize(n);
    assert Range(n) == moved + rest;
    UnionSize(moved, rest);
    SubsetSize(counted, moved);
  }

  /** Whoever is made owner is recorded, and nobody is struck out. */
  predicate Recorded(s: State, s': State, t: nat)
    requires t < |s.ws| == |s'.ws|
  {
    && s.owned <= s'.owned
    && (s'.ws[t].pc in {Granted, Unlock} && s.ws[t].pc !in {Granted, Unlock, Woke, Relock} ==> t in s'.owned)
  }

  lemma ReleaseRecords(s: State, me: nat, heir: Heir, t: nat)
    requires t < |s.ws|
    ensures Recorded(s, Release(s, me, heir), t)
  {
  }

  lemma RequeueRecords(s: State, first: Heir, rest: set<nat>, ok: bool, t: nat)
    requires RequeueOk(s, first, rest, ok) && t < |s.ws|
    ensures Recorded(s, RunRequeue(s, first, rest, ok), t)
  {
    hide RunRequeue, Moved, RequeueOk;
    MovedRecords(s, first, rest, t);
  }

  lemma MovedRecords(s: State, first: Heir, rest: set<nat>, t: nat)
    requires t < |s.ws|
    ensures Recorded(s, Moved(s, first, rest), t)
  {
  }

  lemma OwnersRecorded(s: State, e: Event, t: nat)
    requires Enabled(s, e) && t < |s.ws|
    ensures Recorded(s, Apply(s, e), t)
  {
    hide Release, Moved, RunRequeue;
    match e
    case WaiterUnlocks(u, heir) => ReleaseRecords(SetPc(s, u, Exit), u, heir, t);
    case WakerUnlocks(heir) => ReleaseRecords(LeaveWaker(s), |s.ws|, heir, t);
    case BlockerUnlocks(heir) => ReleaseRecords(LeaveBlocker(s), |s.ws| + 1, heir, t);
    case WakerRequeues(first, rest, ok) => RequeueRecords(s, first, rest, ok, t);
    case WaiterRuns(_) =>
    case WaiterFails(_, _) =>
    case WakerRuns =>
    case BlockerRuns =>
    case BlockerReturns =>
    case BlockerFails =>
  }

  lemma CalmWaiter(s: State, e: Event)
    requires DrainInv(s) && Calm(s, e) && ByWaiter(e)
    ensures WaiterDrains(Apply(s, e), e.t)
  {
    assert WaiterDrains(s, e.t);
    OwnersRecorded(s, e, e.t);
    if e.WaiterUnlocks? {
      ReleasePushes(SetPc(s, e.t, Exit), e.t, e.heir, e.t);
    }
  }

  /** A waiter pushed by others drains, if it left f1 exactly by being taken. */
  lemma PushedDrains(s: State, s': State, t: nat, taken: bool)
    requires t < |s.ws| == |s'.ws| && WaiterDrains(s, t)
    requires Pushed(s.ws[t], s'.ws[t]) && Recorded(s, s', t)
    requires t in s'.moved <==> t in s.moved || taken
    requires if taken then s.ws[t].pc == OnF1 && s'.ws[t] != s.ws[t] else s.ws[t].pc == OnF1 ==> s'.ws[t] == s.ws[t]
    ensures WaiterDrains(s', t)
  {
  }

  lemma CalmOther(s: State, e: Event, t: nat)
    requires DrainInv(s) && Calm(s, e) && t < |s.ws| && (ByWaiter(e) ==> e.t != t)
    ensures WaiterDrains(Apply(s, e), t)
  {
    hide Inv, RunRequeue, RequeueOk, Take, Release, RunWaiter, RunWaker, RunBlocker;
    assert WaiterDrains(s, t);
    hide WaiterDrains;
    if e.WakerRequeues? {
      CalmRequeue(s, e.first, e.rest, e.ok, t);
    } else {
      OthersPush(s, e, t);
      OwnersRecorded(s, e, t);
      MovedOnlyByRequeue(s, e, t);
      PushedDrains(s, Apply(s, e), t, false);
    }
  }

  lemma CalmRequeue(s: State, first: Heir, rest: set<nat>, ok: bool, t: nat)
    requires RequeueOk(s, first, rest, ok) && t < |s.ws| && WaiterDrains(s, t)
    ensures WaiterDrains(RunRequeue(s, first, rest, ok), t)
  {
    hide Moved, RunRequeue, WaiterDrains, Recorded, Pushed, RequeueOk, Taken;
    RequeuePushes(s, first, rest, ok, t);
    RequeueRecords(s, first, rest, ok, t);
    PushedDrains(s, RunRequeue(s, first, rest, ok), t, t in Taken(first, rest));
  }

  lemma RequeuePushes(s: State, first: Heir, rest: set<nat>, ok: bool, t: nat)
    requires RequeueOk(s, first, rest, ok) && t < |s.ws|
    ensures Pushed(s.ws[t], RunRequeue(s, first, rest, ok).ws[t])
    ensures t in Taken(first, rest) <==> RunRequeue(s, first, rest, ok).ws[t] != s.ws[t]
    ensures t in Taken(first, rest) ==> s.ws[t].pc == OnF1
  {
    hide Moved, RunRequeue, Pushed;
    MovedPushes(s, first, rest, t);
    assert t in rest ==> InF1(s, t);
  }

  lemma ReleaseLeavesF1(s: State, me: nat, heir: Heir, t: nat)
    requires t < |s.ws| && (heir.To? ==> Queued(s, heir.id))
    ensures s.ws[t].pc == OnF1 ==> Release(s, me, heir).ws[t] == s.ws[t]
  {
  }

  lemma MovedOnlyByRequeue(s: State, e: Event, t: nat)
    requires Enabled(s, e) && !e.WakerRequeues? && t < |s.ws| && (ByWaiter(e) ==> e.t != t)
    ensures Apply(s, e).moved == s.moved && (s.ws[t].pc == OnF1 ==> Apply(s, e).ws[t] == s.ws[t])
  {
    hide Take, Release, RunWaker, RunBlocker;
    OnlyRequeueMoves(s, e);
    match e
    case WaiterRuns(u) => TakeOthers(s, u, t);
    case WaiterUnlocks(u, heir) => ReleaseLeavesF1(SetPc(s, u, Exit), u, heir, t);
    case WakerUnlocks(heir) => ReleaseLeavesF1(LeaveWaker(s), |s.ws|, heir, t);
    case BlockerUnlocks(heir) => ReleaseLeavesF1(LeaveBlocker(s), |s.ws| + 1, heir, t);
    case WaiterFails(_, _) =>
    case WakerRuns =>
    case BlockerRuns =>
    case BlockerReturns =>
    case BlockerFails =>
  }

  lemma WakerStepDrains(s: State)
    requires WakerDrains(s) && BlockerDrains(s) && WakerInv(s) && WakerMode(s) && CanWake(s) && 1 <= s.cfg.n
    requires 0 <= s.woken <= |s.moved| && (s.waker.pc == WakeDone ==> s.blocker.pc in {Absent, BAsleep})
    ensures WakerDrains(RunWaker(s)) && BlockerDrains(RunWaker(s))
  {
  }

  lemma WakerRunDrains(s: State)
    requires DrainInv(s) && Calm(s, WakerRuns)
    ensures WakerDrains(RunWaker(s)) && BlockerDrains(RunWaker(s))
  {
    OnF1IsRest(s);
    WakerStepDrains(s);
    hide RunWaker;
  }

  /** A calm requeue takes everybody (broadcast) or one (signal). */
  lemma RequeueSize(s: State, first: Heir, rest: set<nat>)
    requires DrainInv(s) && Calm(s, WakerRequeues(first, rest, true))
    ensures |Taken(first, rest)| == if s.cfg.broadcast then s.cfg.n else 1
    ensures |s.moved + Taken(first, rest)| == |s.moved| + |Taken(first, rest)| <= s.cfg.n
  {
    OnF1IsRest(s);
    RequeueMoves(s, first, rest, true);
  }

  lemma AfterRequeueDrains(s: State, first: Heir, rest: set<nat>)
    requires WakerDrains(s) && BlockerDrains(s) && WakerInv(s) && s.waker.pc == Requeue
    requires 1 <= s.cfg.n && (s.cfg.broadcast ==> 2 <= s.cfg.max) && (first.To? ==> first.id < |s.ws|)
    requires |Taken(first, rest)| == if s.cfg.broadcast then s.cfg.n else 1
    requires |s.moved + Taken(first, rest)| == |s.moved| + |Taken(first, rest)| <= s.cfg.n
    ensures WakerDrains(RunRequeue(s, first, rest, true)) && BlockerDrains(RunRequeue(s, first, rest, true))
  {
    hide Take, Moved, Taken;
  }

  lemma RequeueDrains(s: State, first: Heir, rest: set<nat>)
    requires DrainInv(s) && Calm(s, WakerRequeues(first, rest, true))
    ensures WakerDrains(RunRequeue(s, first, rest, true)) && BlockerDrains(RunRequeue(s, first, rest, true))
  {
    RequeueSize(s, first, rest);
    AfterRequeueDrains(s, first, rest);
    hide RunRequeue;
  }

  lemma UnlockDrains(s: State, heir: Heir)
    requires DrainInv(s) && Enabled(s, WakerUnlocks(heir))
    ensures WakerDrains(Apply(s, WakerUnlocks(heir))) && BlockerDrains(Apply(s, WakerUnlocks(heir)))
  {
    assert WakerDrains(LeaveWaker(s)) && BlockerDrains(LeaveWaker(s));
  }

  lemma OtherDrains(s: State, e: Event)
    requires DrainInv(s) && Calm(s, e) && !ByWaker(e)
    ensures WakerDrains(Apply(s, e)) && BlockerDrains(Apply(s, e))
  {
    OthersPushWaker(s, e);
    assert Believes(s, |s.ws| + 1) <==> s.owner == By(|s.ws| + 1);
  }

  lemma DrainKept(s: State, e: Event)
    requires DrainInv(s) && Calm(s, e)
    ensures DrainInv(Apply(s, e))
  {
    InvKept(s, e);
    forall t | 0 <= t < |s.ws| ensures WaiterDrains(Apply(s, e), t) {
      if ByWaiter(e) && e.t == t {
        CalmWaiter(s, e);
      } else {
        CalmOther(s, e, t);
      }
    }
    match e
    case WakerRuns => WakerRunDrains(s);
    case WakerRequeues(first, rest, _) => RequeueDrains(s, first, rest);
    case WakerUnlocks(heir) => UnlockDrains(s, heir);
    case WaiterRuns(_) => OtherDrains(s, e);
    case WaiterUnlocks(_, _) => OtherDrains(s, e);
    case BlockerRuns => OtherDrains(s, e);
    case BlockerUnlocks(_) => OtherDrains(s, e);
  }

  // ---------------------------------------------------------------- termination

  /** A waiter still to be moved is worth one round of the signal loop. */
  function WakerRank(s: State): int {
    RoundsRank(s.waker.pc, s.cfg.n - |s.moved|)
  }

  ghost function Measure(s: State): int {
    Sum(WaiterRanks(s)) + WakerRank(s) + BlockerRank(s)
  }

  lemma RequeueGoesDown(s: State, first: Heir, rest: set<nat>)
    requires s.waker.pc == Requeue && 1 <= |Taken(first, rest)|
    requires |s.moved + Taken(first, rest)| == |s.moved| + |Taken(first, rest)| <= s.cfg.n
    ensures WakerRank(RunRequeue(s, first, rest, true)) < WakerRank(s)
  {
    hide Take, Moved, Taken;
  }

  lemma WakerRunGoesDown(s: State)
    requires WakerDrains(s) && WakerInv(s) && CanWake(s) && s.woken <= |s.moved|
    ensures WakerRank(RunWaker(s)) < WakerRank(s)
  {
  }

  lemma WakerUnlockGoesDown(s: State, heir: Heir)
    requires 0 < |s.ws| && WakerDrains(s) && WakerInv(s) && WakerMode(s) && Enabled(s, WakerUnlocks(heir))
    ensures WakerRank(Apply(s, WakerUnlocks(heir))) < WakerRank(s)
  {
    assert WakerRank(LeaveWaker(s)) < WakerRank(s);
    ReleasePushes(LeaveWaker(s), |s.ws|, heir, 0);
    hide Take, Release, LeaveWaker;
  }

  lemma WakerGoesDown(s: State, e: Event)
    requires DrainInv(s) && Calm(s, e)
    ensures WakerRank(Apply(s, e)) <= WakerRank(s) - if ByWaker(e) then 1 else 0
  {
    hide RunRequeue, RunWaker, Release;
    if e.WakerRequeues? {
      RequeueSize(s, e.first, e.rest);
      RequeueGoesDown(s, e.first, e.rest);
    } else if e.WakerUnlocks? {
      WakerUnlockGoesDown(s, e.heir);
    } else if e.WakerRuns? {
      OnF1IsRest(s);
      WakerRunGoesDown(s);
    } else {
      OthersPushWaker(s, e);
      hide Apply;
    }
  }

  lemma CalmDecreases(s: State, e: Event)
    requires DrainInv(s) && Calm(s, e)
    ensures Measure(Apply(s, e)) < Measure(s)
  {
    WaitersGoDown(s, e);
    WakerGoesDown(s, e);
    BlockerGoesDown(s, e);
    hide Apply;
  }

  lemma {:induction false} CalmRunLength(s: State, es: seq<Event>)
    requires DrainInv(s) && CalmRun(s, es)
    ensures DrainInv(Exec(s, es)) && Exec(s, es).cfg == s.cfg
    ensures |es| + Measure(Exec(s, es)) <= Measure(s)
    decreases |es|
  {
    if es != [] {
      DrainKept(s, es[0]);
      CalmDecreases(s, es[0]);
      CalmRunLength(Apply(s, es[0]), es[1..]);
    }
  }

  // ---------------------------------------------------------------- progress

  /** The -l and -o options together. */
  predicate LockedThird(cfg: Config) {
    cfg.lock && cfg.third
  }

  /** The third party sleeps with f2 and the waker, which would wake it, waits for f2; or the
      waker holds f2 up to its wake, so that the third party cannot get it and sleep before. */
  predicate Jammed(s: State) {
    LockedThird(s.cfg) && (s.cfg.broadcast || (s.waker.pc == KLockWait && s.blocker.pc == BAsleep))
  }

  /** The waker will not have to queue for f2 any more while the third party may hold it. */
  predicate Clear(s: State) {
    LockedThird(s.cfg) ==>
      !s.cfg.broadcast && (|s.moved| == s.cfg.n || (s.cfg.n == 1 && s.waker.pc in {ReadF1, Requeue}))
  }

  lemma ClearKept(s: State, e: Event)
    requires DrainInv(s) && Clear(s) && Calm(s, e)
    ensures Clear(Apply(s, e)) && !Jammed(s)
  {
    if e.WakerRequeues? {
      RequeueSize(s, e.first, e.rest);
    } else {
      OnlyRequeueMoves(s, e);
      if !ByWaker(e) {
        OthersPushWaker(s, e);
      }
    }
    hide RunRequeue, Take, Release, RunWaiter, RunBlocker, Inv;
  }

  lemma OnlyRequeueMoves(s: State, e: Event)
    requires Enabled(s, e) && !e.WakerRequeues?
    ensures Apply(s, e).moved == s.moved
  {
  }

  lemma {:induction false} ClearOnRuns(s: State, es: seq<Event>)
    requires DrainInv(s) && Clear(s) && CalmRun(s, es)
    ensures DrainInv(Exec(s, es)) && Clear(Exec(s, es))
    decreases |es|
  {
    if es != [] {
      DrainKept(s, es[0]);
      ClearKept(s, es[0]);
      ClearOnRuns(Apply(s, es[0]), es[1..]);
    }
  }

  /** A call that takes all that may be taken. */
  lemma FullRequeue(s: State, t: nat) returns (e: Event)
    requires s.waker.pc == Requeue && s.waker.oldVal == s.f1 && t in OnF1Set(s) && |OnF1Set(s)| <= INT_MAX
    ensures e.WakerRequeues? && Calm(s, e)
  {
    var q := OnF1Set(s);
    var all := if s.cfg.broadcast then q else {t};
    assert {t} <= q;
    SubsetSize({t}, q);
    if s.owner == Free {
      assert Taken(To(t), all - {t}) == all;
      e := WakerRequeues(To(t), all - {t}, true);
    } else {
      assert Taken(Nobody, all) == all;
      e := WakerRequeues(Nobody, all, true);
    }
  }

  lemma SomeRequeue(s: State) returns (e: Event)
    requires DrainInv(s) && s.waker.pc == Requeue
    ensures e.WakerRequeues? && Calm(s, e)
  {
    OnF1IsRest(s);
    assert OnF1Set(s) != {};
    var t :| t in OnF1Set(s);
    e := FullRequeue(s, t);
  }

  /** A waker that is neither queued nor done goes on, if its last wake finds the third party. */
  lemma WakerGoesOn(s: State) returns (e: Event)
    requires DrainInv(s) && s.waker.pc !in {KLockWait, KExit}
    requires s.waker.pc == WakeDone ==> s.blocker.pc in {Absent, BAsleep}
    ensures Calm(s, e)
  {
    if s.waker.pc == Requeue {
      e := SomeRequeue(s);
    } else if s.waker.pc in {KUnlock, FinalUnlock} {
      assert Believes(s, |s.ws|);
      var heir := SomeHeir(s, |s.ws|);
      e := WakerUnlocks(heir);
    } else {
      OnF1IsRest(s);
      e := WakerRuns;
    }
  }

  lemma OwnerGoesOn(s: State) returns (e: Event)
    requires DrainInv(s) && s.owner.By? && !Jammed(s)
    ensures Calm(s, e)
  {
    var id := s.owner.id;
    assert Believes(s, id);
    if id < |s.ws| {
      if s.ws[id].pc == Unlock {
        var heir := SomeHeir(s, id);
        e := WaiterUnlocks(id, heir);
      } else {
        e := WaiterRuns(id);
      }
    } else if id == |s.ws| {
      e := WakerGoesOn(s);
    } else if s.blocker.pc == BUnlock {
      var heir := SomeHeir(s, id);
      e := BlockerUnlocks(heir);
    } else if s.blocker.pc == BWait {
      e := BlockerRuns;
    } else {
      e := WakerGoesOn(s);
    }
  }

  lemma FreeGoesOn(s: State) returns (e: Event)
    requires DrainInv(s) && s.owner == Free && !Completed(s)
    ensures Calm(s, e)
  {
    assert !Queued(s, |s.ws|) && !Queued(s, |s.ws| + 1) && !Believes(s, |s.ws| + 1);
    if s.waker.pc == KExit {
      AllThrough(s);
    }
    if s.blocker.pc == BLock {
      e := BlockerRuns;
    } else {
      e := WakerGoesOn(s);
    }
  }

  /** With the waker done and f2 free, everybody is through. */
  lemma AllThrough(s: State)
    requires DrainInv(s) && s.owner == Free && s.waker.pc == KExit
    ensures Completed(s)
  {
    assert !Believes(s, |s.ws| + 1);
    OnF1IsRest(s);
    forall t | 0 <= t < |s.ws| ensures s.ws[t].pc == Exit && s.ws[t].ret == 0 && t in s.owned {
      assert WaiterDrains(s, t) && !Believes(s, t) && !Queued(s, t);
      assert t !in OnF1Set(s);
    }
  }

  lemma DrainGoesOn(s: State) returns (e: Event)
    requires DrainInv(s) && !Jammed(s) && !Completed(s)
    ensures Calm(s, e)
  {
    if s.owner == Free {
      e := FreeGoesOn(s);
    } else {
      e := OwnerGoesOn(s);
    }
  }

  /** No calm, respectively no quiet, event is possible. */
  ghost predicate Stopped(s: State) {
    forall e :: !Calm(s, e)
  }

  ghost predicate Still(s: State) {
    forall e :: !Quiet(s, e)
  }

  lemma MeasureBounds(s: State)
    requires DrainInv(s)
    ensures Measure(s) >= 0
    ensures Ready(s) ==> Measure(s) <= 14 * s.cfg.n + 23
  {
    hide Ownership, Counts, WakerInv;
    SumBounds(WaiterRanks(s), 10);
    if Ready(s) {
      SumConst(WaiterRanks(s), 7);
    }
  }

  /** Conditional drain: every calm run from a ready state is finite, and unless -l and -o are given
      together it can stop only with everybody through: f2 has passed through every waiter and is
      free, and the waker has made exactly one call (broadcast) or N calls (signal). With both
      options this still holds for a single waiter and a waker that already has f2. With an
      iteration limit of 1 a broadcast would give up after its first call. */
  lemma Drain(s: State, es: seq<Event>)
    requires Ready(s) && (s.cfg.broadcast ==> 2 <= s.cfg.max) && CalmRun(s, es)
    ensures |es| <= 14 * s.cfg.n + 23
    ensures Clear(s) && Stopped(Exec(s, es)) ==> Completed(Exec(s, es))
  {
    ReadyDrains(s);
    CalmRunLength(s, es);
    var s' := Exec(s, es);
    MeasureBounds(s);
    MeasureBounds(s');
    hide Ready, Calm;
    if Clear(s) && !Completed(s') {
      ClearOnRuns(s, es);
      var e := DrainGoesOn(s');
    }
  }
}
