/** What every interleaving of the requeue-PI test keeps: the ownership discipline of f2, the
    conservation of waiters, and the bounds on the waker's loops. */
module RequeuePiSafety {
  import opened Words
  import opened Sets
  import opened RequeuePi

  // ---------------------------------------------------------------- ownership of f2

  /** Positions in which a thread believes it holds f2. */
  predicate WOwns(w: Waiter) {
    w.pc == Granted || w.pc == Unlock || (w.pc == Woke && w.ret >= 0)
  }

  predicate KOwns(cfg: Config, pc: KPc) {
    && cfg.lock
    && (pc in {ReadF1, Requeue, Retest, KUnlock, FinalUnlock} || (pc == WakeDone && cfg.broadcast))
  }

  predicate BOwns(pc: BPc) {
    pc in {BWait, BAsleep, BUnlock}
  }

  /** Whatever thread id believes. */
  predicate Believes(s: State, id: nat) {
    if id < |s.ws| then WOwns(s.ws[id])
    else if id == |s.ws| then KOwns(s.cfg, s.waker.pc)
    else id == |s.ws| + 1 && BOwns(s.blocker.pc)
  }

  /** Exactly the owner of f2 believes to own it; a free f2 has no queue. */
  predicate Ownership(s: State) {
    && (forall id :: 0 <= id < |s.ws| + 2 ==> (Believes(s, id) <==> s.owner == By(id)))
    && (s.owner.By? ==> s.owner.id < |s.ws| + 2)
    && (s.owner == Free ==> forall id :: 0 <= id < |s.ws| + 2 ==> !Queued(s, id))
  }

  /** Which positions go with which mode. */
  predicate Modes(s: State) {
    && |s.ws| == s.cfg.n && 1 <= s.cfg.n <= INT_MAX && 1 <= s.cfg.max
    && WakerMode(s)
    && (s.blocker.pc == Absent <==> !s.cfg.third)
    && (forall t :: 0 <= t < |s.ws| && s.ws[t].pc in {Marking, Calling, OnF1} ==> s.ws[t].oldVal == s.f1)
  }

  /** Nobody but `me` changes what it believes or where it queues. */
  predicate Bystanders(s: State, s': State, me: nat) {
    && |s'.ws| == |s.ws|
    && forall x :: 0 <= x < |s.ws| + 2 && x != me ==> Believes(s', x) == Believes(s, x) && Queued(s', x) == Queued(s, x)
  }

  lemma TakeOwns(s: State, id: nat)
    requires |s.ws| == s.cfg.n && id < |s.ws| + 2 && (id == |s.ws| ==> s.cfg.lock)
    ensures Bystanders(s, Take(s, id), id) && Believes(Take(s, id), id)
  {
  }

  /** A thread takes f2 when nobody believes to own it. */
  lemma TakeKeeps(s: State, id: nat)
    requires |s.ws| == s.cfg.n && id < |s.ws| + 2 && (id == |s.ws| ==> s.cfg.lock)
    requires forall x :: 0 <= x < |s.ws| + 2 ==> !Believes(s, x)
    ensures Ownership(Take(s, id))
  {
    TakeOwns(s, id);
  }

  /** The owner `me` has moved on to s1 and no longer believes; whoever gets f2 owns it alone. */
  lemma ReleaseKeeps(s: State, s1: State, me: nat, heir: Heir)
    requires Ownership(s) && Modes(s) && me < |s.ws| + 2 && Believes(s, me) && HeirOk(s, me, heir)
    requires s1.cfg == s.cfg && s1.owner == s.owner && Bystanders(s, s1, me)
    requires !Believes(s1, me) && !Queued(s1, me) && !Queued(s, me)
    ensures Ownership(Release(s1, me, heir))
  {
    forall x | 0 <= x < |s.ws| + 2 ensures !Believes(s1, x) {
      assert x == me || Believes(s1, x) == Believes(s, x);
    }
    if heir.To? {
      TakeKeeps(s1, heir.id);
    } else {
      var s2 := s1.(owner := Free);
      forall x | 0 <= x < |s.ws| + 2 ensures !Believes(s2, x) && !Queued(s2, x) {
        assert !Believes(s1, x);
        assert x == me || Queued(s1, x) == Queued(s, x);
      }
    }
  }

  /** `me` moves on without taking or leaving f2. */
  lemma StayKeeps(s: State, s': State, me: nat)
    requires Ownership(s) && me < |s.ws| + 2 && s'.owner == s.owner && Bystanders(s, s', me)
    requires Believes(s', me) == Believes(s, me)
    requires Queued(s', me) ==> s.owner != Free
    ensures Ownership(s')
  {
  }

  lemma WaiterFrame(s: State, s': State, t: nat)
    requires t < |s.ws| == |s'.ws| && s'.ws == s.ws[t := s'.ws[t]]
    requires s'.cfg == s.cfg && s'.waker == s.waker && s'.blocker == s.blocker
    ensures Bystanders(s, s', t)
  {
  }

  /** What a waiter's step does to the waiter itself, unless it takes f2 in futex_lock_pi. */
  lemma WaiterStep(s: State, t: nat)
    requires CanRun(s, t) && !(s.ws[t].pc == Relock && s.owner == Free)
    requires WOwns(s.ws[t]) <==> s.owner == By(t)
    ensures var s' := RunWaiter(s, t);
            && |s'.ws| == |s.ws| && s'.ws == s.ws[t := s'.ws[t]]
            && s'.cfg == s.cfg && s'.waker == s.waker && s'.blocker == s.blocker && s'.owner == s.owner
            && WOwns(s'.ws[t]) == WOwns(s.ws[t])
            && (s'.ws[t].pc in {OnF2, LockWait} ==> s.owner != Free)
  {
  }

  lemma WaiterRunKeeps(s: State, t: nat)
    requires Ownership(s) && Modes(s) && CanRun(s, t)
    ensures Ownership(RunWaiter(s, t))
  {
    assert Believes(s, t) <==> s.owner == By(t);
    if s.ws[t].pc == Relock && s.owner == Free {
      TakeKeeps(s, t);
    } else {
      WaiterStep(s, t);
      WaiterFrame(s, RunWaiter(s, t), t);
      StayKeeps(s, RunWaiter(s, t), t);
    }
  }

  lemma WaiterFailKeeps(s: State, t: nat, timedOut: bool)
    requires Ownership(s) && Enabled(s, WaiterFails(t, timedOut))
    ensures Ownership(Apply(s, WaiterFails(t, timedOut)))
  {
    var s' := Apply(s, WaiterFails(t, timedOut));
    WaiterFrame(s, s', t);
    StayKeeps(s, s', t);
  }

  lemma WaiterUnlockKeeps(s: State, t: nat, heir: Heir)
    requires Ownership(s) && Modes(s) && Enabled(s, WaiterUnlocks(t, heir))
    ensures Ownership(Apply(s, WaiterUnlocks(t, heir)))
  {
    WaiterFrame(s, SetPc(s, t, Exit), t);
    ReleaseKeeps(s, SetPc(s, t, Exit), t, heir);
  }

  /** Requeued waiters held nothing and hold nothing. */
  lemma ToF2Beliefs(s: State, rest: set<nat>, x: nat)
    requires (forall t <- rest :: InF1(s, t)) && x < |s.ws| + 2
    ensures Believes(ToF2(s, rest), x) == Believes(s, x)
    ensures rest == {} ==> Queued(ToF2(s, rest), x) == Queued(s, x)
  {
    assert x in rest ==> InF1(s, x);
  }

  lemma MovedKeeps(s: State, first: Heir, rest: set<nat>)
    requires Ownership(s) && |s.ws| == s.cfg.n && (forall t <- rest :: InF1(s, t))
    requires first.To? ==> s.owner == Free && InF1(s, first.id)
    requires first == Nobody && s.owner == Free ==> rest == {}
    ensures Ownership(Moved(s, first, rest))
  {
    var s1 := ToF2(s, rest).(moved := s.moved + Taken(first, rest));
    forall x | 0 <= x < |s.ws| + 2
      ensures Believes(s1, x) == Believes(s, x) && (rest == {} ==> Queued(s1, x) == Queued(s, x))
    {
      ToF2Beliefs(s, rest, x);
      assert Believes(s1, x) == Believes(ToF2(s, rest), x);
      assert Queued(s1, x) == Queued(ToF2(s, rest), x);
    }
    if first.To? {
      TakeKeeps(s1, first.id);
    }
  }

  lemma WakerFrame(s: State, s': State)
    requires s'.ws == s.ws && s'.cfg == s.cfg && s'.blocker == s.blocker
    ensures Bystanders(s, s', |s.ws|)
  {
  }

  lemma RequeueKeeps(s: State, first: Heir, rest: set<nat>, ok: bool)
    requires Ownership(s) && Modes(s) && RequeueOk(s, first, rest, ok)
    ensures Ownership(RunRequeue(s, first, rest, ok))
  {
    hide Take, Moved, Taken;
    var s1 := Moved(s, first, rest);
    MovedKeeps(s, first, rest);
    WakerFrame(s1, RunRequeue(s, first, rest, ok));
    StayKeeps(s1, RunRequeue(s, first, rest, ok), |s.ws|);
  }

  lemma WakerUnlockKeeps(s: State, heir: Heir)
    requires Ownership(s) && Modes(s) && Enabled(s, WakerUnlocks(heir))
    ensures Ownership(Apply(s, WakerUnlocks(heir)))
  {
    WakerFrame(s, LeaveWaker(s));
    ReleaseKeeps(s, LeaveWaker(s), |s.ws|, heir);
  }

  lemma WakerRunKeeps(s: State)
    requires Ownership(s) && Modes(s) && CanWake(s)
    ensures Ownership(RunWaker(s))
  {
    if s.waker.pc == KLock && s.owner == Free {
      TakeKeeps(s, |s.ws|);
    } else if s.waker.pc == WakeDone {
      var s1 := s.(blocker := RunWaker(s).blocker);
      BlockerFrame(s, s1);
      StayKeeps(s, s1, |s.ws| + 1);
      WakerFrame(s1, RunWaker(s));
      StayKeeps(s1, RunWaker(s), |s.ws|);
    } else {
      WakerFrame(s, RunWaker(s));
      StayKeeps(s, RunWaker(s), |s.ws|);
    }
  }

  lemma BlockerFrame(s: State, s': State)
    requires s'.ws == s.ws && s'.cfg == s.cfg && s'.waker == s.waker
    ensures Bystanders(s, s', |s.ws| + 1)
  {
  }

  lemma BlockerKeeps(s: State, e: Event)
    requires Ownership(s) && Modes(s) && Enabled(s, e) && !ByWaiter(e) && !ByWaker(e)
    ensures Ownership(Apply(s, e))
  {
    var me := |s.ws| + 1;
    assert Believes(s, me) <==> s.owner == By(me);
    if e.BlockerUnlocks? {
      BlockerFrame(s, LeaveBlocker(s));
      ReleaseKeeps(s, LeaveBlocker(s), me, e.heir);
    } else if e.BlockerRuns? && s.blocker.pc == BLock && s.owner == Free {
      TakeKeeps(s, me);
    } else {
      BlockerFrame(s, Apply(s, e));
      StayKeeps(s, Apply(s, e), me);
    }
  }

  lemma OwnershipKept(s: State, e: Event)
    requires Ownership(s) && Modes(s) && Enabled(s, e)
    ensures Ownership(Apply(s, e))
  {
    match e
    case WaiterRuns(t) => WaiterRunKeeps(s, t);
    case WaiterFails(t, timedOut) => WaiterFailKeeps(s, t, timedOut);
    case WaiterUnlocks(t, heir) => WaiterUnlockKeeps(s, t, heir);
    case WakerRuns => WakerRunKeeps(s);
    case WakerRequeues(first, rest, ok) => RequeueKeeps(s, first, rest, ok);
    case WakerUnlocks(heir) => WakerUnlockKeeps(s, heir);
    case BlockerRuns => BlockerKeeps(s, e);
    case BlockerReturns => BlockerKeeps(s, e);
    case BlockerFails => BlockerKeeps(s, e);
    case BlockerUnlocks(_) => BlockerKeeps(s, e);
  }

  // ---------------------------------------------------------------- who changes what

  /** What others can do to a waiter: move it to f2 or make it the owner. */
  predicate Pushed(a: Waiter, b: Waiter) {
    || b == a
    || (b == a.(pc := OnF2) && a.pc == OnF1)
    || (b == a.(pc := Granted) && a.pc in {OnF1, OnF2})
    || (b == a.(pc := Unlock) && a.pc == LockWait)
  }

  /** What others can do to the waker: make it the owner. */
  predicate WakerPushed(s: State, s': State) {
    && (s'.waker == s.waker || (s.waker.pc == KLockWait && s'.waker == s.waker.(pc := ReadF1)))
    && SameCalls(s, s')
  }

  predicate ByWaiter(e: Event) {
    e.WaiterRuns? || e.WaiterFails? || e.WaiterUnlocks?
  }

  predicate ByWaker(e: Event) {
    e.WakerRuns? || e.WakerRequeues? || e.WakerUnlocks?
  }

  /** futex_unlock_pi pushes at most the heir. */
  lemma ReleasePushes(s: State, me: nat, heir: Heir, t: nat)
    requires t < |s.ws| && (heir.To? ==> Queued(s, heir.id))
    ensures Pushed(s.ws[t], Release(s, me, heir).ws[t])
    ensures WakerPushed(s, Release(s, me, heir))
    ensures Release(s, me, heir).blocker.pc == Absent <==> s.blocker.pc == Absent
  {
  }

  lemma MovedPushes(s: State, first: Heir, rest: set<nat>, t: nat)
    requires t < |s.ws| && (forall u <- rest :: InF1(s, u)) && (first.To? ==> InF1(s, first.id) && first.id !in rest)
    ensures var s' := Moved(s, first, rest);
            && |s'.ws| == |s.ws| && Pushed(s.ws[t], s'.ws[t])
            && (t in Taken(first, rest) <==> s'.ws[t] != s.ws[t])
            && s'.waker == s.waker && s'.moved == s.moved + Taken(first, rest)
  {
    assert t in rest ==> InF1(s, t);
  }

  lemma OthersPush(s: State, e: Event, t: nat)
    requires Enabled(s, e) && t < |s.ws| && (ByWaiter(e) ==> e.t != t)
    ensures Pushed(s.ws[t], Apply(s, e).ws[t])
  {
    hide Take;
    match e
    case WaiterUnlocks(u, heir) => ReleasePushes(SetPc(s, u, Exit), u, heir, t);
    case WakerUnlocks(heir) => ReleasePushes(LeaveWaker(s), |s.ws|, heir, t);
    case BlockerUnlocks(heir) => ReleasePushes(LeaveBlocker(s), |s.ws| + 1, heir, t);
    case WakerRequeues(first, rest, ok) => MovedPushes(s, first, rest, t);
    case WaiterRuns(u) => TakeOthers(s, u, t);
    case WaiterFails(u, timedOut) =>
    case WakerRuns =>
    case BlockerRuns =>
    case BlockerReturns =>
    case BlockerFails =>
  }

  lemma TakeOthers(s: State, id: nat, t: nat)
    requires t < |s.ws| && t != id
    ensures Take(s, id).ws[t] == s.ws[t]
  {
  }

  lemma OthersPushWaker(s: State, e: Event)
    requires Enabled(s, e) && !ByWaker(e)
    ensures WakerPushed(s, Apply(s, e))
  {
  }

  /** What a waiter does to itself. */
  lemma WaiterSelf(s: State, e: Event)
    requires Enabled(s, e) && ByWaiter(e)
    ensures |Apply(s, e).ws| == |s.ws|
    ensures var (a, b) := (s.ws[e.t], Apply(s, e).ws[e.t]);
            && (b.pc in {Marking, Calling, OnF1} ==> b.oldVal == if a.pc == Start then s.f1 else a.oldVal)
            && (b.pc == Calling ==> a.pc == Marking) && (b.pc == OnF1 ==> a.pc == Calling)
            && (b.pc == Marking ==> a.pc == Start)
            && (Past(a.pc) ==> Past(b.pc))
            && Marked(b.pc) == (Marked(a.pc) || a.pc == Marking)
            && Counted(b.pc) == (Counted(a.pc) || (e.WaiterRuns? && a.pc == Woke))
  {
    if e.WaiterUnlocks? {
      ReleasePushes(SetPc(s, e.t, Exit), e.t, e.heir, e.t);
    }
  }

  lemma ModesKept(s: State, e: Event)
    requires Ownership(s) && Modes(s) && Enabled(s, e)
    ensures Modes(Apply(s, e))
  {
    var s' := Apply(s, e);
    forall t | 0 <= t < |s.ws| && s'.ws[t].pc in {Marking, Calling, OnF1}
      ensures s'.ws[t].oldVal == s'.f1
    {
      if ByWaiter(e) && e.t == t {
        WaiterSelf(s, e);
      } else {
        OthersPush(s, e, t);
      }
    }
    WakerModeKept(s, e);
    BlockerStays(s, e);
  }

  predicate WakerMode(s: State) {
    var pc := s.waker.pc;
    && (pc in {KLock, KLockWait, KUnlock, FinalUnlock} ==> s.cfg.lock)
    && (pc in {Retest, FinalUnlock} ==> s.cfg.broadcast)
    && (pc in {LoopTest, KUnlock} ==> !s.cfg.broadcast)
    && (pc == Requeue ==> s.waker.oldVal == s.f1)
  }

  lemma RequeueMode(s: State, first: Heir, rest: set<nat>, ok: bool)
    requires WakerMode(s) && s.waker.pc == Requeue
    ensures WakerMode(RunRequeue(s, first, rest, ok))
  {
    hide Take, Moved, Taken;
  }

  lemma WakerModeKept(s: State, e: Event)
    requires 0 < |s.ws| && WakerMode(s) && Enabled(s, e)
    ensures WakerMode(Apply(s, e))
  {
    if e.WakerUnlocks? {
      hide Take, Release;
      assert WakerMode(LeaveWaker(s));
      ReleasePushes(LeaveWaker(s), |s.ws|, e.heir, 0);
    } else if e.WakerRequeues? {
      hide RunRequeue;
      RequeueMode(s, e.first, e.rest, e.ok);
    } else if e.WakerRuns? {
    } else {
      hide Apply;
      OthersPushWaker(s, e);
    }
  }

  lemma BlockerRunStays(s: State)
    requires s.blocker.pc in {BLock, BWait}
    ensures RunBlocker(s).blocker.pc != Absent
  {
  }

  lemma BlockerStays(s: State, e: Event)
    requires 0 < |s.ws| && Enabled(s, e)
    ensures Apply(s, e).blocker.pc == Absent <==> s.blocker.pc == Absent
  {
    hide Take, Release, RunWaiter, RunWaker, RunRequeue;
    match e
    case WaiterUnlocks(t, heir) => ReleasePushes(SetPc(s, t, Exit), t, heir, t);
    case WakerUnlocks(heir) => ReleasePushes(LeaveWaker(s), |s.ws|, heir, 0);
    case BlockerUnlocks(heir) => ReleasePushes(LeaveBlocker(s), |s.ws| + 1, heir, 0);
    case WakerRequeues(first, rest, ok) => assert first.To? ==> InF1(s, first.id);
    case WaiterRuns(_) =>
    case WaiterFails(_, _) =>
    case WakerRuns =>
    case BlockerRuns => BlockerRunStays(s);
    case BlockerReturns =>
    case BlockerFails =>
  }

  // ---------------------------------------------------------------- conservation of waiters

  /** atomic_inc(waiters_blocked) is behind, respectively atomic_inc(waiters_woken). */
  predicate Marked(pc: WPc) {
    pc !in {Start, Marking}
  }

  predicate Counted(pc: WPc) {
    pc in {Relock, LockWait, Unlock, Exit}
  }

  /** The waiter is past f1. */
  predicate Past(pc: WPc) {
    pc !in {Start, Marking, Calling, OnF1}
  }

  function MarkedSet(s: State): set<nat> {
    set t: nat | 0 <= t < |s.ws| && Marked(s.ws[t].pc)
  }

  function CountedSet(s: State): set<nat> {
    set t: nat | 0 <= t < |s.ws| && Counted(s.ws[t].pc)
  }

  predicate Counts(s: State) {
    && (forall t <- s.moved :: t < |s.ws| && Past(s.ws[t].pc))
    && s.blocked == |MarkedSet(s)|
    && s.woken == |CountedSet(s)|
  }

  /** The counters of atomic.h follow the positions of the waiters. */
  lemma CountersFollow(s: State, e: Event)
    requires Enabled(s, e)
    ensures Apply(s, e).blocked == s.blocked + (if e.WaiterRuns? && s.ws[e.t].pc == Marking then 1 else 0)
    ensures Apply(s, e).woken == s.woken + (if e.WaiterRuns? && s.ws[e.t].pc == Woke then 1 else 0)
  {
  }

  /** A set of waiters, told by their positions, grows by the actor or not at all. */
  lemma SetFollows(a: set<nat>, b: set<nat>, t: nat, grows: bool)
    requires forall u :: u != t ==> (u in a <==> u in b)
    requires t in b <==> t in a || grows
    requires grows ==> t !in a
    ensures |b| == |a| + if grows then 1 else 0
  {
    assert b == if grows then a + {t} else a;
  }

  lemma CountsFollow(s: State, s': State, t: nat, marks: bool, counts: bool)
    requires Counts(s) && t < |s.ws| == |s'.ws|
    requires s'.blocked == s.blocked + (if marks then 1 else 0) && s'.woken == s.woken + (if counts then 1 else 0)
    requires forall u :: 0 <= u < |s.ws| ==>
               && (Marked(s'.ws[u].pc) <==> Marked(s.ws[u].pc) || (u == t && marks))
               && (Counted(s'.ws[u].pc) <==> Counted(s.ws[u].pc) || (u == t && counts))
               && (Past(s.ws[u].pc) ==> Past(s'.ws[u].pc))
    requires (marks ==> !Marked(s.ws[t].pc)) && (counts ==> !Counted(s.ws[t].pc))
    requires forall u <- s'.moved :: u in s.moved || (u < |s.ws| && Past(s'.ws[u].pc))
    ensures Counts(s')
  {
    SetFollows(MarkedSet(s), MarkedSet(s'), t, marks);
    SetFollows(CountedSet(s), CountedSet(s'), t, counts);
  }

  lemma CountsKept(s: State, e: Event)
    requires Modes(s) && Counts(s) && Enabled(s, e)
    ensures Counts(Apply(s, e))
  {
    hide Apply;
    var s' := Apply(s, e);
    var t := if ByWaiter(e) then e.t else 0;
    CountersFollow(s, e);
    MovedArePast(s, e);
    if ByWaiter(e) {
      WaiterSelf(s, e);
    }
    var marks, counts := e.WaiterRuns? && s.ws[t].pc == Marking, e.WaiterRuns? && s.ws[t].pc == Woke;
    forall u | 0 <= u < |s.ws|
      ensures Marked(s'.ws[u].pc) <==> Marked(s.ws[u].pc) || (u == t && marks)
      ensures Counted(s'.ws[u].pc) <==> Counted(s.ws[u].pc) || (u == t && counts)
      ensures Past(s.ws[u].pc) ==> Past(s'.ws[u].pc)
    {
      if !ByWaiter(e) || u != t {
        OthersPush(s, e, u);
      }
    }
    CountsFollow(s, s', t, marks, counts);
  }

  lemma MovedArePast(s: State, e: Event)
    requires Counts(s) && Enabled(s, e)
    ensures forall t <- Apply(s, e).moved ::
              t in s.moved || (t < |s.ws| == |Apply(s, e).ws| && Past(Apply(s, e).ws[t].pc))
  {
    if e.WakerRequeues? {
      forall t <- Taken(e.first, e.rest)
        ensures t < |s.ws| == |Apply(s, e).ws| && Past(Apply(s, e).ws[t].pc)
      {
        assert t in e.rest ==> InF1(s, t);
        MovedPushes(s, e.first, e.rest, t);
      }
    } else if e.WakerUnlocks? || e.WakerRuns? {
    } else {
      OthersPushWaker(s, e);
    }
  }

  // ---------------------------------------------------------------- the waker's loops

  /** Between the start of a loop round and its requeue call. */
  predicate BeforeCall(pc: KPc) {
    pc in {Spin, LoopTest, KLock, KLockWait, ReadF1, Requeue, Retest}
  }

  /** The most requeue calls a waker makes. */
  function CallLimit(cfg: Config): nat {
    if cfg.broadcast then cfg.max else cfg.max + cfg.n + 1
  }

  /** What a waker without an error reports: a signal all it took off f1, a broadcast only if its
      last call took somebody. */
  function Reported(s: State): nat {
    if s.cfg.broadcast && s.last == 0 then 0 else |s.moved|
  }

  predicate WakerInv(s: State) {
    var k := s.waker;
    && 0 <= k.task <= |s.moved|
    && (!s.failed && !s.limited ==> |s.moved| == k.task + if k.pc == KUnlock then k.ret else 0)
    && (s.cfg.broadcast && k.pc in {Retest, WakeDone, FinalUnlock} && !s.failed && !s.limited ==> k.ret == s.last)
    && if BeforeCall(k.pc) then
         !s.failed && !s.limited && k.ret >= 0 && s.calls == k.i
         && if s.cfg.broadcast then k.i < s.cfg.max else k.i <= s.cfg.max + s.cfg.n
       else if k.pc == KUnlock then
         !s.limited && (k.ret < 0 <==> s.failed) && s.calls == k.i + 1 <= s.cfg.max + s.cfg.n + 1
       else
         && (k.ret < 0 <==> s.failed || s.limited) && (k.ret < 0 ==> k.ret == RET_ERROR)
         && s.calls <= CallLimit(s.cfg)
         && (s.limited ==> s.calls == CallLimit(s.cfg))
         && (!s.failed && !s.limited && k.pc == KExit ==> k.ret == Reported(s))
  }

  lemma RequeueMoves(s: State, first: Heir, rest: set<nat>, ok: bool)
    requires Counts(s) && RequeueOk(s, first, rest, ok)
    ensures |s.moved + Taken(first, rest)| == |s.moved| + |Taken(first, rest)|
    ensures s.moved !! Taken(first, rest)
  {
    assert forall t <- rest :: InF1(s, t);
  }

  lemma RequeueKeepsWaker(s: State, first: Heir, rest: set<nat>, ok: bool)
    requires WakerInv(s) && s.waker.pc == Requeue && (first.To? ==> first.id < |s.ws|)
    requires |s.moved + Taken(first, rest)| == |s.moved| + |Taken(first, rest)|
    ensures WakerInv(RunRequeue(s, first, rest, ok))
  {
    hide Take, Moved, Taken;
  }

  lemma RunKeepsWaker(s: State)
    requires WakerInv(s) && WakerMode(s) && CanWake(s)
    ensures WakerInv(RunWaker(s))
  {
  }

  lemma UnlockKeepsWaker(s: State, heir: Heir)
    requires 0 < |s.ws| && WakerInv(s) && WakerMode(s) && Enabled(s, WakerUnlocks(heir))
    ensures WakerInv(Apply(s, WakerUnlocks(heir)))
  {
    hide Take, Release;
    assert WakerInv(LeaveWaker(s));
    ReleasePushes(LeaveWaker(s), |s.ws|, heir, 0);
  }

  lemma WakerInvKept(s: State, e: Event)
    requires Modes(s) && Counts(s) && WakerInv(s) && Enabled(s, e)
    ensures WakerInv(Apply(s, e))
  {
    hide RunRequeue, RunWaker, Counts;
    match e
    case WakerRequeues(first, rest, ok) =>
      RequeueMoves(s, first, rest, ok);
      RequeueKeepsWaker(s, first, rest, ok);
    case WakerRuns => RunKeepsWaker(s);
    case WakerUnlocks(heir) => UnlockKeepsWaker(s, heir);
    case WaiterRuns(_) => OthersPushWaker(s, e);
    case WaiterFails(_, _) => OthersPushWaker(s, e);
    case WaiterUnlocks(_, _) => OthersPushWaker(s, e);
    case BlockerRuns => OthersPushWaker(s, e);
    case BlockerReturns => OthersPushWaker(s, e);
    case BlockerFails => OthersPushWaker(s, e);
    case BlockerUnlocks(_) => OthersPushWaker(s, e);
  }

  /** The waker leaves its spin only when all waiters have announced themselves. */
  predicate SpinInv(s: State) {
    if s.waker.pc == Spin then s.calls == 0 else s.blocked >= s.cfg.n
  }

  lemma RequeueSpins(s: State, first: Heir, rest: set<nat>, ok: bool)
    requires RequeueOk(s, first, rest, ok)
    ensures RunRequeue(s, first, rest, ok).waker.pc != Spin
  {
    hide Take, Moved, Taken;
  }

  lemma SpinKept(s: State, e: Event)
    requires 0 < |s.ws| && SpinInv(s) && Enabled(s, e)
    ensures SpinInv(Apply(s, e))
  {
    CountersFollow(s, e);
    hide RunRequeue, Release, RunWaiter;
    match e
    case WakerRequeues(first, rest, ok) => RequeueSpins(s, first, rest, ok);
    case WakerUnlocks(heir) => ReleasePushes(LeaveWaker(s), |s.ws|, heir, 0);
    case WakerRuns =>
    case WaiterRuns(_) => OthersPushWaker(s, e);
    case WaiterFails(_, _) => OthersPushWaker(s, e);
    case WaiterUnlocks(_, _) => OthersPushWaker(s, e);
    case BlockerRuns => OthersPushWaker(s, e);
    case BlockerReturns => OthersPushWaker(s, e);
    case BlockerFails => OthersPushWaker(s, e);
    case BlockerUnlocks(_) => OthersPushWaker(s, e);
  }

  // ---------------------------------------------------------------- results

  /** What a waiter reports: only a failure other than a timeout asked for is an error. */
  predicate WaiterResult(cfg: Config, w: Waiter) {
    && (w.pc == Woke ==> w.ret == if w.errno == NoError then 0 else -1)
    && (Counted(w.pc) ==> w.ret == if w.errno == NoError || (cfg.timed && w.errno == TimedOut) then 0 else RET_ERROR)
  }

  predicate BlockerResult(b: Blocker) {
    && (b.pc == Absent ==> b.ret == 0)
    && (b.pc in {Absent, BLock, BLockWait, BWait, BAsleep} ==> !b.hurt)
    && (b.pc == BUnlock ==> b.ret == if b.hurt then -1 else 0)
    && (b.pc == BExit ==> b.ret == if b.hurt then RET_ERROR else 0)
  }

  predicate ResultsInv(s: State) {
    && (forall t :: 0 <= t < |s.ws| ==> WaiterResult(s.cfg, s.ws[t]))
    && BlockerResult(s.blocker)
  }

  lemma OwnResult(s: State, e: Event)
    requires Enabled(s, e) && ByWaiter(e) && WaiterResult(s.cfg, s.ws[e.t])
    ensures WaiterResult(s.cfg, Apply(s, e).ws[e.t])
  {
    if e.WaiterUnlocks? {
      ReleasePushes(SetPc(s, e.t, Exit), e.t, e.heir, e.t);
    }
  }

  lemma ReleaseResult(s: State, me: nat, heir: Heir)
    requires BlockerResult(s.blocker) && (heir.To? ==> Queued(s, heir.id))
    ensures BlockerResult(Release(s, me, heir).blocker)
  {
  }

  lemma BlockerRunResult(s: State)
    requires BlockerResult(s.blocker) && s.blocker.pc in {BLock, BWait}
    requires s.owner == By(|s.ws| + 1) ==> s.blocker.pc != BLock
    ensures BlockerResult(RunBlocker(s).blocker)
  {
  }

  lemma FirstIsWaiter(s: State, first: Heir, rest: set<nat>, ok: bool)
    requires RequeueOk(s, first, rest, ok)
    ensures first.To? ==> first.id < |s.ws|
  {
  }

  lemma BlockerResultKept(s: State, e: Event)
    requires Ownership(s) && BlockerResult(s.blocker) && Enabled(s, e)
    ensures BlockerResult(Apply(s, e).blocker)
  {
    hide Release, RunWaiter, RunRequeue, RunWaker, RunBlocker, Ownership, RequeueOk;
    match e
    case WaiterUnlocks(t, heir) => ReleaseResult(SetPc(s, t, Exit), t, heir);
    case WakerUnlocks(heir) => ReleaseResult(LeaveWaker(s), |s.ws|, heir);
    case BlockerUnlocks(heir) =>
      BlockerUnlockOwns(s);
      ReleaseResult(LeaveBlocker(s), |s.ws| + 1, heir);
    case BlockerRuns =>
      BlockerUnlockOwns(s);
      BlockerRunResult(s);
    case WakerRequeues(first, rest, ok) => FirstIsWaiter(s, first, rest, ok);
    case WaiterRuns(_) =>
    case WaiterFails(_, _) =>
    case WakerRuns =>
    case BlockerReturns =>
    case BlockerFails =>
  }

  lemma BlockerUnlockOwns(s: State)
    requires Ownership(s)
    ensures BOwns(s.blocker.pc) <==> s.owner == By(|s.ws| + 1)
  {
    assert Believes(s, |s.ws| + 1) <==> s.owner == By(|s.ws| + 1);
  }

  lemma WaiterResultKept(s: State, e: Event, t: nat)
    requires Enabled(s, e) && t < |s.ws| && WaiterResult(s.cfg, s.ws[t])
    ensures WaiterResult(s.cfg, Apply(s, e).ws[t])
  {
    hide Apply;
    if ByWaiter(e) && e.t == t {
      OwnResult(s, e);
    } else {
      OthersPush(s, e, t);
    }
  }

  lemma ResultsKept(s: State, e: Event)
    requires Ownership(s) && ResultsInv(s) && Enabled(s, e)
    ensures ResultsInv(Apply(s, e))
  {
    hide Apply, Ownership, Enabled, WaiterResult, BlockerResult;
    BlockerResultKept(s, e);
    forall t | 0 <= t < |s.ws|
      ensures WaiterResult(s.cfg, Apply(s, e).ws[t])
    {
      WaiterResultKept(s, e, t);
    }
  }

  // ---------------------------------------------------------------- all together

  predicate Inv(s: State) {
    Ownership(s) && Modes(s) && Counts(s) && WakerInv(s) && SpinInv(s) && ResultsInv(s)
  }

  lemma InitInv(s: State, cfg: Config)
    requires Init(s, cfg)
    ensures Inv(s)
  {
    assert MarkedSet(s) == {} && CountedSet(s) == {};
  }

  lemma InvKept(s: State, e: Event)
    requires Inv(s) && Enabled(s, e)
    ensures Inv(Apply(s, e))
  {
    OwnershipKept(s, e);
    ModesKept(s, e);
    CountsKept(s, e);
    WakerInvKept(s, e);
    SpinKept(s, e);
    ResultsKept(s, e);
  }

  lemma {:induction false} InvOnRuns(s: State, es: seq<Event>)
    requires Inv(s) && Valid(s, es)
    ensures Inv(Exec(s, es))
    decreases |es|
  {
    if es != [] {
      InvKept(s, es[0]);
      InvOnRuns(Apply(s, es[0]), es[1..]);
    }
  }

  /** Ownership discipline, in every run, for every mix of timeouts, failed requeues, modes and
      interleavings: at most one thread acts as owner of f2; futex_unlock_pi is only called by the
      current owner; no thread calls futex_lock_pi while it owns f2; and futex_wait_requeue_pi
      returned 0 exactly to a waiter that owns f2. */
  lemma OwnershipDiscipline(s0: State, cfg: Config, es: seq<Event>, s: State, e: Event)
    requires Init(s0, cfg) && Valid(s0, es) && s == Exec(s0, es) && Enabled(s, e)
    ensures forall a, b :: 0 <= a < cfg.n + 2 && 0 <= b < cfg.n + 2 && Believes(s, a) && Believes(s, b) ==> a == b
    ensures e.WaiterUnlocks? ==> s.owner == By(e.t)
    ensures e.WakerUnlocks? ==> s.owner == By(cfg.n)
    ensures e.BlockerUnlocks? ==> s.owner == By(cfg.n + 1)
    ensures e.WaiterRuns? && s.ws[e.t].pc == Relock ==> s.owner != By(e.t)
    ensures e == WakerRuns && s.waker.pc == KLock ==> s.owner != By(cfg.n)
    ensures e == BlockerRuns && s.blocker.pc == BLock ==> s.owner != By(cfg.n + 1)
    ensures e.WaiterRuns? && s.ws[e.t].pc == Woke ==> (s.ws[e.t].ret >= 0 <==> s.owner == By(e.t))
  {
    InitInv(s0, cfg);
    InvOnRuns(s0, es);
    hide Init, Valid, Counts, WakerInv;
    if ByWaiter(e) {
      assert Believes(s, e.t) <==> s.owner == By(e.t);
    }
    assert Believes(s, cfg.n) <==> s.owner == By(cfg.n);
    assert Believes(s, cfg.n + 1) <==> s.owner == By(cfg.n + 1);
  }

  function OnF1Set(s: State): set<nat> {
    set t: nat | 0 <= t < |s.ws| && s.ws[t].pc == OnF1
  }

  function NotYetSet(s: State): set<nat> {
    set t: nat | 0 <= t < |s.ws| && s.ws[t].pc in {Start, Marking, Calling}
  }

  /** Left f1, or never got onto it, by an own failed return. */
  function OwnReturnSet(s: State): set<nat> {
    set t: nat | 0 <= t < |s.ws| && Past(s.ws[t].pc) && t !in s.moved
  }

  lemma FourParts(a: set<nat>, b: set<nat>, c: set<nat>, d: set<nat>, n: nat)
    requires a !! b && (a + b) !! c && (a + b + c) !! d
    requires forall t: nat :: t in Range(n) <==> t in a + b + c + d
    ensures |a| + |b| + |c| + |d| == n
  {
    assert a + b + c + d == Range(n);
    RangeSize(n);
    UnionSize(a, b);
    UnionSize(a + b, c);
    UnionSize(a + b + c, d);
  }

  lemma Partition(s: State)
    requires Counts(s)
    ensures |s.moved| + |OnF1Set(s)| + |OwnReturnSet(s)| + |NotYetSet(s)| == |s.ws|
  {
    hide Range;
    var a, b, c := OnF1Set(s), OwnReturnSet(s), NotYetSet(s);
    assert s.moved !! a && (s.moved + a) !! b && (s.moved + a + b) !! c;
    forall t: nat
      ensures t in Range(|s.ws|) <==> t in s.moved + a + b + c
    {
    }
    FourParts(s.moved, a, b, c, |s.ws|);
  }

  /** Conservation of waiters, in every run: wherever the waker is about to make a call or to test
      its loop, task_count is the number of waiters ever taken off f1 by a requeue; these, those
      still on f1, those that returned by themselves and those not yet queued are all N. */
  lemma WaitersConserved(s0: State, cfg: Config, es: seq<Event>, s: State)
    requires Init(s0, cfg) && Valid(s0, es) && s == Exec(s0, es)
    ensures BeforeCall(s.waker.pc) ==> s.waker.task == |s.moved|
    ensures 0 <= s.waker.task <= |s.moved| <= cfg.n
    ensures |s.moved| + |OnF1Set(s)| + |OwnReturnSet(s)| + |NotYetSet(s)| == cfg.n
    ensures 0 <= s.woken <= s.blocked <= cfg.n
  {
    InitInv(s0, cfg);
    InvOnRuns(s0, es);
    Partition(s);
    SubsetSize(CountedSet(s), MarkedSet(s));
    SubsetSize(MarkedSet(s), Range(cfg.n));
    RangeSize(cfg.n);
  }

  lemma CountersFull(s: State)
    requires Counts(s)
    ensures s.blocked >= |s.ws| ==> forall t :: 0 <= t < |s.ws| ==> Marked(s.ws[t].pc)
    ensures s.woken >= |s.ws| <==> forall t :: 0 <= t < |s.ws| ==> Counted(s.ws[t].pc)
  {
    hide Range;
    FullSize(MarkedSet(s), |s.ws|);
    FullSize(CountedSet(s), |s.ws|);
    assert forall t :: 0 <= t < |s.ws| ==> t in Range(|s.ws|);
    if forall t :: 0 <= t < |s.ws| ==> Counted(s.ws[t].pc) {
      assert CountedSet(s) == Range(|s.ws|);
    } else {
      var t :| 0 <= t < |s.ws| && !Counted(s.ws[t].pc);
      assert t !in CountedSet(s);
    }
    if u :| 0 <= u < |s.ws| && !Marked(s.ws[u].pc) {
      assert u !in MarkedSet(s);
    }
  }

  lemma LoopTestMeans(s: State)
    requires Modes(s) && Counts(s) && WakerInv(s)
    ensures s.waker.pc == LoopTest ==>
              (RunWaker(s).waker.pc == WakeDone <==>
               s.moved == Range(s.cfg.n) || forall t :: 0 <= t < s.cfg.n ==> Counted(s.ws[t].pc))
    ensures s.waker.pc == Retest ==>
              (RunWaker(s).waker.pc == WakeDone <==> |s.moved| + |CountedSet(s)| >= s.cfg.n)
  {
    CountersFull(s);
    FullSize(s.moved, s.cfg.n);
    hide Range, Take;
  }

  /** What the waker's tests of the counters mean for the waiters themselves, in every run: no requeue
      is tried before every waiter has announced itself. A signal loop stops exactly when all waiters
      have been requeued or all have come back. A broadcast loop stops exactly when the requeued and
      those that came back, a waiter that did both counted twice, make up N. */
  lemma WakerStopsWhen(s0: State, cfg: Config, es: seq<Event>, s: State)
    requires Init(s0, cfg) && Valid(s0, es) && s == Exec(s0, es)
    ensures s.calls > 0 || s.waker.pc == Requeue ==> forall t :: 0 <= t < cfg.n ==> Marked(s.ws[t].pc)
    ensures s.waker.pc == LoopTest ==>
              (RunWaker(s).waker.pc == WakeDone <==>
               s.moved == Range(cfg.n) || forall t :: 0 <= t < cfg.n ==> Counted(s.ws[t].pc))
    ensures s.waker.pc == Retest ==>
              (RunWaker(s).waker.pc == WakeDone <==> |s.moved| + |CountedSet(s)| >= cfg.n)
  {
    InitInv(s0, cfg);
    InvOnRuns(s0, es);
    CountersFull(s);
    LoopTestMeans(s);
    hide Valid, Ownership, Counts, WakerInv, ResultsInv, Range, RunWaker, CountedSet;
  }

  /** The waker's loops are bounded for every kernel answer: a broadcast makes at most M requeue
      calls, a signal at most M + N + 1, and it gives up only after exactly that many. f1 never
      changes under a call. The result is RET_ERROR when a call failed or the limit was hit;
      otherwise a signal reports the number of waiters it moved, a broadcast that number exactly
      when its last call moved somebody, and else 0. */
  lemma WakerBounded(s0: State, cfg: Config, es: seq<Event>, s: State)
    requires Init(s0, cfg) && Valid(s0, es) && s == Exec(s0, es)
    ensures s.calls <= CallLimit(cfg) && (s.limited ==> s.calls == CallLimit(cfg))
    ensures s.waker.pc == Requeue ==> s.waker.oldVal == s.f1
    ensures s.waker.pc == KExit ==>
              && (s.failed || s.limited ==> s.waker.ret == RET_ERROR)
              && (!s.failed && !s.limited ==>
                    s.waker.ret == if cfg.broadcast && s.last == 0 then 0 else |s.moved|)
  {
    InitInv(s0, cfg);
    InvOnRuns(s0, es);
  }

  /** What the other threads report, in every run: a waiter RET_ERROR exactly when its wait failed
      other than by a timeout that was asked for, the third party exactly when a call of it failed. */
  lemma ResultsReported(s0: State, cfg: Config, es: seq<Event>, s: State, t: nat)
    requires Init(s0, cfg) && Valid(s0, es) && s == Exec(s0, es) && t < cfg.n
    ensures s.ws[t].pc == Exit ==>
              s.ws[t].ret ==
              if s.ws[t].errno == NoError || (cfg.timed && s.ws[t].errno == TimedOut) then 0 else RET_ERROR
    ensures s.blocker.pc == BExit ==> s.blocker.ret == if s.blocker.hurt then RET_ERROR else 0
  {
    InitInv(s0, cfg);
    InvOnRuns(s0, es);
    assert WaiterResult(cfg, s.ws[t]);
  }
}
