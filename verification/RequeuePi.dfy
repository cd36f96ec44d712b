/** The requeue-PI condition-variable test of functional/futex_requeue_pi.c: N waiters, one
    waker (broadcast or signal) and an optional third-party owner share the wait queue of f1
    and the PI mutex f2.

    The calls follow the futex(2) entries of FUTEX_WAIT_REQUEUE_PI, FUTEX_CMP_REQUEUE_PI,
    FUTEX_LOCK_PI and FUTEX_UNLOCK_PI. Which waiters a requeue takes, how many of the
    permitted number, who inherits f2 on unlock, and which calls fail or time out is left
    open: every choice is an event. futex_lock_pi succeeds for waiters and waker. */
module RequeuePi {
  import opened Words

  /** THREAD_MAX, MAX_WAKE_ITERS and the options of a test run. `timed`: a timeout is given. */
  datatype Config = Config(n: nat, max: nat, broadcast: bool, lock: bool, third: bool, timed: bool)

  /** waiterfn */
  datatype WPc =
    | Start                 // old_val = f1
    | Marking               // atomic_inc(waiters_blocked)
    | Calling               // futex_wait_requeue_pi
    | OnF1                  // queued on f1
    | OnF2                  // requeued: queued on f2
    | Granted               // owns f2; the call is about to return 0
    | Woke                  // the call has returned; atomic_inc(waiters_woken)
    | Relock                // futex_lock_pi after a failed call
    | LockWait              // queued on f2 in futex_lock_pi
    | Unlock                // futex_unlock_pi
    | Exit

  /** broadcast_wakerfn and signal_wakerfn */
  datatype KPc =
    | Spin                  // while (waiters_blocked.val < THREAD_MAX), left when the test fails
    | LoopTest              // signal: the loop test
    | KLock                 // futex_lock_pi
    | KLockWait
    | ReadF1                // old_val = f1
    | Requeue               // futex_cmp_requeue_pi
    | Retest                // broadcast: task_count < THREAD_MAX - waiters_woken.val
    | KUnlock               // signal: futex_unlock_pi inside the loop
    | WakeDone              // futex_wake(wake_complete, 1)
    | FinalUnlock           // broadcast: futex_unlock_pi at the end
    | KExit

  /** third_party_blocker */
  datatype BPc =
    | Absent
    | BLock                 // futex_lock_pi
    | BLockWait
    | BWait                 // futex_wait(wake_complete), a word nobody writes: it blocks
    | BAsleep
    | BUnlock               // futex_unlock_pi
    | BExit

  /** How futex_wait_requeue_pi came back. */
  datatype Errno = NoError | TimedOut | OtherError

  datatype Waiter = Waiter(pc: WPc, oldVal: u32, ret: int, errno: Errno)
  datatype Waker = Waker(pc: KPc, oldVal: u32, ret: int, task: int, i: nat)

  /** `hurt` is history: a call of the third party failed. */
  datatype Blocker = Blocker(pc: BPc, ret: int, hurt: bool)

  /** Who holds f2. Waiter t has id t, the waker n, the third party n + 1. */
  datatype Owner = Free | By(id: nat)

  /** The fields after `woken` are history: `moved` the waiters ever taken off f1 by a requeue,
      `owned` the threads that ever held f2, `calls` the requeue calls made, `last` the number of
      waiters the last one took, `failed` whether one of them failed, `limited` whether the
      iteration limit was hit. No event looks at them. */
  datatype State = State(
    cfg: Config, f1: u32, owner: Owner,
    ws: seq<Waiter>, waker: Waker, blocker: Blocker,
    blocked: int, woken: int,
    moved: set<nat>, owned: set<nat>, calls: nat, last: nat, failed: bool, limited: bool)

  /** `Nobody`, or the thread that gets f2. */
  datatype Heir = Nobody | To(id: nat)

  datatype Event =
    | WaiterRuns(t: nat)
    | WaiterFails(t: nat, timedOut: bool)          // futex_wait_requeue_pi returns -1
    | WaiterUnlocks(t: nat, heir: Heir)
    | WakerRuns
    | WakerRequeues(first: Heir, rest: set<nat>, ok: bool)
    | WakerUnlocks(heir: Heir)
    | BlockerRuns
    | BlockerReturns                             // futex_wait returns 0 although nobody woke it
    | BlockerFails                               // futex_lock_pi or futex_wait returns -1
    | BlockerUnlocks(heir: Heir)

  /** What no event changes. */
  predicate Same(s: State, s': State) {
    s'.cfg == s.cfg && s'.f1 == s.f1 && |s'.ws| == |s.ws|
  }

  /** The counters of the waiters, respectively the history of the waker's calls, stay. */
  predicate SameCounters(s: State, s': State) {
    s'.blocked == s.blocked && s'.woken == s.woken
  }

  predicate SameCalls(s: State, s': State) {
    && s'.moved == s.moved && s'.calls == s.calls && s'.last == s.last
    && s'.failed == s.failed && s'.limited == s.limited
  }

  // ---------------------------------------------------------------- f2

  predicate Queued(s: State, id: nat) {
    || (id < |s.ws| && s.ws[id].pc in {OnF2, LockWait})
    || (id == |s.ws| && s.waker.pc == KLockWait)
    || (id == |s.ws| + 1 && s.blocker.pc == BLockWait)
  }

  /** Thread id becomes the owner of f2 and goes on accordingly. */
  function Take(s: State, id: nat): (s': State)
    ensures Same(s, s') && SameCounters(s, s') && SameCalls(s, s')
    ensures id < |s.ws| ==> s'.waker == s.waker
    ensures id <= |s.ws| ==> s'.blocker == s.blocker
    ensures s'.owned == s.owned + {id} && s'.owner == By(id)
  {
    var s1 := s.(owner := By(id), owned := s.owned + {id});
    if id < |s.ws| then
      s1.(ws := s.ws[id := s.ws[id].(pc := if s.ws[id].pc in {OnF1, OnF2} then Granted else Unlock)])
    else if id == |s.ws| then s1.(waker := s.waker.(pc := ReadF1))
    else s1.(blocker := s.blocker.(pc := BWait))
  }

  /** futex_unlock_pi by `me`, whose position has been advanced: a non-owner gets EPERM and
      nothing changes; the owner hands f2 to a queued thread, or leaves it free. */
  function Release(s: State, me: nat, heir: Heir): (s': State)
    ensures Same(s, s') && SameCounters(s, s') && SameCalls(s, s')
  {
    if s.owner != By(me) then s
    else if heir.To? then Take(s, heir.id)
    else s.(owner := Free)
  }

  predicate HeirOk(s: State, me: nat, heir: Heir) {
    match heir
    case To(id) => s.owner == By(me) && Queued(s, id)
    case Nobody => s.owner != By(me) || forall id :: 0 <= id < |s.ws| + 2 ==> !Queued(s, id)
  }

  // ---------------------------------------------------------------- waiters

  function SetPc(s: State, t: nat, pc: WPc): (s': State)
    requires t < |s.ws|
    ensures Same(s, s') && SameCounters(s, s') && SameCalls(s, s')
  {
    s.(ws := s.ws[t := s.ws[t].(pc := pc)])
  }

  predicate CanRun(s: State, t: nat) {
    t < |s.ws| && s.ws[t].pc !in {OnF1, OnF2, LockWait, Unlock, Exit}
  }

  function RunWaiter(s: State, t: nat): (s': State)
    requires CanRun(s, t)
    ensures Same(s, s') && SameCalls(s, s') && s'.waker == s.waker && s'.blocker == s.blocker
    ensures s'.blocked == s.blocked + (if s.ws[t].pc == Marking then 1 else 0)
    ensures s'.woken == s.woken + (if s.ws[t].pc == Woke then 1 else 0)
  {
    var w := s.ws[t];
    match w.pc
    case Start => s.(ws := s.ws[t := w.(pc := Marking, oldVal := s.f1)])
    case Marking => SetPc(s.(blocked := s.blocked + 1), t, Calling)
    case Calling =>
      if s.f1 == w.oldVal then SetPc(s, t, OnF1)
      else s.(ws := s.ws[t := w.(pc := Woke, ret := -1, errno := OtherError)])
    case Granted => s.(ws := s.ws[t := w.(pc := Woke, ret := 0, errno := NoError)])
    case Woke =>
      var s1 := s.(woken := s.woken + 1);
      if w.ret < 0
      then s1.(ws := s.ws[t := w.(pc := Relock, ret := if s.cfg.timed && w.errno == TimedOut then 0 else RET_ERROR)])
      else SetPc(s1, t, Unlock)
    case Relock =>  // a caller that already owns f2 would get EDEADLK
      if s.owner == Free then Take(s, t) else SetPc(s, t, if s.owner == By(t) then Unlock else LockWait)
  }

  // ---------------------------------------------------------------- waker

  function NrRequeue(cfg: Config): nat {
    if cfg.broadcast then INT_MAX else 0
  }

  predicate InF1(s: State, t: nat) {
    t < |s.ws| && s.ws[t].pc == OnF1
  }

  function Taken(first: Heir, rest: set<nat>): set<nat> {
    rest + if first.To? then {first.id} else {}
  }

  /** futex_cmp_requeue_pi(nr_wake = 1): takes up to 1 + nr_requeue waiters off f1. If f2 is free
      the first of them gets it, the others are queued on f2. A mismatch of f1 fails. */
  predicate RequeueOk(s: State, first: Heir, rest: set<nat>, ok: bool) {
    && s.waker.pc == Requeue
    && (forall t <- rest :: InF1(s, t))
    && (first.To? ==> s.owner == Free && InF1(s, first.id) && first.id !in rest)
    && (first == Nobody && s.owner == Free ==> rest == {})
    && |Taken(first, rest)| <= 1 + NrRequeue(s.cfg)
    && (s.waker.oldVal != s.f1 ==> !ok && Taken(first, rest) == {})
  }

  function ToF2(s: State, rest: set<nat>): (s': State)
    ensures Same(s, s') && SameCounters(s, s') && SameCalls(s, s')
  {
    s.(ws := seq(|s.ws|, t requires 0 <= t < |s.ws| => if t in rest then s.ws[t].(pc := OnF2) else s.ws[t]))
  }

  function Moved(s: State, first: Heir, rest: set<nat>): (s': State)
    ensures Same(s, s') && SameCounters(s, s')
    ensures s'.moved == s.moved + Taken(first, rest) && s'.failed == s.failed && s'.limited == s.limited
    ensures (first.To? ==> first.id < |s.ws|) ==> s'.waker == s.waker && s'.blocker == s.blocker
  {
    var s1 := ToF2(s, rest).(moved := s.moved + Taken(first, rest));
    if first.To? then Take(s1, first.id) else s1
  }

  /** Signal, after the call and the unlock: lines 240-256. */
  function AfterSignal(s: State): (s': State)
    ensures Same(s, s') && SameCounters(s, s') && s'.moved == s.moved && s'.owned == s.owned
    ensures s'.ws == s.ws && s'.blocker == s.blocker
  {
    var k := s.waker;
    if k.ret < 0 then s.(waker := k.(pc := WakeDone, ret := RET_ERROR))
    else
      var k1 := k.(task := k.task + k.ret, i := k.i + 1);
      if k1.i > s.cfg.max + s.cfg.n
      then s.(waker := k1.(pc := WakeDone, ret := RET_ERROR), limited := true)
      else s.(waker := k1.(pc := LoopTest))
  }

  /** Broadcast, after the call: lines 177-189. */
  function AfterBroadcast(s: State): (s': State)
    ensures Same(s, s') && SameCounters(s, s') && s'.moved == s.moved && s'.owned == s.owned
    ensures s'.ws == s.ws && s'.blocker == s.blocker
  {
    var k := s.waker;
    if k.ret < 0 then s.(waker := k.(pc := WakeDone, ret := RET_ERROR))
    else if k.i + 1 < s.cfg.max then s.(waker := k.(pc := Retest, task := k.task + k.ret, i := k.i + 1))
    else s.(waker := k.(pc := WakeDone, ret := RET_ERROR, i := k.i + 1), limited := true)
  }

  function RunRequeue(s: State, first: Heir, rest: set<nat>, ok: bool): (s': State)
    ensures Same(s, s') && SameCounters(s, s')
    ensures s'.moved == s.moved + Taken(first, rest)
    ensures s'.ws == Moved(s, first, rest).ws && s'.owned == Moved(s, first, rest).owned
    ensures (first.To? ==> first.id < |s.ws|) ==> s'.blocker == s.blocker
  {
    var s1 := Moved(s, first, rest);
    var s2 := s1.(waker := s.waker.(ret := if ok then |Taken(first, rest)| else -1),
                  calls := s.calls + 1, last := |Taken(first, rest)|, failed := s.failed || !ok);
    if s.cfg.broadcast then AfterBroadcast(s2)
    else if s.cfg.lock then s2.(waker := s2.waker.(pc := KUnlock))
    else AfterSignal(s2)
  }

  /** The last lines of both functions: what args->ret becomes. */
  function FinalRet(cfg: Config, k: Waker): int {
    if (if cfg.broadcast then k.ret > 0 else k.ret >= 0) then k.task else k.ret
  }

  predicate CanWake(s: State) {
    match s.waker.pc
    case Spin => s.blocked >= s.cfg.n
    case LoopTest => true
    case KLock => true
    case ReadF1 => true
    case Retest => true
    case WakeDone => true
    case _ => false
  }

  function RunWaker(s: State): (s': State)
    requires CanWake(s)
    ensures Same(s, s') && SameCounters(s, s') && SameCalls(s, s') && s'.ws == s.ws
    ensures s'.blocker == s.blocker || (s.blocker.pc == BAsleep && s'.blocker == s.blocker.(pc := BUnlock, ret := 0))
  {
    var k, me := s.waker, |s.ws|;
    var enter := if s.cfg.lock then KLock else ReadF1;
    match k.pc
    case Spin => s.(waker := k.(pc := if s.cfg.broadcast then enter else LoopTest))
    case LoopTest => s.(waker := k.(pc := if k.task < s.cfg.n && s.woken < s.cfg.n then enter else WakeDone))
    case KLock =>
      if s.owner == Free then Take(s, me)
      else s.(waker := k.(pc := if s.owner == By(me) then ReadF1 else KLockWait))
    case ReadF1 => s.(waker := k.(pc := Requeue, oldVal := s.f1))
    case Retest => s.(waker := k.(pc := if k.task < s.cfg.n - s.woken then ReadF1 else WakeDone))
    case WakeDone =>
      s.(blocker := if s.blocker.pc == BAsleep then s.blocker.(pc := BUnlock, ret := 0) else s.blocker,
         waker := if s.cfg.broadcast && s.cfg.lock then k.(pc := FinalUnlock)
                  else k.(pc := KExit, ret := FinalRet(s.cfg, k)))
  }

  /** Where the waker goes on after futex_unlock_pi. */
  function LeaveWaker(s: State): (s': State)
    ensures Same(s, s') && SameCounters(s, s') && s'.moved == s.moved && s'.ws == s.ws && s'.owner == s.owner
    ensures s'.blocker == s.blocker
  {
    if s.waker.pc == KUnlock then AfterSignal(s)
    else s.(waker := s.waker.(pc := KExit, ret := FinalRet(s.cfg, s.waker)))
  }

  // ---------------------------------------------------------------- third party

  function RunBlocker(s: State): (s': State)
    requires s.blocker.pc in {BLock, BWait}
    ensures Same(s, s') && SameCounters(s, s') && SameCalls(s, s') && s'.ws == s.ws && s'.waker == s.waker
  {
    if s.blocker.pc == BWait then s.(blocker := s.blocker.(pc := BAsleep))
    else if s.owner == Free then Take(s, |s.ws| + 1)
    else if s.owner == By(|s.ws| + 1) then s.(blocker := s.blocker.(pc := BExit, ret := RET_ERROR))
    else s.(blocker := s.blocker.(pc := BLockWait))
  }

  /** A failed lock skips to the end; a failed wait is remembered and f2 is unlocked. */
  function FailBlocker(s: State): (s': State)
    requires s.blocker.pc in {BLock, BLockWait, BWait, BAsleep}
    ensures Same(s, s') && SameCounters(s, s') && SameCalls(s, s') && s'.ws == s.ws && s'.waker == s.waker
  {
    s.(blocker := if s.blocker.pc in {BLock, BLockWait} then Blocker(BExit, RET_ERROR, true)
                  else Blocker(BUnlock, -1, true))
  }

  /** Where the third party goes on after futex_unlock_pi; EPERM counts as an error. */
  function LeaveBlocker(s: State): (s': State)
    ensures Same(s, s') && SameCounters(s, s') && SameCalls(s, s') && s'.ws == s.ws && s'.waker == s.waker
  {
    var bad := s.blocker.ret != 0 || s.owner != By(|s.ws| + 1);
    s.(blocker := s.blocker.(pc := BExit, ret := if bad then RET_ERROR else 0))
  }

  // ---------------------------------------------------------------- the system

  predicate Enabled(s: State, e: Event) {
    match e
    case WaiterRuns(t) => CanRun(s, t)
    case WaiterFails(t, _) => t < |s.ws| && s.ws[t].pc in {Calling, OnF1, OnF2}
    case WaiterUnlocks(t, heir) => t < |s.ws| && s.ws[t].pc == Unlock && HeirOk(s, t, heir)
    case WakerRuns => CanWake(s)
    case WakerRequeues(first, rest, ok) => RequeueOk(s, first, rest, ok)
    case WakerUnlocks(heir) => s.waker.pc in {KUnlock, FinalUnlock} && HeirOk(s, |s.ws|, heir)
    case BlockerRuns => s.blocker.pc in {BLock, BWait}
    case BlockerReturns => s.blocker.pc == BAsleep
    case BlockerFails => s.blocker.pc in {BLock, BLockWait, BWait, BAsleep}
    case BlockerUnlocks(heir) => s.blocker.pc == BUnlock && HeirOk(s, |s.ws| + 1, heir)
  }

  function Apply(s: State, e: Event): (s': State)
    requires Enabled(s, e)
    ensures Same(s, s')
  {
    match e
    case WaiterRuns(t) => RunWaiter(s, t)
    case WaiterFails(t, timedOut) =>
      s.(ws := s.ws[t := s.ws[t].(pc := Woke, ret := -1, errno := if timedOut then TimedOut else OtherError)])
    case WaiterUnlocks(t, heir) => Release(SetPc(s, t, Exit), t, heir)
    case WakerRuns => RunWaker(s)
    case WakerRequeues(first, rest, ok) => RunRequeue(s, first, rest, ok)
    case WakerUnlocks(heir) => Release(LeaveWaker(s), |s.ws|, heir)
    case BlockerRuns => RunBlocker(s)
    case BlockerReturns => s.(blocker := s.blocker.(pc := BUnlock, ret := 0))
    case BlockerFails => FailBlocker(s)
    case BlockerUnlocks(heir) => Release(LeaveBlocker(s), |s.ws| + 1, heir)
  }

  predicate Init(s: State, cfg: Config) {
    && s.cfg == cfg && 1 <= cfg.n <= INT_MAX && 1 <= cfg.max && s.owner == Free
    && |s.ws| == cfg.n && (forall t :: 0 <= t < cfg.n ==> s.ws[t].pc == Start)
    && s.waker == Waker(Spin, s.waker.oldVal, 0, 0, 0)
    && s.blocker == Blocker(if cfg.third then BLock else Absent, 0, false)
    && s.blocked == 0 && s.woken == 0
    && s.moved == {} && s.owned == {} && s.calls == 0 && s.last == 0
    && !s.failed && !s.limited
  }

  predicate Valid(s: State, es: seq<Event>)
    decreases |es|
  {
    es == [] || (Enabled(s, es[0]) && Valid(Apply(s, es[0]), es[1..]))
  }

  function Exec(s: State, es: seq<Event>): (s': State)
    requires Valid(s, es)
    ensures Same(s, s')
    decreases |es|
  {
    if es == [] then s else Exec(Apply(s, es[0]), es[1..])
  }
}
