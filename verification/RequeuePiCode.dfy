/** The text of functional/futex_requeue_pi.c, thread by thread, and the calls it makes: a reference
    that shares only data types with the transition system. */
module RequeuePiCode {
  import opened Words
  import R = RequeuePi

  type Errno = R.Errno
  type Config = R.Config
  type Heir = R.Heir

  /** A call or a shared access, with what it returned or who was chosen. A call that can block has
      an entry for its return where the code looks at the result. */
  datatype Call =
    | ReadF1(oldVal: u32)
    | IncBlocked                                   // atomic_inc(&waiters_blocked)
    | IncWoken                                     // atomic_inc(&waiters_woken)
    | SeesBlocked(seen: int)                       // the read of waiters_blocked that ends the spin
    | ReadWoken(seen: int)
    | WaitCall(value: u32)                         // futex_wait_requeue_pi
    | WaitBack(ret: int, errno: Errno)
    | LockPi                                       // futex_lock_pi
    | LockFails                                    // ... returns an error, at once or after it has queued
    | UnlockPi(heir: Heir)                         // futex_unlock_pi, and who gets f2
    | CmpRequeue(value: u32, nrRequeue: nat, first: Heir, rest: set<nat>, ret: int)
    | WakeComplete                                 // futex_wake(&wake_complete, 1)
    | WaitComplete                                 // futex_wait(&wake_complete, ...)
    | CompleteBack(ret: int)
    | Exits(ret: int)                              // pthread_exit, args->ret

  // Each predicate holds of the calls possible from that point of the code on: all up to some moment,
  // or, if `done`, all up to the end of the thread.

  /** pthread_exit((void *)&args->ret) */
  predicate ExitCode(ret: int, log: seq<Call>, done: bool) {
    if log == [] then !done else log[0] == Exits(ret) && log[1..] == [] && done
  }

  // ---------------------------------------------------------------- waiterfn

  /** old_val = f1 */
  predicate WaiterCode(timed: bool, log: seq<Call>, done: bool) {
    if log == [] then !done else log[0].ReadF1? && MarkCode(timed, log[0].oldVal, log[1..], done)
  }

  predicate MarkCode(timed: bool, oldVal: u32, log: seq<Call>, done: bool) {
    if log == [] then !done else log[0] == IncBlocked && WaitCode(timed, oldVal, log[1..], done)
  }

  predicate WaitCode(timed: bool, oldVal: u32, log: seq<Call>, done: bool) {
    if log == [] then !done else log[0] == WaitCall(oldVal) && WaitBackCode(timed, log[1..], done)
  }

  predicate WaitBackCode(timed: bool, log: seq<Call>, done: bool) {
    if log == [] then !done else log[0].WaitBack? && WokenCode(timed, log[0].ret, log[0].errno, log[1..], done)
  }

  /** atomic_inc, and the branch on the result: only a timeout that was asked for is no error */
  predicate WokenCode(timed: bool, ret: int, errno: Errno, log: seq<Call>, done: bool) {
    if log == [] then !done
    else
      log[0] == IncWoken &&
      if ret >= 0 then WaiterUnlockCode(ret, log[1..], done)
      else RelockCode(if timed && errno == R.TimedOut then 0 else RET_ERROR, log[1..], done)
  }

  predicate RelockCode(ret: int, log: seq<Call>, done: bool) {
    if log == [] then !done else log[0] == LockPi && WaiterUnlockCode(ret, log[1..], done)
  }

  predicate WaiterUnlockCode(ret: int, log: seq<Call>, done: bool) {
    if log == [] then !done else log[0].UnlockPi? && ExitCode(ret, log[1..], done)
  }

  // ---------------------------------------------------------------- broadcast_wakerfn

  predicate BroadcastCode(c: Config, task: int, i: int, log: seq<Call>, done: bool) {
    if log == [] then !done
    else
      log[0].SeesBlocked? && log[0].seen >= c.n &&
      if c.lock then BroadcastLockCode(c, task, i, log[1..], done) else BroadcastReadCode(c, task, i, log[1..], done)
  }

  predicate BroadcastLockCode(c: Config, task: int, i: int, log: seq<Call>, done: bool) {
    if log == [] then !done else log[0] == LockPi && BroadcastReadCode(c, task, i, log[1..], done)
  }

  /** continue_requeue: */
  predicate BroadcastReadCode(c: Config, task: int, i: int, log: seq<Call>, done: bool)
    decreases |log|
  {
    if log == [] then !done else log[0].ReadF1? && BroadcastCallCode(c, log[0].oldVal, task, i, log[1..], done)
  }

  predicate BroadcastCallCode(c: Config, oldVal: u32, task: int, i: int, log: seq<Call>, done: bool)
    decreases |log|
  {
    if log == [] then !done
    else
      log[0].CmpRequeue? && log[0].value == oldVal && log[0].nrRequeue == INT_MAX &&
      var ret := log[0].ret;
      if ret < 0 then BroadcastEndCode(c, RET_ERROR, task, log[1..], done)
      else if i + 1 < c.max then BroadcastTestCode(c, ret, task + ret, i + 1, log[1..], done)
      else BroadcastEndCode(c, RET_ERROR, task, log[1..], done)
  }

  /** if (task_count < THREAD_MAX - waiters_woken.val) goto continue_requeue */
  predicate BroadcastTestCode(c: Config, ret: int, task: int, i: int, log: seq<Call>, done: bool)
    decreases |log|
  {
    if log == [] then !done
    else
      log[0].ReadWoken? &&
      if task < c.n - log[0].seen then BroadcastReadCode(c, task, i, log[1..], done)
      else BroadcastEndCode(c, ret, task, log[1..], done)
  }

  predicate BroadcastEndCode(c: Config, ret: int, task: int, log: seq<Call>, done: bool) {
    if log == [] then !done
    else
      log[0] == WakeComplete &&
      var final := if ret > 0 then task else ret;
      if c.lock then BroadcastUnlockCode(final, log[1..], done) else ExitCode(final, log[1..], done)
  }

  predicate BroadcastUnlockCode(ret: int, log: seq<Call>, done: bool) {
    if log == [] then !done else log[0].UnlockPi? && ExitCode(ret, log[1..], done)
  }

  // ---------------------------------------------------------------- signal_wakerfn

  predicate SignalCode(c: Config, ret: int, task: int, i: int, log: seq<Call>, done: bool) {
    if log == [] then !done
    else log[0].SeesBlocked? && log[0].seen >= c.n && SignalLoopCode(c, ret, task, i, log[1..], done)
  }

  /** while (task_count < THREAD_MAX && waiters_woken.val < THREAD_MAX) */
  predicate SignalLoopCode(c: Config, ret: int, task: int, i: int, log: seq<Call>, done: bool)
    decreases |log|, 1
  {
    if task >= c.n then SignalEndCode(c, ret, task, log, done)
    else
      if log == [] then !done
    else
      (log[0].ReadWoken? &&
       if log[0].seen >= c.n then SignalEndCode(c, ret, task, log[1..], done)
       else if c.lock then SignalLockCode(c, task, i, log[1..], done)
       else SignalReadCode(c, task, i, log[1..], done))
  }

  predicate SignalLockCode(c: Config, task: int, i: int, log: seq<Call>, done: bool)
    decreases |log|, 0
  {
    if log == [] then !done else log[0] == LockPi && SignalReadCode(c, task, i, log[1..], done)
  }

  predicate SignalReadCode(c: Config, task: int, i: int, log: seq<Call>, done: bool)
    decreases |log|, 0
  {
    if log == [] then !done else log[0].ReadF1? && SignalCallCode(c, log[0].oldVal, task, i, log[1..], done)
  }

  predicate SignalCallCode(c: Config, oldVal: u32, task: int, i: int, log: seq<Call>, done: bool)
    decreases |log|, 0
  {
    if log == [] then !done
    else
      log[0].CmpRequeue? && log[0].value == oldVal && log[0].nrRequeue == 0 &&
      if c.lock then SignalUnlockCode(c, log[0].ret, task, i, log[1..], done)
      else SignalNextCode(c, log[0].ret, task, i, log[1..], done)
  }

  predicate SignalUnlockCode(c: Config, ret: int, task: int, i: int, log: seq<Call>, done: bool)
    decreases |log|, 0
  {
    if log == [] then !done else log[0].UnlockPi? && SignalNextCode(c, ret, task, i, log[1..], done)
  }

  /** the rest of the loop body: the error, the count and the limit */
  predicate SignalNextCode(c: Config, ret: int, task: int, i: int, log: seq<Call>, done: bool)
    decreases |log|, 2
  {
    if ret < 0 then SignalEndCode(c, RET_ERROR, task, log, done)
    else if i + 1 > c.max + c.n then SignalEndCode(c, RET_ERROR, task + ret, log, done)
    else SignalLoopCode(c, ret, task + ret, i + 1, log, done)
  }

  predicate SignalEndCode(c: Config, ret: int, task: int, log: seq<Call>, done: bool) {
    if log == [] then !done else log[0] == WakeComplete && ExitCode(if ret >= 0 then task else ret, log[1..], done)
  }

  // ---------------------------------------------------------------- third_party_blocker

  predicate ThirdCode(log: seq<Call>, done: bool) {
    if log == [] then !done else if log[0] == LockPi then ThirdLockedCode(log[1..], done) else ThirdFailsCode(log, done)
  }

  predicate ThirdLockedCode(log: seq<Call>, done: bool) {
    if log == [] then !done else if log[0] == WaitComplete then ThirdWaitCode(log, done) else ThirdFailsCode(log, done)
  }

  /** a failed lock goes to the end */
  predicate ThirdFailsCode(log: seq<Call>, done: bool) {
    if log == [] then !done else log[0] == LockFails && ExitCode(RET_ERROR, log[1..], done)
  }

  predicate ThirdWaitCode(log: seq<Call>, done: bool) {
    if log == [] then !done else log[0] == WaitComplete && ThirdBackCode(log[1..], done)
  }

  predicate ThirdBackCode(log: seq<Call>, done: bool) {
    if log == [] then !done else log[0].CompleteBack? && ThirdUnlockCode(log[0].ret, log[1..], done)
  }

  predicate ThirdUnlockCode(ret: int, log: seq<Call>, done: bool) {
    if log == [] then !done else log[0].UnlockPi? && ExitCode(if ret != 0 then RET_ERROR else 0, log[1..], done)
  }

  // ---------------------------------------------------------------- the kernel

  /** The third party and wake_complete: not in futex_wait, blocked there, or woken. */
  datatype Sleep = Elsewhere | Asleep | Woken

  /** f1 with its wait queue, the PI mutex f2 with its owner and queue, and the counters. The fields
      from `moved` on record what was done. */
  datatype Kernel = Kernel(
    f1: u32, onF1: set<nat>, owner: R.Owner, onF2: set<nat>, blocked: int, woken: int, third: Sleep,
    moved: set<nat>, owned: set<nat>, calls: nat, last: nat, failed: bool)

  /** A blocked thread makes no call. */
  predicate Up(k: Kernel, id: nat) {
    id !in k.onF1 && id !in k.onF2
  }

  /** Thread id may make this call and get this answer, by the futex(2) manual page. */
  predicate Permits(k: Kernel, id: nat, c: Call) {
    match c
    case ReadF1(oldVal) => Up(k, id) && oldVal == k.f1
    case IncBlocked => Up(k, id)
    case IncWoken => Up(k, id)
    case SeesBlocked(seen) => Up(k, id) && seen == k.blocked
    case ReadWoken(seen) => Up(k, id) && seen == k.woken
    case WaitCall(_) => Up(k, id)
    case WaitBack(ret, errno) =>
      if ret == 0 then Up(k, id) && k.owner == R.By(id) && errno == R.NoError
      else ret == -1 && k.owner != R.By(id) && errno != R.NoError
    case LockPi => Up(k, id) && k.owner != R.By(id)
    case LockFails => k.owner != R.By(id)
    case UnlockPi(heir) =>
      Up(k, id) && k.owner == R.By(id) && if heir.To? then heir.id in k.onF2 else k.onF2 == {}
    case CmpRequeue(value, nrRequeue, first, rest, ret) =>
      && Up(k, id) && rest <= k.onF1
      && (first.To? ==> k.owner == R.Free && first.id in k.onF1 && first.id !in rest)
      && (first == R.Nobody && k.owner == R.Free ==> rest == {})
      && |R.Taken(first, rest)| <= 1 + nrRequeue
      && (ret == |R.Taken(first, rest)| || ret == -1)
      && (value != k.f1 ==> ret == -1 && R.Taken(first, rest) == {})
    case WakeComplete => Up(k, id)
    case WaitComplete => Up(k, id) && k.third == Elsewhere
    case CompleteBack(ret) => if ret == 0 then k.third != Elsewhere else ret == -1 && k.third == Asleep
    case Exits(_) => Up(k, id) && k.owner != R.By(id)
  }

  function Owned(k: Kernel, id: nat): Kernel {
    k.(owner := R.By(id), onF1 := k.onF1 - {id}, onF2 := k.onF2 - {id}, owned := k.owned + {id})
  }

  function Effect(k: Kernel, id: nat, c: Call): Kernel {
    match c
    case ReadF1(_) => k
    case IncBlocked => k.(blocked := k.blocked + 1)
    case IncWoken => k.(woken := k.woken + 1)
    case SeesBlocked(_) => k
    case ReadWoken(_) => k
    case WaitCall(value) => if value == k.f1 then k.(onF1 := k.onF1 + {id}) else k
    case WaitBack(_, _) => k.(onF1 := k.onF1 - {id}, onF2 := k.onF2 - {id})
    case LockPi => if k.owner == R.Free then Owned(k, id) else k.(onF2 := k.onF2 + {id})
    case LockFails => k.(onF2 := k.onF2 - {id})
    case UnlockPi(heir) => if heir.To? then Owned(k, heir.id) else k.(owner := R.Free)
    case CmpRequeue(_, _, first, rest, ret) =>
      var k1 := k.(onF1 := k.onF1 - rest, onF2 := k.onF2 + rest, moved := k.moved + R.Taken(first, rest),
                   calls := k.calls + 1, last := |R.Taken(first, rest)|, failed := k.failed || ret < 0);
      if first.To? then Owned(k1, first.id) else k1
    case WakeComplete => if k.third == Asleep then k.(third := Woken) else k
    case WaitComplete => k.(third := Asleep)
    case CompleteBack(_) => k.(third := Elsewhere)
    case Exits(_) => k
  }
}
