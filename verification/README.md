# Futex test suite: mutex, barrier and requeue-PI protocols

A Dafny model of the concurrent code of the futex test suite, and proofs about all of its
interleavings, for any number of threads.

- **The three-state futex mutex** (performance/futex_wait.c). `Mutex` is the transition system:
  one event per access to the word or system call, with stale local copies of the word and with
  spurious returns of FUTEX_WAIT. It proves mutual exclusion, exactly-once release and freedom
  from lost wake-ups. `MutexRuns` proves that every run is a run of a free/held lock, that each
  thread takes and releases the lock exactly once per round, and that every schedule ends.
- **The thread barrier and the `locktest` driver** (performance/harness.h). `Barrier` is one
  barrier, with its 32-bit words and the signed readings of them. `Locktest` composes two barriers
  and the mutex with the main thread, including failed thread creation. `LocktestRuns` proves
  phase separation, the abort path, and whole-program completion with the exact work count.
- **The requeue-PI test** (functional/futex_requeue_pi.c). `RequeuePi` is the transition system of
  waiters, waker and third-party owner over f1 and the PI mutex f2; which waiters a requeue takes,
  who inherits f2, and which calls fail or time out are events. `RequeuePiSafety` proves the
  ownership discipline, the conservation of waiters, the loop bounds and what each thread reports.
  `RequeuePiRuns` proves that every run is finite and cannot end before all threads have exited.
  `RequeuePiDrain` proves when the test drains, `RequeuePiReach` that its conditions are reached from
  the start, `RequeuePiLostWake` how the third party is never woken, `RequeuePiJam` exactly when the
  test can and must drain, and `RequeuePiLate` that it is not sure to from the start.
  `RequeuePiBroadcast` proves exactly when a broadcast serves all waiters and reports their number,
  `RequeuePiTimeouts` the same question with timeouts and failed waits, `RequeuePiSignal` both for a
  signal. `UnitTest` is the join loop and the verdict.
- **The code in place.** `FutexWord` holds the futex word and its wait queue (include/futextest.h)
  and the atomic counter (include/atomic.h). `MutexProgram`, `LocktestProgram` and
  `RequeuePiProgram` are classes whose methods make one atomic step each, updating words, queues
  and the threads' variables; each method is proved equal to its event. `MutexProgram.RunRounds`,
  `LocktestProgram.Locktest`, `RequeueTest.Run` and `UnitTest.RunTest` run under an arbitrary
  scheduler and terminate.

- **The code as a reference.** `MutexTrace`, `BarrierTrace`, `LocktestTrace` and `RequeuePiTrace` prove
  the transition systems against the program text. The text of each thread function is written down
  once more, as predicates on the accesses and calls a thread makes and the results it sees
  (`LockCode`, `SyncCode`, `Text`, and all of `RequeuePiCode`), without reference to any state of the
  model; next to it stands what a futex word (`FutexHistory`) or the kernel (`RequeuePiCode.Permits`)
  lets happen. `ProgramOrder` proves for each system that every run consists of such calls in program
  order and is such a history; `AccessPossible` and `CallPossible` prove that the model omits none.

`Words` has the conversions between `int` and the unsigned word, `Sums` finite sums,
`Sets` finite sets of thread ids, `Traces` the logs of several threads.

A run is a sequence of events (`Valid`, `Exec`). Lemmas over `Valid(s, es)` speak of every schedule.
`spurious` in a state bounds the spurious returns still to come; any finite run is a run from a
large enough bound, so safety holds with any number of them and the length bounds count them.

Places where the code does not do what its own text suggests; the model follows the code.

- The usage text says that `-o` cancels `-l` (functional/futex_requeue_pi.c:79). The option loop lets
  a later `-l` switch it on again (functional/futex_requeue_pi.c:382-388). With both on, the third
  party sleeps with f2 until the waker wakes it, and the waker needs f2. In a broadcast the waker holds
  f2 up to its wake, so the third party is never woken, in any run in which its own calls neither fail
  nor return without cause (`LockedBroadcastStrands`); `CompletesIff` says that this and a limit of one
  call are all that keeps a configuration from ever completing. A signal with both options may
  deadlock (`DeadlocksIff`), and still has a run that completes unless the third party has f2 first
  (`CanDrainIff`).
- The third party waits on a word that nobody changes and is woken once (functional/futex_requeue_pi.c:191,
  259 and 276-277). With -o, in every configuration, some run without a failed call has that wake too early,
  and the third party never comes back (`WakeMayBeLost`). `MustDrainIff`: with all waiters queued, every
  run without a failed call ends with everybody through if and only if there is no third party, or it is
  asleep already and -l is not given. From the start no configuration is sure to complete, since a
  waiter announces itself before it queues (`NeverCertain`).
- A broadcast is meant for all waiters (functional/futex_requeue_pi.c:75), but its loop test adds those
  requeued and those woken (functional/futex_requeue_pi.c:182), so a waiter that is both counts twice.
  `BroadcastServesAllIff`: as long as no wait fails, a broadcast that ends without an error has served
  all waiters, in every run, if and only if -l is given, there is one waiter only, or the iteration
  limit is 1, with which no broadcast ends without an error. `StopsEarly` is the run that leaves a
  waiter behind in every other configuration, and `LeftForever` shows that it stays there. With
  timeouts or failed waits -l is no help: `BroadcastLeavesNobodyIff`. A signal counts nobody twice and
  always serves all (`SignalServes`, `ServesAllIff`, `LeavesNobodyIff`).
- A broadcast waker reports its count only if its last requeue call moved somebody
  (functional/futex_requeue_pi.c:196), a signal waker also when it moved nobody
  (functional/futex_requeue_pi.c:261); `WakerBounded` states what either reports. `ReportsZero` is a
  broadcast that has moved waiters and reports 0; `BroadcastReportsAllIff` says when that cannot happen.

## Model

| member | source | states |
|---|---|---|
| Mutex.OwnershipKept | performance/futex_wait.c:61-87 | Every event, stale `status` and spurious returns included, keeps: word at most 2; nonzero exactly when some thread is between its winning exchange and its release; at most one such thread; a thread about to do the 2 to 0 exchange sees 2 |
| Mutex.RescueKept | performance/futex_wait.c:66-75 | Every event keeps: a sleeper implies word 2, a pending futex_wake, or an awake thread inside the contended loop |
| Mutex.ContendingLeaves | performance/futex_wait.c:66-75 | A thread leaves the contended loop only by its own step: asleep on a word that is 2, or as owner by its own exchange of 0 for 2 |
| Mutex.ContendingSees | performance/futex_wait.c:67-75 | A thread comes to futex_wait only with a word other than 0 seen, to the exchange of 0 for 2 only after it saw 0 in its own exchange or read, and from futex_wait, blocked or not, to the plain read |
| Mutex.MutualExclusion | performance/futex_wait.c:61-87 | On every run from the start the word is 0, 1 or 2, is nonzero iff a thread holds the lock, and no two threads hold it |
| Mutex.LockReturnsToWinner | performance/futex_wait.c:61-76 | futex_wait_lock returns only in the event in which that thread's own exchange took the word from 0 to 1 or from 0 to 2 |
| Mutex.UnlockReleasesOnce | performance/futex_wait.c:78-87 | On every run: the owner reads 1 or 2, cannot leave unlock without having put 0, its ignored 2 to 0 exchange succeeds, it goes to futex_wake iff it released from 2, and others can only raise 1 to 2 meanwhile |
| Mutex.WakeupsNotLost | performance/futex_wait.c:66-86 | On every run: sleepers are always looked after, and while a thread is unfinished some thread is awake |
| MutexRuns.StepRefines | performance/futex_wait.c:61-87 | Each event is acquire by the actor, release by the actor, or no change, of a lock that is free or held by one thread |
| MutexRuns.RunRefines | performance/futex_wait.c:61-95 | Every run of the mutex is a run of that lock |
| MutexRuns.AcquiresAreReleased | performance/futex_wait.c:89-95 | Along a run of the lock, a thread's acquisitions and releases match, up to the one it still holds |
| MutexRuns.AcquiresPerThread | performance/futex_wait.c:89-95 | In every run, acquisitions by a thread plus its rounds still to lock are constant |
| MutexRuns.AcquiresInAll | performance/futex_wait.c:89-95 | The same, summed over all threads |
| MutexRuns.StepDecreases | performance/futex_wait.c:61-95 | Every event lowers an explicit measure: remaining word changes, then steps to the next change, sleep or wake |
| MutexRuns.WordChangesBounded | performance/futex_wait.c:61-95 | Word changes in a run plus those still possible never exceed the initial number |
| MutexRuns.Termination | performance/futex_wait.c:61-95 | With N threads, L rounds and B spurious returns no run exceeds 3NL(6N+1)+3N+3B events and the word changes at most 3NL times |
| MutexRuns.StuckMeans | performance/futex_wait.c:61-95 | Under the invariant no thread is awake iff no event is possible, spurious returns included |
| MutexRuns.FinishedRun | performance/futex_wait.c:61-95 | A run that cannot continue has word 0, nobody asleep, every thread done with exactly L acquisitions and L releases, N*L in all |
| MutexTrace.ProgramOrder | performance/futex_wait.c:61-95 | On every run each thread's accesses are those of futex_wait_test in program order, with the branches that the values seen demand, all of them once it is done, and all accesses are a history of one futex word that starts at 0 |
| MutexTrace.AccessPossible | performance/futex_wait.c:61-95 | Conversely, an access that comes next in a thread's code and that the word allows, whichever sleeper it wakes, is made by some event |
| Barrier.InvKept | performance/harness.h:65-90 | Every access by worker or main keeps the barrier invariant: exact countdown, no stranded sleeper, one opening, equal return values |
| Barrier.AwayStep | performance/harness.h:68-68 | A futex_dec finds a positive word, so the unsigned word goes down by one and never wraps |
| Barrier.CountdownExact | performance/harness.h:59-83 | The signed reading of the countdown is the number of workers that have not counted down, and 0 iff all have |
| Barrier.MainNotStranded | performance/harness.h:66-83 | If main sleeps in barrier_wait, a worker on its way to the test and wake can run |
| Barrier.MainWokenAtZero | performance/harness.h:69-70 | Main is taken out of its sleep only by a worker that has found the countdown at 0, or spuriously |
| Barrier.WorkersNotStranded | performance/harness.h:71-90 | A worker asleep implies that the barrier is shut or main has its wake-all to do; all returned values agree |
| Barrier.OpenedOnce | performance/harness.h:73-90 | `unblock` is written at most once, and the stored int, -1 included, is what workers read back |
| Barrier.StepDecreases | performance/harness.h:65-90 | Every barrier access lowers a measure, so no barrier loop runs for ever |
| BarrierTrace.ProgramOrder | performance/harness.h:58-90 | On every run of a fresh barrier each worker's accesses are those of barrier_sync, main's those of barrier_wait and barrier_unblock, in program order and with the branches demanded, all of them once they have returned, and they are histories of a word that starts at n and one that starts at 0 |
| BarrierTrace.AccessPossible | performance/harness.h:65-90 | Conversely, an access that comes next in a thread's code and that the words allow is made by some event |
| Locktest.InvKept | performance/harness.h:92-150 | Every event of main, worker or mutex keeps the whole-program invariant: parts visited in order, main's place, words stored, workers joined |
| LocktestRuns.PhasesSeparated | performance/harness.h:92-142 | A touched mutex implies all N arrived at the first barrier and `before` sampled; `after` sampled implies every worker is past its last unlock |
| LocktestRuns.TimedInterval | performance/harness.h:130-142 | In every run each access to the mutex lies strictly between the two clock samples |
| LocktestRuns.SampledWhen | performance/harness.h:130-134 | In every run `before` and `after` are the times of two samples, each taken after barrier_wait on its barrier had returned, with all workers counted down on it and no countdown of it later |
| LocktestRuns.BarriersSound | performance/harness.h:59-100 | In every run, aborted ones included, both barriers have an exact countdown, no stranded sleeper, a worker about to wake main only at countdown 0, and equal return values |
| LocktestRuns.AbortPath | performance/harness.h:85-129 | After a failed creation no worker can enter the lock test or the second barrier, leavers got -1, and at return exactly the created workers have exited |
| LocktestRuns.AbortedIff | performance/harness.h:119-129 | A run takes the abort path iff a creation failed in it |
| LocktestRuns.NeverTouched | performance/harness.h:119-129 | An aborted run leaves the mutex in its initial state |
| LocktestRuns.CanGoOn | performance/harness.h:102-150 | Until main has returned, some event is possible without a spurious wake-up: no deadlock |
| LocktestRuns.NothingAfterReturn | performance/harness.h:102-150 | After main has returned no thread touches the shared frame |
| LocktestRuns.MutexRun | performance/harness.h:95-98 | The mutex accesses of a run form a run of the mutex alone, so all its theorems apply |
| LocktestRuns.RunBounded | performance/harness.h:102-150 | Every schedule of the whole program is finite, with an explicit bound |
| LocktestRuns.Completion | performance/harness.h:102-150 | A run stops iff main has returned; without failed creation it returns RET_PASS with all workers joined, mutex free and exactly threads*(iterations/threads) critical sections, a number in (iterations-threads, iterations]; with one it returns RET_ERROR with exactly the created workers joined |
| LocktestTrace.ProgramOrder | performance/harness.h:92-150 | On every run main's calls are a prefix of the text of locktest: creations up to the first that fails, then the timed path or the abort path, joins in order, the return code, and the whole text once it has returned; the parts at both barriers and at the mutex are runs of those alone, so their program order holds |
| LocktestTrace.PartsPossible | performance/harness.h:92-150 | Conversely, what a barrier or the mutex alone allows to threads that are there is possible in the whole program, spurious returns included, and each creation may fail |
| RequeuePiSafety.OwnershipKept | functional/futex_requeue_pi.c:118-287 | Every event keeps: exactly the owner of f2 is at a position where the code takes itself for the owner, and a free f2 has nobody queued |
| RequeuePiSafety.OwnershipDiscipline | functional/futex_requeue_pi.c:133-278 | In every run, all modes, timeouts and failures: one owner at most; futex_unlock_pi only by the owner; futex_lock_pi never by the owner; the wait returned 0 iff the waiter owns f2 |
| RequeuePiSafety.WaitersConserved | functional/futex_requeue_pi.c:129-247 | At every loop head task_count is the number of waiters ever requeued; requeued, on f1, self-returned and not yet queued add up to N; task_count is at most N |
| RequeuePiSafety.WakerStopsWhen | functional/futex_requeue_pi.c:164-217 | In every run: no requeue is tried before every waiter has announced itself; a signal loop stops iff all waiters were requeued or all have come back; a broadcast loop stops iff requeued plus come back, double counts included, reach N |
| RequeuePiSafety.WakerBounded | functional/futex_requeue_pi.c:173-262 | At most M (broadcast) or M+N+1 (signal) requeue calls, exactly that many when giving up; the result is RET_ERROR when a call failed or the limit was hit; otherwise a signal reports the number of waiters moved, a broadcast that number if its last call moved somebody and 0 if not |
| RequeuePiSafety.ResultsReported | functional/futex_requeue_pi.c:139-147 | A waiter reports RET_ERROR iff its wait failed other than by a requested timeout; the third party iff one of its calls failed |
| RequeuePiRuns.StepDecreases | functional/futex_requeue_pi.c:118-287 | Every event of every thread, failures, timeouts and spurious returns included, lowers a measure |
| RequeuePiRuns.RunBounded | functional/futex_requeue_pi.c:118-287 | No run from the start exceeds 10N+7C+23 events, C being M for a broadcast and M+N+1 for a signal |
| RequeuePiRuns.StuckMeans | functional/futex_requeue_pi.c:118-287 | A run cannot be continued iff all threads have exited: only a call that does not come back holds the test up |
| RequeuePiTrace.ProgramOrder | functional/futex_requeue_pi.c:118-287 | On every run each waiter makes the calls of waiterfn, the waker those of broadcast_wakerfn or signal_wakerfn, the third party those of third_party_blocker, in program order, with the branches that the results demand, to the end once it has exited, and the results they exit with; the calls are possible for the kernel and take it to the state reached |
| RequeuePiTrace.CallPossible | functional/futex_requeue_pi.c:118-287 | Conversely, a call that comes next in a thread's code, with any answer the kernel permits, is made by some event |
| RequeuePiTrace.ExitedHeldF2 | functional/futex_requeue_pi.c:139-147 | In every run a waiter that has exited has held f2 and given it back, also when its wait failed |
| RequeuePiDrain.DrainKept | functional/futex_requeue_pi.c:133-278 | Undisturbed events keep: unmoved waiters are on f1, moved ones pass through ownership without error, calls made match waiters moved |
| RequeuePiDrain.CalmDecreases | functional/futex_requeue_pi.c:133-278 | Every undisturbed event lowers a measure |
| RequeuePiDrain.Drain | functional/futex_requeue_pi.c:133-278 | With all waiters on f1 before the first requeue, runs without a failed call whose wake finds the third party asleep are finite; unless -l and -o are both given, or with both for a single waiter whose waker already has f2, they stop only with every waiter having owned f2, f2 free, one call (broadcast) or N calls (signal) |
| RequeuePiLostWake.StrandedForever | functional/futex_requeue_pi.c:191-278 | If the waker is past its wake, or the options are -b and -l, a third party not back from its wait never comes back, whatever else fails or times out, unless its own call fails or returns without cause |
| RequeuePiLostWake.LockedBroadcastStrands | functional/futex_requeue_pi.c:169-195 | With -b, -l and -o, in every run from the start in which no third-party call fails or returns without cause, the third party never gets past its wait |
| RequeuePiLostWake.WakeMayBeLost | functional/futex_requeue_pi.c:191-277 | In every configuration with -o some run without a failed call wakes too early, and from there the third party never gets past its wait unless its own call fails or returns without cause |
| RequeuePiJam.LostForever | functional/futex_requeue_pi.c:220-278 | With -l and -o, a signal with waiters left to requeue while the third party has f2 never completes without a failed call |
| RequeuePiJam.SteerDown | functional/futex_requeue_pi.c:217-287 | With -l and -o, a signal whose third party does not have f2 has an undisturbed run to completion |
| RequeuePiJam.CanDrainIff | functional/futex_requeue_pi.c:169-287 | With all waiters queued, some run without a failed call completes iff -l and -o are not both given, or the mode is signal and the third party does not have f2 yet |
| RequeuePiJam.DeadlocksIff | functional/futex_requeue_pi.c:217-278 | Signal with -l and -o, all waiters queued: a deadlock of waker and third party can be reached without a failed call unless there is one waiter and the waker already has f2 |
| RequeuePiJam.MustDrainIff | functional/futex_requeue_pi.c:154-287 | With all waiters queued, every run without a failed call that goes on as long as it can has completed iff there is no third party, or it is asleep already and -l is not given; early wakes are included |
| RequeuePiJam.EveryConfigurationStops | functional/futex_requeue_pi.c:289-352 | From the start of every configuration a run without a failed call brings all waiters onto f1 and the third party to sleep, and goes on as long as it can; it has then completed iff -l and -o were not both given |
| RequeuePiJam.CompletesIff | functional/futex_requeue_pi.c:154-352 | Over all runs from the start in which no third-party call fails or returns without cause, some run completes iff -b, -l and -o are not all given, and a broadcast may make two calls |
| RequeuePiLate.NeverCertain | functional/futex_requeue_pi.c:129-134 | From the start of every configuration some run without a failed call goes on as long as it can and has not completed |
| RequeuePiBroadcast.ServeKept | functional/futex_requeue_pi.c:168-194 | In a broadcast, every event but a failing wait keeps: a waiter past f1 has been requeued, and while the waker holds f2 it is still queued there; what an end without error says of limit, waiters and last call |
| RequeuePiBroadcast.LockedBroadcastServes | functional/futex_requeue_pi.c:168-197 | With -l and no failed wait, in every run: the loop stops iff all waiters have been requeued, and an end without error means that all were and N is reported |
| RequeuePiBroadcast.StopsEarly | functional/futex_requeue_pi.c:173-183 | Every broadcast configuration without -l, with two or more waiters and a limit above 1 has a run in which waiter 0 counts twice, the waker ends without error and the last waiter is on f1, not requeued |
| RequeuePiBroadcast.LeftForever | functional/futex_requeue_pi.c:133-134 | After the waker has exited a waiter on f1 stays there in every run in which its own wait does not fail |
| RequeuePiBroadcast.ReportsZero | functional/futex_requeue_pi.c:173-197 | Every such configuration with a limit above 2 has a run that ends without error, has moved N-1 waiters and reports 0 |
| RequeuePiBroadcast.BroadcastServesAllIff | functional/futex_requeue_pi.c:154-201 | Without failed waits, every end without error has all waiters requeued iff -l is given, there is one waiter, or the limit is 1 |
| RequeuePiBroadcast.BroadcastReportsAllIff | functional/futex_requeue_pi.c:154-201 | Without failed waits, every end without error reports the number requeued iff -l is given, there is one waiter, or the limit is at most 2 |
| RequeuePiTimeouts.LockedStopsEarly | functional/futex_requeue_pi.c:133-197 | Every broadcast configuration with -l, two or more waiters and a limit above 1 has a run in which a requeued waiter's wait times out or fails and the broadcast ends without error before the last waiter is on f1 |
| RequeuePiTimeouts.BroadcastLeavesNobodyIff | functional/futex_requeue_pi.c:154-201 | Timeouts and failed waits included, every end without error has all waiters past f1 iff there is one waiter or the limit is 1 |
| RequeuePiSignal.SignalLeavesNobody | functional/futex_requeue_pi.c:217-262 | A signal that ends without error has all waiters past f1, in every run, timeouts and failed waits included |
| RequeuePiSignal.SignalServes | functional/futex_requeue_pi.c:217-262 | A signal without failed waits that ends without error has requeued all waiters and reports N, for every option |
| RequeuePiSignal.ServesAllIff | functional/futex_requeue_pi.c:154-266 | For every configuration: without failed waits, every end without error has all waiters requeued iff the mode is signal, -l is given, there is one waiter, or the limit is 1 |
| RequeuePiSignal.LeavesNobodyIff | functional/futex_requeue_pi.c:154-266 | For every configuration: failures included, every end without error has all waiters past f1 iff the mode is signal, there is one waiter, or the limit is 1 |
| UnitTest.JoinWaiters | functional/futex_requeue_pi.c:344-349 | Whatever unjoined results hold meanwhile, waiter_ret ends at the lowest-index nonzero result, or at a zero when all are zero |
| UnitTest.Conclude | functional/futex_requeue_pi.c:298-364 | The verdict is the first failing of setup, waiters in order, waker, third party, and RET_PASS iff none failed; a missing thread gives RET_ERROR |
| UnitTest.PassMeans | functional/futex_requeue_pi.c:354-364 | In every run from the start in which all threads have exited, the verdict is RET_PASS iff each wait succeeded or timed out as asked, no requeue call failed, no limit was hit and no third-party call failed, and RET_ERROR otherwise; a completed run passes |
| UnitTest.RunTest | functional/futex_requeue_pi.c:289-364 | Under an arbitrary scheduler and kernel the whole test terminates within the bound with all threads exited; its verdict is RET_PASS iff each wait succeeded or timed out as asked, no requeue or third-party call failed and no limit was hit, and RET_ERROR otherwise |
| Words.SignedRoundTrip | performance/harness.h:85-90 | An int stored in a futex word reads back as that int, and a word read as int and passed back is the same word |
| Words.Quotient | performance/harness.h:116-116 | threads*(iterations/threads) lies in (iterations-threads, iterations] |
| FutexWord.Futex.CmpXchg | include/futextest.h:234-238 | Returns the old word and replaces it iff it had the expected value |
| FutexWord.Futex.Dec | include/futextest.h:246-250 | Decrements modulo 2^32 and returns the new word |
| FutexWord.Futex.Set | include/futextest.h:271-276 | Stores the value as an unsigned word and returns it |
| FutexWord.Futex.Wait | include/futextest.h:93-97 | Queues the caller iff the word has the given value |
| FutexWord.Futex.Wake | include/futextest.h:103-107 | Dequeues n sleepers, or all if fewer, of any choice |
| FutexWord.Futex.WakeAny | include/futextest.h:103-107 | Waking one dequeues any sleeper if there is one |
| FutexWord.AtomicInt.Inc | include/atomic.h:63-67 | Increments in place and returns the new value |
| FutexWord.AtomicInt.Set | include/atomic.h:88-93 | Stores and returns the value |
| MutexProgram.LockLoop.StepLock | performance/futex_wait.c:61-76 | One access of futex_wait_lock, in place, is the event of the model |
| MutexProgram.LockLoop.StepUnlock | performance/futex_wait.c:78-87 | One access of futex_cmpxchg_unlock, in place, is an event of the model |
| MutexProgram.LockLoop.StepLoop | performance/futex_wait.c:89-95 | The loop test and countdown, in place, is the event of the model |
| MutexProgram.LockLoop.RunAll | performance/futex_wait.c:61-95 | Under an arbitrary scheduler, spurious returns included, the program terminates with word 0, an empty wait queue and all threads done, and what happened is a run of the model |
| MutexProgram.RunRounds | performance/futex_wait.c:61-95 | N threads of L rounds under an arbitrary scheduler: it terminates within the bound, and each thread has taken and released the lock L times |
| LocktestProgram.ThreadBarrier.constructor | performance/harness.h:58-63 | barrier_init gives the initial barrier state |
| LocktestProgram.ThreadBarrier.StepSync | performance/harness.h:65-74 | One access of barrier_sync, in place, is the worker's event |
| LocktestProgram.ThreadBarrier.StepMain | performance/harness.h:76-90 | One access of barrier_wait, or the wake-all of barrier_unblock, in place, is main's event |
| LocktestProgram.Driver.Step | performance/harness.h:92-150 | Any step of main or a worker on the shared frame, in place, is an event of the whole-program model |
| LocktestProgram.Driver.Run | performance/harness.h:92-150 | Main and all workers under an arbitrary scheduler terminate with main returned, and what happened is a run of the model |
| LocktestProgram.Locktest | performance/harness.h:102-150 | Under an arbitrary scheduler `locktest` returns, RET_ERROR iff a creation failed; otherwise RET_PASS, and the work count the rate is computed from is the number of critical sections run |
| RequeuePiProgram.RequeueTest.StepWaiter | functional/futex_requeue_pi.c:118-148 | One step of waiterfn, in place, is the waiter's event |
| RequeuePiProgram.RequeueTest.StepWaker | functional/futex_requeue_pi.c:154-266 | One step of either waker, in place, is the waker's event |
| RequeuePiProgram.RequeueTest.StepRequeue | functional/futex_requeue_pi.c:174-189 | The requeue call and its bookkeeping, in place, for any kernel answer, is the model's event |
| RequeuePiProgram.RequeueTest.StepBlocker | functional/futex_requeue_pi.c:269-287 | One step of third_party_blocker, in place, failed calls and a spurious return of futex_wait included, is its event |
| RequeuePiProgram.RequeueTest.Step | functional/futex_requeue_pi.c:118-287 | Any step of any thread, in place, is the event of the model and keeps ownership, conservation, loop bounds and results |
| RequeuePiProgram.RequeueTest.RunAll | functional/futex_requeue_pi.c:118-287 | Under any scheduler and any answers of the kernel the program terminates with all threads exited, and what happened is a run of the model |
| RequeuePiProgram.RequeueTest.Run | functional/futex_requeue_pi.c:118-287 | From a state with all waiters queued, -l and -o not both given or a signal with one waiter whose waker has f2, under any scheduler that wakes a third party only when it sleeps and kernel choices without failure, the program terminates with everybody through; what happened is a calm run of the model |

## Left out

- Weak memory: accesses to volatile words and `__sync_*` builtins are sequentially consistent single steps.
- Negative `iterations` and thread counts below 1: the driver then divides by zero, declares an array of negative length or overflows `loops`, which C leaves undefined; `Start` takes iterations of at least 0 and threads from 1 to INT_MAX.
- The kernel behind the calls: hash buckets, priority inheritance boosting, futex keys and mappings, robust futexes. The calls follow the futex(2) manual page; the PI mutex hands over to any queued thread.
- Failure of futex_lock_pi for waiters and the waker, whose results the code ignores; its failure for the third party is modelled.
- The delays at functional/futex_requeue_pi.c:127 and 164-166, which are meant to have all waiters queued before the first requeue: no schedule is excluded, so the drain is proved from such a state, and `RequeuePiLate.NeverCertain` shows that the condition cannot be dropped.
- The clock: `times` samples a logical clock that advances with every event; CPU-time figures and the floating-point rate are not modelled.
- Option parsing, logging, `create_rt_thread`, `usage`, makefiles and shell scripts: plumbing.
- functional/futex_requeue_pi_signal_restart.c, futex_requeue_pi_mismatched_ops.c and the futex_wait_* probes: single-shot tests of kernel behaviour that is not in the repository.
- Bitset, wake-op and non-PI requeue wrappers of include/futextest.h, futex_inc, atomic_dec and atomic_cmpxchg: nothing modelled calls them.
