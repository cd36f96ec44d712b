/** futex_requeue_pi.c as a program: the shared counters, f2 and the threads' own variables are
    updated in place. Each method is proved equal to the event it stands for. */
module RequeuePiProgram {
  import opened Words
  import opened FutexWord
  import opened RequeuePi
  import S = RequeuePiSafety
  import T = RequeuePiRuns
  import D = RequeuePiDrain
  import R = RequeuePiReach

  class RequeueTest {
    const cfg: Config
    const f1: u32
    const blocked: AtomicInt
    const woken: AtomicInt
    var owner: Owner
    var ws: seq<Waiter>
    var waker: Waker
    var blocker: Blocker
    var moved: set<nat>
    var owned: set<nat>
    var calls: nat
    var last: nat
    var failed: bool
    var limited: bool

    function View(): State
      reads this, blocked, woken
    {
      State(cfg, f1, owner, ws, waker, blocker, blocked.val, woken.val, moved, owned,
            calls, last, failed, limited)
    }

    /** unit_test, up to the creation of the threads. */
    constructor (cfg: Config, f1: u32)
      requires 1 <= cfg.n <= INT_MAX && 1 <= cfg.max
      ensures blocked != woken && fresh(blocked) && fresh(woken)
      ensures Init(View(), cfg)
    {
      this.cfg, this.f1 := cfg, f1;
      blocked := new AtomicInt(0);
      woken := new AtomicInt(0);
      owner := Free;
      ws := seq(cfg.n, _ => Waiter(Start, 0, 0, NoError));
      waker := Waker(Spin, 0, 0, 0, 0);
      blocker := Blocker(if cfg.third then BLock else Absent, 0, false);
      moved, owned, calls, last, failed, limited := {}, {}, 0, 0, false, false;
    }

    /** The kernel makes `id` the owner of f2. */
    method Grant(id: nat)
      modifies this`owner, this`owned, this`ws, this`waker, this`blocker
      ensures View() == Take(old(View()), id)
    {
      owner, owned := By(id), owned + {id};
      if id < |ws| {
        ws := ws[id := ws[id].(pc := if ws[id].pc in {OnF1, OnF2} then Granted else Unlock)];
      } else if id == |ws| {
        waker := waker.(pc := ReadF1);
      } else {
        blocker := blocker.(pc := BWait);
      }
    }

    /** FUTEX_UNLOCK_PI, with the kernel's choice of the next owner. */
    method UnlockPi(me: nat, heir: Heir)
      modifies this`owner, this`owned, this`ws, this`waker, this`blocker
      ensures View() == Release(old(View()), me, heir)
    {
      if owner == By(me) {
        match heir
        case To(id) => Grant(id);
        case Nobody => owner := Free;
      }
    }

    /** waiterfn: one step that cannot block for good. */
    method StepWaiter(t: nat)
      requires blocked != woken && CanRun(View(), t)
      modifies this`owner, this`owned, this`ws, this`waker, this`blocker, blocked, woken
      ensures View() == RunWaiter(old(View()), t)
    {
      var w := ws[t];
      match w.pc
      case Start => ws := ws[t := w.(pc := Marking, oldVal := f1)];
      case Marking =>
        var _ := blocked.Inc();
        ws := ws[t := w.(pc := Calling)];
      case Calling =>
        ws := ws[t := if f1 == w.oldVal then w.(pc := OnF1) else w.(pc := Woke, ret := -1, errno := OtherError)];
      case Granted => ws := ws[t := w.(pc := Woke, ret := 0, errno := NoError)];
      case Woke =>
        var _ := woken.Inc();
        if w.ret < 0 {
          ws := ws[t := w.(pc := Relock, ret := if cfg.timed && w.errno == TimedOut then 0 else RET_ERROR)];
        } else {
          ws := ws[t := w.(pc := Unlock)];
        }
      case Relock =>
        if owner == Free {
          Grant(t);
        } else {
          ws := ws[t := w.(pc := if owner == By(t) then Unlock else LockWait)];
        }
    }

    /** Signal: what follows the call and the unlock. */
    method FinishSignal()
      modifies this`waker, this`limited
      ensures View() == AfterSignal(old(View()))
    {
      if waker.ret < 0 {
        waker := waker.(pc := WakeDone, ret := RET_ERROR);
      } else {
        waker := waker.(task := waker.task + waker.ret, i := waker.i + 1);
        if waker.i > cfg.max + cfg.n {
          waker, limited := waker.(pc := WakeDone, ret := RET_ERROR), true;
        } else {
          waker := waker.(pc := LoopTest);
        }
      }
    }

    /** Broadcast: what follows the call. */
    method FinishBroadcast()
      modifies this`waker, this`limited
      ensures View() == AfterBroadcast(old(View()))
    {
      if waker.ret < 0 {
        waker := waker.(pc := WakeDone, ret := RET_ERROR);
      } else {
        waker := waker.(i := waker.i + 1);
        if waker.i < cfg.max {
          waker := waker.(pc := Retest, task := waker.task + waker.ret);
        } else {
          waker, limited := waker.(pc := WakeDone, ret := RET_ERROR), true;
        }
      }
    }

    /** What FUTEX_CMP_REQUEUE_PI does to the waiters it takes. */
    method TakeOffF1(first: Heir, rest: set<nat>)
      modifies this`owner, this`owned, this`ws, this`waker, this`blocker, this`moved
      ensures View() == Moved(old(View()), first, rest)
    {
      ws := seq(|ws|, t requires 0 <= t < |ws| reads this => if t in rest then ws[t].(pc := OnF2) else ws[t]);
      moved := moved + Taken(first, rest);
      if first.To? {
        Grant(first.id);
      }
    }

    /** FUTEX_CMP_REQUEUE_PI with the kernel's answer. */
    method StepRequeue(first: Heir, rest: set<nat>, ok: bool)
      requires first.To? ==> first.id < |ws|
      modifies this
      ensures View() == RunRequeue(old(View()), first, rest, ok)
    {
      hide Take, Moved, Taken, AfterSignal, AfterBroadcast;
      TakeOffF1(first, rest);
      waker := waker.(ret := if ok then |Taken(first, rest)| else -1);
      calls, last, failed := calls + 1, |Taken(first, rest)|, failed || !ok;
      if cfg.broadcast {
        FinishBroadcast();
      } else if cfg.lock {
        waker := waker.(pc := KUnlock);
      } else {
        FinishSignal();
      }
    }

    /** broadcast_wakerfn and signal_wakerfn: one step other than the requeue and the unlock. */
    method StepWaker()
      requires CanWake(View())
      modifies this`owner, this`owned, this`ws, this`waker, this`blocker
      ensures View() == RunWaker(old(View()))
    {
      var enter := if cfg.lock then KLock else ReadF1;
      match waker.pc
      case Spin => waker := waker.(pc := if cfg.broadcast then enter else LoopTest);
      case LoopTest => waker := waker.(pc := if waker.task < cfg.n && woken.val < cfg.n then enter else WakeDone);
      case KLock =>
        if owner == Free {
          Grant(|ws|);
        } else {
          waker := waker.(pc := if owner == By(|ws|) then ReadF1 else KLockWait);
        }
      case ReadF1 => waker := waker.(pc := Requeue, oldVal := f1);
      case Retest => waker := waker.(pc := if waker.task < cfg.n - woken.val then ReadF1 else WakeDone);
      case WakeDone =>
        if blocker.pc == BAsleep {
          blocker := blocker.(pc := BUnlock, ret := 0);
        }
        if cfg.broadcast && cfg.lock {
          waker := waker.(pc := FinalUnlock);
        } else {
          waker := waker.(pc := KExit, ret := FinalRet(cfg, waker));
        }
    }

    method StepWakerUnlock(heir: Heir)
      requires waker.pc in {KUnlock, FinalUnlock}
      modifies this
      ensures View() == Release(LeaveWaker(old(View())), old(|ws|), heir)
    {
      if waker.pc == KUnlock {
        FinishSignal();
      } else {
        waker := waker.(pc := KExit, ret := FinalRet(cfg, waker));
      }
      UnlockPi(|ws|, heir);
    }

    /** third_party_blocker: one step. */
    method StepBlocker(e: Event)
      requires Enabled(View(), e) && !S.ByWaiter(e) && !S.ByWaker(e)
      modifies this`owner, this`owned, this`ws, this`waker, this`blocker
      ensures View() == Apply(old(View()), e)
    {
      var me := |ws| + 1;
      match e
      case BlockerRuns =>
        if blocker.pc == BWait {
          blocker := blocker.(pc := BAsleep);
        } else if owner == Free {
          Grant(me);
        } else if owner == By(me) {
          blocker := blocker.(pc := BExit, ret := RET_ERROR);
        } else {
          blocker := blocker.(pc := BLockWait);
        }
      case BlockerReturns => blocker := blocker.(pc := BUnlock, ret := 0);
      case BlockerFails =>
        blocker := if blocker.pc in {BLock, BLockWait} then Blocker(BExit, RET_ERROR, true)
                   else Blocker(BUnlock, -1, true);
      case BlockerUnlocks(heir) =>
        var bad := blocker.ret != 0 || owner != By(me);
        blocker := blocker.(pc := BExit, ret := if bad then RET_ERROR else 0);
        UnlockPi(me, heir);
    }

    /** Any thread makes any step it can make. Ownership, conservation and the bounds on the
        waker are kept, whatever the scheduler and the kernel choose. */
    method Step(e: Event)
      requires blocked != woken && S.Inv(View()) && Enabled(View(), e)
      modifies this, blocked, woken
      ensures View() == Apply(old(View()), e) && S.Inv(View())
    {
      hide S.Inv, Take, Release, RunWaiter, RunWaker, RunRequeue, AfterSignal;
      ghost var s := View();
      match e {
        case WaiterRuns(t) => StepWaiter(t);
        case WaiterFails(t, timedOut) =>
          ws := ws[t := ws[t].(pc := Woke, ret := -1, errno := if timedOut then TimedOut else OtherError)];
        case WaiterUnlocks(t, heir) =>
          ws := ws[t := ws[t].(pc := Exit)];
          UnlockPi(t, heir);
        case WakerRuns => StepWaker();
        case WakerRequeues(first, rest, ok) => StepRequeue(first, rest, ok);
        case WakerUnlocks(heir) => StepWakerUnlock(heir);
        case BlockerRuns => StepBlocker(e);
        case BlockerReturns => StepBlocker(e);
        case BlockerFails => StepBlocker(e);
        case BlockerUnlocks(_) => StepBlocker(e);
      }
      S.InvKept(s, e);
    }

    /** All threads, in any interleaving and with any answer of the kernel, failures, timeouts and
        spurious returns included. As long as blocked calls come back in the end, it terminates, with
        all threads exited. */
    method RunAll() returns (ghost es: seq<Event>)
      requires blocked != woken && S.Inv(View())
      modifies this, blocked, woken
      ensures Valid(old(View()), es) && View() == Exec(old(View()), es)
      ensures S.Inv(View()) && T.AllExited(View())
    {
      hide S.Inv, Enabled, Apply, T.AllExited;
      es := [];
      while !T.AllExited(View())
        invariant S.Inv(View())
        invariant Valid(old(View()), es) && View() == Exec(old(View()), es)
        decreases T.Total(View())
      {
        ghost var s := View();
        ghost var some := T.CanGoOn(s);
        var e :| Enabled(View(), e);
        Step(e);
        R.Extend(old(View()), es, e);
        es := es + [e];
        T.StepDecreases(s, e);
        T.TotalNonNegative(s);
      }
    }

    /** All threads, in any interleaving and with any choice of the kernel that does not disturb the
        run, from a state with all waiters queued. It terminates with everybody through. */
    method Run() returns (ghost es: seq<Event>)
      requires blocked != woken && D.Ready(View()) && D.Clear(View()) && (cfg.broadcast ==> 2 <= cfg.max)
      modifies this, blocked, woken
      ensures D.CalmRun(old(View()), es) && View() == Exec(old(View()), es) && D.Completed(View())
    {
      hide D.Calm, D.DrainInv, D.Clear, Apply;
      es := [];
      D.ReadyDrains(View());
      while !(owner == Free && waker.pc == KExit)
        invariant D.DrainInv(View()) && D.Clear(View())
        invariant D.CalmRun(old(View()), es) && View() == Exec(old(View()), es)
        decreases D.Measure(View())
      {
        ghost var s := View();
        ghost var some := NextEvent(s);
        var e :| D.Calm(View(), e);
        CalmStep(s, e);
        Step(e);
        R.Concat(old(View()), es, [e]);
        es := es + [e];
      }
      D.AllThrough(View());
    }
  }

  lemma NextEvent(s: State) returns (e: Event)
    requires D.DrainInv(s) && D.Clear(s) && !(s.owner == Free && s.waker.pc == KExit)
    ensures D.Calm(s, e)
  {
    e := D.DrainGoesOn(s);
  }

  /** What the loop of `Run` needs of a calm event. */
  lemma CalmStep(s: State, e: Event)
    requires D.DrainInv(s) && D.Clear(s) && D.Calm(s, e)
    ensures S.Inv(s) && Enabled(s, e) && D.CalmRun(s, [e]) && Exec(s, [e]) == Apply(s, e)
    ensures D.DrainInv(Apply(s, e)) && D.Clear(Apply(s, e))
    ensures 0 <= D.Measure(s) && D.Measure(Apply(s, e)) < D.Measure(s)
  {
    D.DrainKept(s, e);
    D.ClearKept(s, e);
    D.CalmDecreases(s, e);
    D.MeasureBounds(s);
  }
}
