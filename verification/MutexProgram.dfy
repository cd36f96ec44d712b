/** futex_wait.c as a program: N threads that lock and unlock one futex word in place. Each
    method makes one atomic step of one thread and is proved equal to the event it stands for. */
module MutexProgram {
  import opened Words
  import opened FutexWord
  import opened Mutex
  import R = MutexRuns

  /** The futex_wake of an unlock that finds nobody, respectively somebody, asleep. */
  lemma WakeNobody(s: State, t: nat)
    requires At(s, t, Wake) && forall u :: 0 <= u < |s.ts| ==> s.ts[u].pc != Asleep
    ensures Enabled(s, Run(t)) && Apply(s, Run(t)) == s.(ts := s.ts[t := s.ts[t].(pc := Head)])
  {
  }

  lemma WakeSomebody(s: State, t: nat, u: nat)
    requires At(s, t, Wake) && At(s, u, Asleep)
    ensures Enabled(s, WakeOne(t, u))
    ensures Apply(s, WakeOne(t, u)) ==
            s.(ts := s.ts[t := s.ts[t].(pc := Head)][u := s.ts[u].(pc := Reread)])
  {
  }

  class LockLoop {
    const futex: Futex
    var ts: seq<Thread>
    var spurious: nat

    function View(): State
      reads this, futex
    {
      State(futex.word, ts, spurious)
    }

    /** The threads blocked on the word are those asleep. */
    ghost predicate Consistent()
      reads this, futex
    {
      forall t: nat :: t in futex.sleepers <==> t < |ts| && ts[t].pc == Asleep
    }

    constructor (n: nat, loops: nat, spurious: nat)
      ensures Consistent() && fresh(futex)
      ensures Init(View(), n, loops) && this.spurious == spurious
    {
      futex := new Futex(0);
      ts := seq(n, _ => Thread(Head, 0, loops));
      this.spurious := spurious;
    }

    method Goto(t: nat, pc: Pc, status: int)
      requires t < |ts|
      modifies this`ts
      ensures ts == old(ts)[t := old(ts[t]).(pc := pc, status := status)]
    {
      ts := ts[t := ts[t].(pc := pc, status := status)];
    }

    /** futex_wait_test: the loop `while (loops--)`. */
    method StepLoop(t: nat)
      requires Consistent() && At(View(), t, Head)
      modifies this`ts
      ensures Consistent() && View() == Apply(old(View()), Run(t))
    {
      var more := ts[t].loops != 0;
      ts := ts[t := ts[t].(loops := ts[t].loops - 1, pc := if more then Read else Done)];
    }

    /** futex_wait_lock: one access. */
    method StepLock(t: nat)
      requires Consistent() && t < |ts| && R.Locking(ts[t].pc) && ts[t].pc != Asleep
      modifies this`ts, futex
      ensures Consistent() && View() == Apply(old(View()), Run(t))
    {
      match ts[t].pc
      case Read =>
        var status := AsInt(futex.word);
        Goto(t, if status == 0 then Cas01 else LoopPc(status), status);
      case Cas01 =>
        var seen := futex.CmpXchg(0, 1);
        Goto(t, LoopPc(AsInt(seen)), AsInt(seen));
      case Cas12 =>
        var seen := futex.CmpXchg(1, 2);
        Goto(t, if seen != 0 then Wait else Cas02, AsInt(seen));
      case Wait =>
        var blocked := futex.Wait(t, 2);
        Goto(t, if blocked then Asleep else Reread, ts[t].status);
      case Reread =>
        var status := AsInt(futex.word);
        Goto(t, if status == 0 then Cas02 else LoopPc(status), status);
      case Cas02 =>
        var seen := futex.CmpXchg(0, 2);
        Goto(t, LoopPc(AsInt(seen)), AsInt(seen));
    }

    /** The futex_wake(1) of an unlock: the kernel picks any sleeper. */
    method StepWake(t: nat) returns (ghost e: Event)
      requires Consistent() && At(View(), t, Wake)
      modifies this`ts, futex
      ensures Enabled(old(View()), e) && e.t == t && !e.Spurious?
      ensures Consistent() && View() == Apply(old(View()), e)
    {
      hide Apply, Enabled;
      ghost var s := View();
      var found, u := futex.WakeAny();
      Goto(t, Head, ts[t].status);
      if found {
        e := WakeOne(t, u);
        WakeSomebody(s, t, u);
        Goto(u, Reread, ts[u].status);
      } else {
        e := Run(t);
        WakeNobody(s, t);
      }
    }

    /** futex_cmpxchg_unlock: one access. */
    method StepUnlock(t: nat) returns (ghost e: Event)
      requires Consistent() && t < |ts| && ts[t].pc in {Locked, Cas10, Cas20, Wake}
      modifies this`ts, futex
      ensures Enabled(old(View()), e) && e.t == t && !e.Spurious?
      ensures Consistent() && View() == Apply(old(View()), e)
    {
      e := Run(t);
      match ts[t].pc
      case Locked =>
        var status := AsInt(futex.word);
        Goto(t, UnlockPc(status), status);
      case Cas10 =>
        var seen := futex.CmpXchg(1, 0);
        Goto(t, if seen == 2 then Cas20 else Head, AsInt(seen));
      case Cas20 =>
        var _ := futex.CmpXchg(2, 0);
        Goto(t, Wake, ts[t].status);
      case Wake =>
        e := StepWake(t);
    }

    /** FUTEX_WAIT returns spuriously. */
    method StepSpurious(t: nat)
      requires Consistent() && Enabled(View(), Spurious(t))
      modifies this`ts, this`spurious, futex
      ensures Consistent() && View() == Apply(old(View()), Spurious(t))
    {
      futex.ReturnSpuriously(t);
      Goto(t, Reread, ts[t].status);
      spurious := spurious - 1;
    }

    /** The next step of an awake thread. */
    method Step(t: nat) returns (ghost e: Event)
      requires Consistent() && t < |ts| && Awake(ts[t].pc)
      modifies this`ts, futex
      ensures Enabled(old(View()), e) && e.t == t && !e.Spurious?
      ensures Consistent() && View() == Apply(old(View()), e)
    {
      e := Run(t);
      if ts[t].pc == Head {
        StepLoop(t);
      } else if ts[t].pc in {Locked, Cas10, Cas20, Wake} {
        e := StepUnlock(t);
      } else {
        StepLock(t);
      }
    }

    /** Any awake thread makes its next step, or FUTEX_WAIT returns to any sleeper. */
    method StepAny() returns (ghost e: Event)
      requires Consistent() && exists t :: 0 <= t < |ts| && Awake(ts[t].pc)
      modifies this`ts, this`spurious, futex
      ensures Enabled(old(View()), e) && Consistent() && View() == Apply(old(View()), e)
    {
      var spontaneous: bool := *;
      if spontaneous && spurious > 0 && exists t :: 0 <= t < |ts| && ts[t].pc == Asleep {
        var t :| 0 <= t < |ts| && ts[t].pc == Asleep;
        StepSpurious(t);
        e := Spurious(t);
      } else {
        var t :| 0 <= t < |ts| && Awake(ts[t].pc);
        e := Step(t);
      }
    }

    /** Runs all threads, in any interleaving and with any spurious returns, until no thread can go on.
        It terminates, and then every round is done, the lock is free and nobody sleeps. `es` is the
        run that was made. */
    method RunAll() returns (ghost es: seq<Event>)
      requires Consistent() && Inv(View())
      modifies this, futex
      ensures Consistent() && futex.word == 0 && futex.sleepers == {} && |ts| == old(|ts|)
      ensures Valid(old(View()), es) && View() == Exec(old(View()), es)
      ensures forall t :: 0 <= t < |ts| ==> ts[t].pc == Done
    {
      hide Inv, Enabled, Apply;
      es := [];
      while exists t :: 0 <= t < |ts| && Awake(ts[t].pc)
        invariant Consistent() && Inv(View()) && |ts| == old(|ts|)
        invariant Valid(old(View()), es) && View() == Exec(old(View()), es)
        decreases R.Measure(View())
      {
        ghost var s := View();
        OwnershipOf(s);
        var e := StepAny();
        R.Extend(old(View()), es, e);
        es := es + [e];
        InvKept(s, e);
        R.StepDecreases(s, e);
        R.MeasureNonNegative(s);
      }
      NeverAllAsleep(View());
    }
  }

  lemma OwnershipOf(s: State)
    requires Inv(s)
    ensures Ownership(s)
  {
  }

  /** N threads of L rounds each under any scheduler: each takes and releases the lock L times. `s` and
      `es` are the start and the run. */
  method RunRounds(n: nat, loops: nat, spurious: nat) returns (ghost s: State, ghost es: seq<Event>)
    ensures Init(s, n, loops) && s.spurious == spurious && Valid(s, es) && R.Stuck(Exec(s, es))
    ensures |es| <= 3 * (n * loops) * (6 * n + 1) + 3 * n + 3 * spurious
    ensures forall t :: 0 <= t < n ==>
              && R.Count(R.Actions(s, es), R.Acquire(t)) == loops
              && R.Count(R.Actions(s, es), R.Release(t)) == loops
  {
    var l := new LockLoop(n, loops, spurious);
    s := l.View();
    R.InitMeasure(s, n, loops);
    es := l.RunAll();
    R.FinishedRun(s, n, loops, es);
    R.Termination(s, n, loops, es);
  }
}
