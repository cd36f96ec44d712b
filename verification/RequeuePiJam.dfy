/** The -l and -o options: the waker takes f2 for its calls, the third party sleeps with f2 until
    the waker wakes it. In which runs without failed calls everybody gets through. */
module RequeuePiJam {
  import opened RequeuePi
  import opened RequeuePiSafety
  import opened RequeuePiRuns
  import opened RequeuePiDrain
  import opened RequeuePiReach
  import opened RequeuePiLostWake
  import T = RequeuePiTimeouts

  // ---------------------------------------------------------------- deadlock

  /** Signal: the third party has f2 while the waker still has waiters to requeue. */
  predicate Lost(s: State) {
    && LockedThird(s.cfg) && !s.cfg.broadcast
    && s.blocker.pc in {BWait, BAsleep} && |s.moved| < s.cfg.n
    && s.waker.pc in {Spin, LoopTest, KLock, KLockWait}
  }

  lemma LostStays(s: State, e: Event)
    requires DrainInv(s) && Lost(s) && Quiet(s, e)
    ensures Calm(s, e) && Lost(Apply(s, e))
  {
    assert Believes(s, |s.ws| + 1);
    OnF1IsRest(s);
    if e.WaiterUnlocks? {
      assert Believes(s, e.t);
    }
  }

  lemma {:induction false} LostForever(s: State, es: seq<Event>)
    requires DrainInv(s) && Lost(s) && QuietRun(s, es)
    ensures Lost(Exec(s, es)) && !Completed(Exec(s, es))
    decreases |es|
  {
    if es != [] {
      LostStays(s, es[0]);
      DrainKept(s, es[0]);
      LostForever(Apply(s, es[0]), es[1..]);
    }
  }

  // ---------------------------------------------------------------- a schedule that completes

  /** Signal: the third party is kept from f2 until every waiter has been requeued. */
  predicate Steered(s: State) {
    LockedThird(s.cfg) && !s.cfg.broadcast && (|s.moved| == s.cfg.n || Dodging(s))
  }

  lemma AllMovedStays(s: State, e: Event)
    requires DrainInv(s) && |s.moved| == s.cfg.n && Calm(s, e)
    ensures |Apply(s, e).moved| == s.cfg.n
  {
    hide RunRequeue, RunWaker, RunWaiter, RunBlocker, Release, Inv;
    if !e.WakerRequeues? {
      OnlyRequeueMoves(s, e);
    }
  }

  lemma Steer(s: State) returns (e: Event)
    requires DrainInv(s) && Steered(s) && !Completed(s)
    ensures Calm(s, e) && Steered(Apply(s, e))
  {
    hide Calm, Apply, Dodging, Inv;
    if |s.moved| == s.cfg.n {
      e := DrainGoesOn(s);
      AllMovedStays(s, e);
    } else {
      e := DodgeStep(s);
    }
  }

  lemma {:induction false} SteerDown(s: State) returns (es: seq<Event>)
    requires DrainInv(s) && Steered(s)
    ensures CalmRun(s, es) && Completed(Exec(s, es))
    decreases Measure(s)
  {
    if Completed(s) {
      es := [];
    } else {
      var e := Steer(s);
      DrainKept(s, e);
      CalmDecreases(s, e);
      MeasureBounds(Apply(s, e));
      var rest := SteerDown(Apply(s, e));
      es := [e] + rest;
      hide Apply, Calm, DrainInv, Steered;
      assert es[1..] == rest;
    }
  }

  // ---------------------------------------------------------------- a schedule that deadlocks

  /** Signal: the third party can get f2 while a waiter is still to be requeued. */
  predicate MayLose(s: State) {
    && LockedThird(s.cfg) && !s.cfg.broadcast
    && match s.waker.pc
       case ReadF1 => |s.moved| + 1 < s.cfg.n && s.blocker.pc in {BLock, BLockWait}
       case Requeue => |s.moved| + 1 < s.cfg.n && s.blocker.pc in {BLock, BLockWait}
       case KUnlock => |s.moved| < s.cfg.n && s.blocker.pc in {BLock, BLockWait}
       case _ => |s.moved| < s.cfg.n && s.owner == Free && s.blocker.pc == BLock
  }

  /** With f2 free the third party takes it. */
  lemma LoseFree(s: State)
    requires DrainInv(s) && MayLose(s) && s.owner == Free
    ensures Calm(s, BlockerRuns) && Lost(Apply(s, BlockerRuns))
  {
    assert !Believes(s, |s.ws|) && !Queued(s, |s.ws|) && !Queued(s, |s.ws| + 1);
  }

  /** While the waker has it the third party queues ... */
  lemma LoseQueue(s: State)
    requires DrainInv(s) && MayLose(s) && s.owner == By(|s.ws|) && s.blocker.pc == BLock
    ensures Calm(s, BlockerRuns) && MayLose(Apply(s, BlockerRuns))
  {
    assert Believes(s, |s.ws|);
  }

  lemma LoseRequeue(s: State, first: Heir, rest: set<nat>)
    requires MayLose(s) && s.waker.pc == Requeue && (first.To? ==> first.id < |s.ws|)
    requires |s.moved + Taken(first, rest)| == |s.moved| + 1
    ensures MayLose(RunRequeue(s, first, rest, true))
  {
    hide Moved, Take, Taken;
  }

  /** ... the waker makes its call ... */
  lemma LoseCall(s: State) returns (e: Event)
    requires DrainInv(s) && MayLose(s) && s.waker.pc in {ReadF1, Requeue}
    ensures Calm(s, e) && MayLose(Apply(s, e))
  {
    hide DrainInv, RunRequeue, RequeueOk;
    if s.waker.pc == ReadF1 {
      e := WakerRuns;
    } else {
      e := SomeRequeue(s);
      RequeueSize(s, e.first, e.rest);
      FirstIsWaiter(s, e.first, e.rest, true);
      LoseRequeue(s, e.first, e.rest);
    }
  }

  /** ... and hands f2 to the third party. */
  lemma LoseUnlock(s: State)
    requires DrainInv(s) && MayLose(s) && s.waker.pc == KUnlock && s.blocker.pc == BLockWait
    ensures var e := WakerUnlocks(To(|s.ws| + 1)); Calm(s, e) && Lost(Apply(s, e))
  {
    assert Believes(s, |s.ws|);
  }

  lemma {:induction false} LoseDown(s: State) returns (es: seq<Event>)
    requires DrainInv(s) && (Lost(s) || MayLose(s))
    ensures CalmRun(s, es) && DrainInv(Exec(s, es)) && Lost(Exec(s, es))
    decreases Measure(s)
  {
    if Lost(s) {
      es := [];
    } else {
      var e := LoseStep(s);
      DrainKept(s, e);
      CalmDecreases(s, e);
      MeasureBounds(Apply(s, e));
      var rest := LoseDown(Apply(s, e));
      es := [e] + rest;
      hide Apply, Calm, DrainInv, Lost, MayLose;
      assert es[1..] == rest;
    }
  }

  lemma LoseStep(s: State) returns (e: Event)
    requires DrainInv(s) && MayLose(s)
    ensures Calm(s, e) && (Lost(Apply(s, e)) || MayLose(Apply(s, e)))
  {
    hide Apply, Calm;
    assert Believes(s, |s.ws|) <==> s.owner == By(|s.ws|);
    if s.owner == Free {
      LoseFree(s);
      e := BlockerRuns;
    } else if s.blocker.pc == BLock {
      LoseQueue(s);
      e := BlockerRuns;
    } else if s.waker.pc == KUnlock {
      LoseUnlock(s);
      e := WakerUnlocks(To(|s.ws| + 1));
    } else {
      e := LoseCall(s);
    }
  }

  // ---------------------------------------------------------------- exactly when

  lemma NobodyMoved(s: State)
    requires Ready(s)
    ensures s.moved == {}
  {
    assert forall t <- s.moved :: InF1(s, t);
    assert s.moved == {};
  }

  lemma ReadyMayLose(s: State)
    requires Ready(s) && LockedThird(s.cfg) && !s.cfg.broadcast && !Clear(s)
    ensures Lost(s) || MayLose(s)
  {
    NobodyMoved(s);
    assert Believes(s, |s.ws|) <==> s.owner == By(|s.ws|);
    assert Believes(s, |s.ws| + 1) <==> s.owner == By(|s.ws| + 1);
    assert s.owner.By? ==> Believes(s, s.owner.id);
    assert s.owner == Free ==> !Queued(s, |s.ws|) && !Queued(s, |s.ws| + 1);
  }

  /** Past its wake the waker does not come back to its loop. */
  lemma GoneStays(s: State, e: Event)
    requires 0 < |s.ws| && Enabled(s, e) && s.waker.pc in {FinalUnlock, KExit}
    ensures Apply(s, e).waker.pc in {FinalUnlock, KExit}
  {
    hide Release, Take;
    if e.WakerUnlocks? {
      ReleasePushes(LeaveWaker(s), |s.ws|, e.heir, 0);
    } else {
      OthersPushWaker(s, e);
    }
  }

  lemma {:induction false} GoneForever(s: State, es: seq<Event>)
    requires 0 < |s.ws| && Valid(s, es) && s.waker.pc in {FinalUnlock, KExit}
    ensures Exec(s, es).waker.pc in {FinalUnlock, KExit}
    decreases |es|
  {
    if es != [] {
      GoneStays(s, es[0]);
      GoneForever(Apply(s, es[0]), es[1..]);
    }
  }

  lemma EarlyWakeLeaves(s: State, e: Event)
    requires Quiet(s, e) && !Calm(s, e)
    ensures Apply(s, e).waker.pc in {FinalUnlock, KExit}
  {
  }

  /** A quiet run whose waker has not woken anybody yet is calm. */
  lemma {:induction false} BeforeWakeCalm(s: State, es: seq<Event>)
    requires 0 < |s.ws| && QuietRun(s, es) && Exec(s, es).waker.pc !in {FinalUnlock, KExit}
    ensures CalmRun(s, es)
    decreases |es|
  {
    hide Quiet, Apply, Enabled;
    if es != [] {
      if !Calm(s, es[0]) {
        EarlyWakeLeaves(s, es[0]);
        GoneForever(Apply(s, es[0]), es[1..]);
      }
      BeforeWakeCalm(Apply(s, es[0]), es[1..]);
    }
  }

  /** Signal with -l and -o, all waiters queued: some run deadlocks, with the third party asleep on f2
      and the waker waiting for f2, unless there is one waiter only and the waker already has f2. */
  lemma DeadlocksIff(s: State)
    requires Ready(s) && LockedThird(s.cfg) && !s.cfg.broadcast
    ensures (exists es :: QuietRun(s, es) && Lost(Exec(s, es))) <==>
              !(s.cfg.n == 1 && s.waker.pc in {ReadF1, Requeue})
  {
    NobodyMoved(s);
    ReadyDrains(s);
    if Clear(s) {
      forall es | QuietRun(s, es) ensures !Lost(Exec(s, es)) {
        if Lost(Exec(s, es)) {
          BeforeWakeCalm(s, es);
          ClearOnRuns(s, es);
        }
      }
    } else {
      ReadyMayLose(s);
      var es := LoseDown(s);
      assert QuietRun(s, es) && Lost(Exec(s, es));
    }
    hide Ready, DrainInv, MayLose, Calm, Quiet;
  }

  /** Not both options, or a signal before the third party has got f2. */
  predicate CanDrain(s: State) {
    LockedThird(s.cfg) ==> !s.cfg.broadcast && !BOwns(s.blocker.pc)
  }

  /** What keeps a ready state from draining. */
  lemma ReadyHangs(s: State)
    requires Ready(s) && !CanDrain(s)
    ensures Stranded(s) || Lost(s)
  {
    assert Believes(s, |s.ws|) <==> s.owner == By(|s.ws|);
    assert Believes(s, |s.ws| + 1) <==> s.owner == By(|s.ws| + 1);
    NobodyMoved(s);
  }

  lemma HangsForever(s: State, es: seq<Event>)
    requires Inv(s) && (Stranded(s) || (DrainInv(s) && Lost(s))) && QuietRun(s, es)
    ensures !Completed(Exec(s, es))
  {
    if Stranded(s) {
      QuietSpares(s, es);
      StrandedForever(s, es);
    } else {
      LostForever(s, es);
    }
    hide Inv, DrainInv, QuietRun, Valid;
  }

  /** Some run without a failed call completes from a ready state if and only if -l and -o are not
      given together, or the mode is signal and the third party does not have f2 yet. */
  lemma CanDrainIff(s: State)
    requires Ready(s) && (s.cfg.broadcast ==> 2 <= s.cfg.max)
    ensures (exists es :: QuietRun(s, es) && Completed(Exec(s, es))) <==> CanDrain(s)
  {
    hide Calm, Quiet, Lost, Stranded, DrainInv;
    ReadyDrains(s);
    if !CanDrain(s) {
      ReadyHangs(s);
      forall es | QuietRun(s, es) ensures !Completed(Exec(s, es)) {
        HangsForever(s, es);
      }
    } else {
      var es := DrainsSomehow(s);
      assert QuietRun(s, es) && Completed(Exec(s, es));
    }
  }

  lemma DrainsSomehow(s: State) returns (es: seq<Event>)
    requires Ready(s) && (s.cfg.broadcast ==> 2 <= s.cfg.max) && CanDrain(s)
    ensures CalmRun(s, es) && Completed(Exec(s, es))
  {
    hide Calm, DrainInv;
    ReadyDrains(s);
    if LockedThird(s.cfg) {
      es := SteerDown(s);
    } else {
      es := RunDown(s);
      Drain(s, es);
    }
  }

  /** No third party, or one that sleeps with f2 while the waker does not need f2. */
  predicate Tame(s: State) {
    s.cfg.third ==> !s.cfg.lock && (s.blocker.pc == BAsleep || s.waker.pc in {FinalUnlock, KExit})
  }

  lemma TameKept(s: State, e: Event)
    requires DrainInv(s) && Tame(s) && Quiet(s, e)
    ensures Calm(s, e) && Tame(Apply(s, e))
  {
    hide Counts, WakerInv, SpinInv, ResultsInv, RunRequeue, RunWaiter, WaiterDrains, WakerDrains;
    if e.WakerRequeues? {
      FirstIsWaiter(s, e.first, e.rest, e.ok);
    } else if s.waker.pc in {FinalUnlock, KExit} {
      GoneStays(s, e);
    }
  }

  lemma {:induction false} TameRuns(s: State, es: seq<Event>)
    requires DrainInv(s) && Tame(s) && QuietRun(s, es)
    ensures CalmRun(s, es)
    decreases |es|
  {
    if es != [] {
      TameKept(s, es[0]);
      DrainKept(s, es[0]);
      TameRuns(Apply(s, es[0]), es[1..]);
    }
  }

  /** Without a tame third party some run comes into a state from which nothing completes. */
  lemma HangsSomehow(s: State) returns (es: seq<Event>)
    requires Ready(s) && (s.cfg.broadcast ==> 2 <= s.cfg.max) && !Tame(s)
    ensures QuietRun(s, es) && Inv(Exec(s, es))
    ensures Stranded(Exec(s, es)) || (DrainInv(Exec(s, es)) && Lost(Exec(s, es)))
  {
    hide Calm, Quiet;
    ReadyDrains(s);
    if CanDrain(s) {
      OwnersFirst(s);
      es := DodgeDown(s);
      InvOnRuns(s, es);
    } else {
      ReadyHangs(s);
      es := [];
    }
  }

  lemma OwnersFirst(s: State)
    requires Ready(s) && CanDrain(s) && !Tame(s)
    ensures Dodging(s)
  {
  }

  /** Every run without a failed call from a ready state that goes on as long as it can completes, if
      and only if there is no third party, or it is asleep already and -l is not given. In all other
      cases the waker may wake it before it sleeps, or wait for f2 while it sleeps. */
  lemma MustDrainIff(s: State)
    requires Ready(s) && (s.cfg.broadcast ==> 2 <= s.cfg.max)
    ensures (forall es :: QuietRun(s, es) && Still(Exec(s, es)) ==> Completed(Exec(s, es))) <==>
              (s.cfg.third ==> !s.cfg.lock && s.blocker.pc == BAsleep)
  {
    hide Calm, Quiet, Lost, Stranded, DrainInv, Valid, Completed;
    ReadyDrains(s);
    if Tame(s) {
      forall es | QuietRun(s, es) && Still(Exec(s, es)) ensures Completed(Exec(s, es)) {
        TameRuns(s, es);
        StillStops(Exec(s, es));
        Drain(s, es);
      }
    } else {
      var es := HangsSomehow(s);
      var fs := QuietDown(Exec(s, es));
      HangsForever(Exec(s, es), fs);
      Concat(s, es, fs);
      assert QuietRun(s, es + fs) && Still(Exec(s, es + fs)) && !Completed(Exec(s, es + fs));
    }
  }

  lemma StillStops(s: State)
    requires Still(s)
    ensures Stopped(s)
  {
    hide Quiet;
  }

  // ---------------------------------------------------------------- from the start

  /** From the start of every configuration some run brings all waiters onto f1 and the third party
      to sleep, and goes on without a failed call as long as it can. It has then completed exactly if
      -l and -o were not given together. */
  lemma EveryConfigurationStops(s: State, cfg: Config) returns (es: seq<Event>, quiet: seq<Event>)
    requires Init(s, cfg) && (cfg.broadcast ==> 2 <= cfg.max)
    ensures QuietRun(s, es) && Ready(Exec(s, es)) && (cfg.third ==> Exec(s, es).blocker.pc == BAsleep)
    ensures QuietRun(Exec(s, es), quiet) && Still(Exec(Exec(s, es), quiet))
    ensures Completed(Exec(Exec(s, es), quiet)) <==> !LockedThird(cfg)
  {
    es := ReadyIsReached(s, cfg, true);
    hide Ready, Quiet, Init, DrainInv, Completed, Still;
    var r := Exec(s, es);
    ReadyDrains(r);
    ReadyInv(r);
    quiet := QuietDown(r);
    if LockedThird(cfg) {
      ReadyHangs(r);
      HangsForever(r, quiet);
    } else {
      MustDrainIff(r);
    }
  }

  lemma ReadyInv(s: State)
    requires Ready(s)
    ensures Inv(s)
  {
  }

  /** What the options allow, over all runs from the start in which no call of the third party fails or
      returns without cause, whatever else fails: some run completes if and only if -b, -l and -o are
      not given together. A broadcast that may make one call only does not complete either. */
  lemma CompletesIff(s0: State, cfg: Config)
    requires Init(s0, cfg)
    ensures (exists es :: Valid(s0, es) && AllSpare(es) && Completed(Exec(s0, es))) <==>
              (cfg.broadcast ==> 2 <= cfg.max && !LockedThird(cfg))
  {
    if cfg.broadcast ==> 2 <= cfg.max && !LockedThird(cfg) {
      var es := CompletesSomehow(s0, cfg);
      assert Valid(s0, es) && AllSpare(es) && Completed(Exec(s0, es));
    } else {
      forall es | Valid(s0, es) && AllSpare(es) ensures !Completed(Exec(s0, es)) {
        CannotComplete(s0, cfg, es);
      }
    }
    hide Init, Valid, AllSpare, Completed;
  }

  lemma CompletesSomehow(s0: State, cfg: Config) returns (es: seq<Event>)
    requires Init(s0, cfg) && (cfg.broadcast ==> 2 <= cfg.max && !LockedThird(cfg))
    ensures QuietRun(s0, es) && AllSpare(es) && Completed(Exec(s0, es))
  {
    hide Ready, Quiet, Completed, Init;
    var qs := ReadyIsReached(s0, cfg, false);
    var ds := DrainsSomehow(Exec(s0, qs));
    Concat(s0, qs, ds);
    es := qs + ds;
    QuietSpares(s0, es);
  }

  lemma CannotComplete(s0: State, cfg: Config, es: seq<Event>)
    requires Init(s0, cfg) && cfg.broadcast && (cfg.max < 2 || LockedThird(cfg)) && Valid(s0, es) && AllSpare(es)
    ensures !Completed(Exec(s0, es))
  {
    hide Init, Valid, AllSpare;
    var s := Exec(s0, es);
    if LockedThird(cfg) {
      LockedBroadcastStrands(s0, cfg, es, s);
    } else if s.waker.pc == KExit && s.waker.ret >= 0 {
      T.SingleLeft(s0, cfg, es, s);
    }
  }
}
