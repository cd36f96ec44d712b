/** The conditions of the drain are met by real runs: from the start of every configuration some
    run brings all waiters onto f1, with the third party asleep or not yet started, and some calm
    run goes on from there until nothing is left to do. */
module RequeuePiReach {
  import opened RequeuePi
  import opened RequeuePiSafety
  import opened RequeuePiRuns
  import opened RequeuePiDrain

  lemma {:induction false} Extend(s: State, es: seq<Event>, e: Event)
    requires Valid(s, es) && Enabled(Exec(s, es), e)
    ensures Valid(s, es + [e]) && Exec(s, es + [e]) == Apply(Exec(s, es), e)
    decreases |es|
  {
    hide Enabled, Apply;
    if es == [] {
      assert es + [e] == [e];
    } else {
      Extend(Apply(s, es[0]), es[1..], e);
      assert (es + [e])[1..] == es[1..] + [e];
    }
  }

  /** Runs compose, and so do quiet and calm ones. */
  lemma {:induction false} Concat(s: State, es: seq<Event>, fs: seq<Event>)
    requires Valid(s, es) && Valid(Exec(s, es), fs)
    ensures Valid(s, es + fs) && Exec(s, es + fs) == Exec(Exec(s, es), fs)
    ensures QuietRun(s, es) && QuietRun(Exec(s, es), fs) ==> QuietRun(s, es + fs)
    ensures CalmRun(s, es) && CalmRun(Exec(s, es), fs) ==> CalmRun(s, es + fs)
    decreases |es|
  {
    hide Apply, Quiet, Calm, Enabled;
    if es == [] {
      assert es + fs == fs;
    } else {
      Concat(Apply(s, es[0]), es[1..], fs);
      assert (es + fs)[1..] == es[1..] + fs;
    }
  }

  /** Nothing but waiters below k has moved, and those are on f1. */
  predicate QueuedUpTo(s: State, s': State, k: nat) {
    && Same(s, s') && k <= |s.ws|
    && s'.owner == s.owner && s'.waker == s.waker && s'.blocker == s.blocker && s'.calls == s.calls
    && (forall t :: 0 <= t < k ==> s'.ws[t].pc == OnF1)
    && (forall t :: k <= t < |s.ws| ==> s'.ws[t].pc == Start)
  }

  /** Three steps bring waiter k onto f1. */
  lemma QueueOne(s: State, s0: State, k: nat)
    requires k < |s.ws| && QueuedUpTo(s0, s, k)
    ensures Enabled(s, WaiterRuns(k))
    ensures var s1 := Apply(s, WaiterRuns(k));
            && Enabled(s1, WaiterRuns(k))
            && var s2 := Apply(s1, WaiterRuns(k));
               && Enabled(s2, WaiterRuns(k))
               && QueuedUpTo(s0, Apply(s2, WaiterRuns(k)), k + 1)
  {
    var s1 := Apply(s, WaiterRuns(k));
    assert s1.ws[k] == s.ws[k].(pc := Marking, oldVal := s.f1);
    var s2 := Apply(s1, WaiterRuns(k));
    assert s2.ws == s1.ws[k := s1.ws[k].(pc := Calling)];
  }

  lemma {:induction false} QueueAll(s: State, cfg: Config, k: nat) returns (es: seq<Event>)
    requires Init(s, cfg) && k <= cfg.n
    ensures Valid(s, es) && QueuedUpTo(s, Exec(s, es), k) && forall e <- es :: e.WaiterRuns?
  {
    if k == 0 {
      es := [];
    } else {
      es := QueueAll(s, cfg, k - 1);
      hide Init, Enabled, Apply, Valid, Exec, QueuedUpTo;
      var e := WaiterRuns(k - 1);
      QueueOne(Exec(s, es), s, k - 1);
      Extend(s, es, e);
      Extend(s, es + [e], e);
      Extend(s, es + [e] + [e], e);
      es := es + [e] + [e] + [e];
    }
  }

  /** The third party takes f2 and goes to sleep. */
  lemma BlockerSleeps(s: State)
    requires s.owner == Free && s.blocker.pc == BLock
    ensures Enabled(s, BlockerRuns) && Enabled(Apply(s, BlockerRuns), BlockerRuns)
    ensures var s' := Apply(Apply(s, BlockerRuns), BlockerRuns);
            s'.blocker == s.blocker.(pc := BAsleep) && s'.ws == s.ws && s'.waker == s.waker && s'.calls == s.calls
  {
  }

  /** All waiters queue; the third party goes to sleep or has not started yet. */
  lemma ReadyIsReached(s: State, cfg: Config, asleep: bool) returns (es: seq<Event>)
    requires Init(s, cfg)
    ensures QuietRun(s, es) && Ready(Exec(s, es)) && Exec(s, es).cfg == cfg
    ensures cfg.third ==> Exec(s, es).blocker.pc == if asleep then BAsleep else BLock
  {
    es := QueueAll(s, cfg, cfg.n);
    if cfg.third && asleep {
      BlockerSleeps(Exec(s, es));
      Extend(s, es, BlockerRuns);
      Extend(s, es + [BlockerRuns], BlockerRuns);
      es := es + [BlockerRuns] + [BlockerRuns];
    }
    InitInv(s, cfg);
    InvOnRuns(s, es);
    OwnStepsQuiet(s, es);
    hide Inv, Apply, Enabled;
  }

  lemma {:induction false} OwnStepsQuiet(s: State, es: seq<Event>)
    requires Valid(s, es) && forall e <- es :: e.WaiterRuns? || e.BlockerRuns?
    ensures QuietRun(s, es)
    decreases |es|
  {
    hide Apply, Enabled;
    if es != [] {
      OwnStepsQuiet(Apply(s, es[0]), es[1..]);
    }
  }

  /** A calm run that goes on until it stops. */
  lemma {:induction false} RunDown(s: State) returns (es: seq<Event>)
    requires DrainInv(s)
    ensures CalmRun(s, es) && Stopped(Exec(s, es))
    decreases Measure(s)
  {
    if Stopped(s) {
      es := [];
    } else {
      var e :| Calm(s, e);
      DrainKept(s, e);
      CalmDecreases(s, e);
      MeasureBounds(Apply(s, e));
      var rest := RunDown(Apply(s, e));
      es := [e] + rest;
      hide Apply, Calm, DrainInv;
      assert es[1..] == rest;
    }
  }

  /** A quiet run that goes on until it stops. */
  lemma {:induction false} QuietDown(s: State) returns (es: seq<Event>)
    requires Inv(s)
    ensures QuietRun(s, es) && Still(Exec(s, es))
    decreases Total(s)
  {
    if Still(s) {
      es := [];
    } else {
      var e :| Quiet(s, e);
      InvKept(s, e);
      StepDecreases(s, e);
      TotalNonNegative(Apply(s, e));
      var rest := QuietDown(Apply(s, e));
      es := [e] + rest;
      hide Apply, Quiet, Inv;
      assert es[1..] == rest;
    }
  }
}
