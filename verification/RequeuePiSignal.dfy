/** What a signal achieves: its loop ends without an error only when every waiter has been requeued
    or has come back, and nobody is counted for another. With it, when a waker of either mode serves
    all waiters. */
module RequeuePiSignal {
  import opened Words
  import opened Sets
  import opened RequeuePi
  import opened RequeuePiSafety
  import opened RequeuePiDrain
  import opened RequeuePiReach
  import opened RequeuePiBroadcast
  import opened RequeuePiTimeouts

  predicate AllPast(s: State) {
    forall t :: 0 <= t < |s.ws| ==> Past(s.ws[t].pc)
  }

  predicate SignalEndsPast(s: State) {
    && 0 < |s.ws| && !s.cfg.broadcast
    && (s.waker.pc in {WakeDone, KExit} && !s.failed && !s.limited ==> AllPast(s))
  }

  /** A waiter past f1 stays past it. */
  lemma PastStays(s: State, e: Event)
    requires Enabled(s, e) && AllPast(s)
    ensures AllPast(Apply(s, e))
  {
    hide Apply, Enabled;
    forall t | 0 <= t < |s.ws| ensures Past(Apply(s, e).ws[t].pc) {
      if ByWaiter(e) && e.t == t {
        WaiterSelf(s, e);
      } else {
        OthersPush(s, e, t);
      }
    }
  }

  /** The loop test lets the waker leave only with all waiters past f1. */
  lemma SignalTest(s: State)
    requires Inv(s) && SignalEndsPast(s) && s.waker.pc == LoopTest
    ensures SignalEndsPast(RunWaker(s))
  {
    LoopTestMeans(s);
    if s.moved == Range(s.cfg.n) {
      assert forall t :: 0 <= t < |s.ws| ==> t in s.moved;
    }
    hide Ownership, WakerInv, ResultsInv, SpinInv, Range;
  }

  lemma SignalRequeue(s: State, first: Heir, rest: set<nat>, ok: bool)
    requires !s.cfg.broadcast
    ensures var s' := RunRequeue(s, first, rest, ok);
            s'.waker.pc in {WakeDone, KExit} ==> s'.failed || s'.limited
  {
    hide Take, Moved, Taken;
  }

  /** Any other step into the wake is one with an error. */
  lemma OtherSteps(s: State, e: Event)
    requires Inv(s) && !s.cfg.broadcast && Enabled(s, e) && !(e == WakerRuns && s.waker.pc == LoopTest)
    ensures var s' := Apply(s, e);
            s'.waker.pc in {WakeDone, KExit} && !s'.failed && !s'.limited ==>
              s.waker.pc in {WakeDone, KExit} && !s.failed && !s.limited
  {
    hide Ownership, Counts, SpinInv, ResultsInv, RunRequeue, Release;
    if e.WakerRequeues? {
      SignalRequeue(s, e.first, e.rest, e.ok);
    } else if e.WakerUnlocks? {
      ReleasePushes(LeaveWaker(s), |s.ws|, e.heir, 0);
    } else if !ByWaker(e) {
      hide Apply;
      OthersPushWaker(s, e);
    }
  }

  lemma SignalEndsPastKept(s: State, e: Event)
    requires Inv(s) && SignalEndsPast(s) && Enabled(s, e)
    ensures SignalEndsPast(Apply(s, e))
  {
    hide Inv, AllPast, RunWaker, RunRequeue, Release;
    if e == WakerRuns && s.waker.pc == LoopTest {
      SignalTest(s);
    } else {
      OtherSteps(s, e);
      if AllPast(s) {
        PastStays(s, e);
      }
    }
  }

  lemma {:induction false} SignalEndsPastOnRuns(s: State, es: seq<Event>)
    requires Inv(s) && SignalEndsPast(s) && Valid(s, es)
    ensures SignalEndsPast(Exec(s, es))
    decreases |es|
  {
    if es != [] {
      InvKept(s, es[0]);
      SignalEndsPastKept(s, es[0]);
      SignalEndsPastOnRuns(Apply(s, es[0]), es[1..]);
    }
  }

  /** A signal that ends without an error leaves nobody on f1 or on the way there, in every run,
      timeouts and failed waits included. */
  lemma SignalLeavesNobody(s0: State, cfg: Config, es: seq<Event>, s: State)
    requires Init(s0, cfg) && !cfg.broadcast && Valid(s0, es) && s == Exec(s0, es)
    requires s.waker.pc == KExit && s.waker.ret >= 0
    ensures |s.ws| == cfg.n && AllPast(s)
  {
    InitInv(s0, cfg);
    SignalEndsPastOnRuns(s0, es);
    InvOnRuns(s0, es);
    EndsWithoutError(s);
    hide Valid, Inv, AllPast;
  }

  // ---------------------------------------------------------------- without failed waits

  predicate PastMoved(s: State) {
    forall t :: 0 <= t < |s.ws| && Past(s.ws[t].pc) ==> t in s.moved
  }

  lemma PastMovedKept(s: State, e: Event)
    requires Modes(s) && PastMoved(s) && Enabled(s, e) && !e.WaiterFails?
    ensures PastMoved(Apply(s, e))
  {
    hide Apply;
    forall t | 0 <= t < |s.ws| && Past(Apply(s, e).ws[t].pc) ensures t in Apply(s, e).moved {
      if ByWaiter(e) && e.t == t {
        OwnStepMoved(s, e);
      } else if e.WakerRequeues? {
        TakenMoved(s, e, t);
      } else {
        MovedOnlyByRequeue(s, e, t);
        OthersPush(s, e, t);
      }
    }
  }

  lemma OwnStepMoved(s: State, e: Event)
    requires Modes(s) && PastMoved(s) && Enabled(s, e) && ByWaiter(e) && !e.WaiterFails?
    ensures Past(Apply(s, e).ws[e.t].pc) ==> e.t in Apply(s, e).moved
  {
    hide WakerMode, Take;
    OnlyRequeueMoves(s, e);
  }

  lemma TakenMoved(s: State, e: Event, t: nat)
    requires PastMoved(s) && Enabled(s, e) && e.WakerRequeues? && t < |s.ws|
    ensures Past(Apply(s, e).ws[t].pc) ==> t in Apply(s, e).moved
  {
    hide RunRequeue, Taken;
    RequeuePushes(s, e.first, e.rest, e.ok, t);
  }

  lemma {:induction false} PastMovedOnRuns(s: State, es: seq<Event>)
    requires Inv(s) && PastMoved(s) && Valid(s, es) && NoWaitFails(es)
    ensures PastMoved(Exec(s, es))
    decreases |es|
  {
    if es != [] {
      InvKept(s, es[0]);
      PastMovedKept(s, es[0]);
      PastMovedOnRuns(Apply(s, es[0]), es[1..]);
    }
  }

  /** A signal that ends without an error, in every run without a failed wait and whatever the options:
      all waiters have been requeued, and that is what it reports. */
  lemma SignalServes(s0: State, cfg: Config, es: seq<Event>, s: State)
    requires Init(s0, cfg) && !cfg.broadcast && Valid(s0, es) && NoWaitFails(es) && s == Exec(s0, es)
    requires s.waker.pc == KExit && s.waker.ret >= 0
    ensures s.moved == Range(cfg.n) && s.waker.ret == cfg.n
  {
    SignalLeavesNobody(s0, cfg, es, s);
    WakerBounded(s0, cfg, es, s);
    WaitersConserved(s0, cfg, es, s);
    InitInv(s0, cfg);
    PastMovedOnRuns(s0, es);
    InvOnRuns(s0, es);
    EndsWithoutError(s);
    MovedAll(s, cfg.n);
    hide Init, Valid, Exec, Inv, Range, AllPast, PastMoved;
  }

  lemma MovedAll(s: State, n: nat)
    requires |s.ws| == n && AllPast(s) && PastMoved(s) && |s.moved| <= n
    ensures s.moved == Range(n) && |s.moved| == n
  {
    hide Range;
    RangeSize(n);
    assert Range(n) <= s.moved;
    assert s.moved == Range(n) + (s.moved - Range(n));
    UnionSize(Range(n), s.moved - Range(n));
  }

  // ---------------------------------------------------------------- both modes

  /** Without failed waits, an end without an error means that all waiters were requeued, if and only if
      the mode is signal, -l is given, there is one waiter only, or the limit is 1. */
  lemma ServesAllIff(cfg: Config)
    requires 1 <= cfg.n <= INT_MAX && 1 <= cfg.max
    ensures ServesAll(cfg) <==> !cfg.broadcast || cfg.lock || cfg.n == 1 || cfg.max == 1
  {
    hide Init, Valid, Exec, Range;
    if cfg.broadcast {
      BroadcastServesAllIff(cfg);
    } else {
      forall s0, es | Init(s0, cfg) && Valid(s0, es) && NoWaitFails(es)
        && Exec(s0, es).waker.pc == KExit && Exec(s0, es).waker.ret >= 0
        ensures Exec(s0, es).moved == Range(cfg.n)
      {
        SignalServes(s0, cfg, es, Exec(s0, es));
      }
    }
  }

  /** Timeouts and failed waits included, an end without an error leaves nobody behind if and only if
      the mode is signal, there is one waiter only, or the limit is 1. */
  lemma LeavesNobodyIff(cfg: Config)
    requires 1 <= cfg.n <= INT_MAX && 1 <= cfg.max
    ensures LeavesNobody(cfg) <==> !cfg.broadcast || cfg.n == 1 || cfg.max == 1
  {
    hide Init, Valid, Exec;
    if cfg.broadcast {
      BroadcastLeavesNobodyIff(cfg);
    } else {
      forall s0, es | Init(s0, cfg) && Valid(s0, es)
        && Exec(s0, es).waker.pc == KExit && Exec(s0, es).waker.ret >= 0
        ensures AllPast(Exec(s0, es))
      {
        SignalLeavesNobody(s0, cfg, es, Exec(s0, es));
      }
    }
  }
}
