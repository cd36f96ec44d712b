/** Why the drain needs its condition: `waiters_blocked` is raised before a waiter queues. From the
    start of every configuration some run without a failed call goes on as long as it can and does
    not complete, because a waiter queues after the waker has gone, or the wake comes too early. */
module RequeuePiLate {
  import opened Sets
  import opened RequeuePi
  import opened RequeuePiSafety
  import opened RequeuePiRuns
  import opened RequeuePiDrain
  import opened RequeuePiReach
  import opened RequeuePiLostWake
  import opened RequeuePiJam
  import B = RequeuePiBroadcast

  /** All waiters have announced themselves, but t has not queued yet; there is no third party. */
  predicate Late(s: State, t: nat) {
    && t < |s.ws| && s.ws[t].pc == Calling && !s.cfg.third
    && forall u :: 0 <= u < |s.ws| ==> Marked(s.ws[u].pc)
  }

  predicate NotBy(e: Event, t: nat) {
    ByWaiter(e) ==> e.t != t
  }

  lemma LateStays(s: State, e: Event, t: nat)
    requires Late(s, t) && Enabled(s, e) && NotBy(e, t)
    ensures Late(Apply(s, e), t)
  {
    hide Apply, Enabled;
    forall u | 0 <= u < |s.ws|
      ensures Marked(Apply(s, e).ws[u].pc) && (u == t ==> Apply(s, e).ws[u].pc == Calling)
    {
      if ByWaiter(e) && e.t == u {
        WaiterSelf(s, e);
      } else {
        OthersPush(s, e, u);
      }
    }
  }

  /** The owner for which the waker queues is another waiter, and it can go on. */
  lemma OwnerSteps(s: State, t: nat) returns (e: Event)
    requires Inv(s) && Late(s, t) && s.waker.pc == KLockWait
    ensures Quiet(s, e) && NotBy(e, t)
  {
    hide Counts, WakerInv, SpinInv, ResultsInv;
    assert Queued(s, |s.ws|) && !Believes(s, |s.ws|) && !Believes(s, |s.ws| + 1);
    assert s.owner.By? && Believes(s, s.owner.id);
    var u := s.owner.id;
    if s.ws[u].pc == Unlock {
      var heir := SomeHeir(s, u);
      e := WaiterUnlocks(u, heir);
    } else {
      e := WaiterRuns(u);
    }
  }

  lemma OnF1Bounded(s: State)
    requires Modes(s)
    ensures |OnF1Set(s)| <= s.cfg.n
  {
    hide Range;
    SubsetSize(OnF1Set(s), Range(s.cfg.n));
    RangeSize(s.cfg.n);
  }

  lemma QuietCall(s: State) returns (e: Event)
    requires Inv(s) && s.waker.pc == Requeue
    ensures Quiet(s, e) && !ByWaiter(e)
  {
    hide Ownership, Counts, WakerInv, SpinInv, ResultsInv;
    OnF1Bounded(s);
    if OnF1Set(s) == {} {
      assert Taken(Nobody, {}) == {};
      e := WakerRequeues(Nobody, {}, true);
    } else {
      var u :| u in OnF1Set(s);
      e := FullRequeue(s, u);
    }
  }

  lemma WakerSteps(s: State, t: nat) returns (e: Event)
    requires Inv(s) && Late(s, t) && s.waker.pc !in {KLockWait, KExit}
    ensures Quiet(s, e) && NotBy(e, t)
  {
    hide WakerInv, SpinInv, ResultsInv;
    if s.waker.pc == Requeue {
      e := QuietCall(s);
    } else if s.waker.pc in {KUnlock, FinalUnlock} {
      assert Believes(s, |s.ws|);
      var heir := SomeHeir(s, |s.ws|);
      e := WakerUnlocks(heir);
    } else {
      AllMarkedBlocked(s);
      e := WakerRuns;
    }
  }

  lemma AllMarkedBlocked(s: State)
    requires Counts(s) && forall u :: 0 <= u < |s.ws| ==> Marked(s.ws[u].pc)
    ensures s.blocked == |s.ws|
  {
    hide Range;
    assert MarkedSet(s) == Range(|s.ws|);
    RangeSize(|s.ws|);
  }

  /** The waker comes to its end while t still has not queued. */
  lemma {:induction false} LateDown(s: State, t: nat) returns (es: seq<Event>)
    requires Inv(s) && Late(s, t)
    ensures QuietRun(s, es) && Late(Exec(s, es), t) && Exec(s, es).waker.pc == KExit
    decreases Total(s)
  {
    hide Apply, Quiet, Inv, Late;
    if s.waker.pc == KExit {
      es := [];
    } else {
      var e;
      if s.waker.pc == KLockWait {
        e := OwnerSteps(s, t);
      } else {
        e := WakerSteps(s, t);
      }
      QuietMeans(s, e);
      LateStays(s, e, t);
      InvKept(s, e);
      StepDecreases(s, e);
      TotalNonNegative(Apply(s, e));
      var rest := LateDown(Apply(s, e), t);
      es := [e] + rest;
      assert es[1..] == rest;
    }
  }

  lemma QuietMeans(s: State, e: Event)
    requires Quiet(s, e)
    ensures Enabled(s, e)
  {
  }

  /** Now t queues. */
  lemma LateQueues(s: State, t: nat)
    requires Inv(s) && Late(s, t)
    ensures Quiet(s, WaiterRuns(t))
    ensures var s' := Apply(s, WaiterRuns(t)); InF1(s', t) && s'.waker == s.waker
  {
  }

  /** All waiters but the last are on f1, and that one is on its way. */
  lemma LateIsReached(s0: State, cfg: Config) returns (es: seq<Event>)
    requires Init(s0, cfg) && !cfg.third
    ensures QuietRun(s0, es) && Late(Exec(s0, es), cfg.n - 1)
  {
    es := QueueAll(s0, cfg, cfg.n - 1);
    var e := WaiterRuns(cfg.n - 1);
    var s := Exec(s0, es);
    Announces(s0, s, cfg.n - 1);
    hide Init, Apply, Enabled, Valid, Exec, QueuedUpTo, Late;
    Extend(s0, es, e);
    Extend(s0, es + [e], e);
    es := es + [e] + [e];
    OwnStepsQuiet(s0, es);
  }

  lemma Announces(s0: State, s: State, t: nat)
    requires QueuedUpTo(s0, s, t) && |s.ws| == t + 1 && !s.cfg.third
    ensures var e := WaiterRuns(t);
            Enabled(s, e) && Enabled(Apply(s, e), e) && Late(Apply(Apply(s, e), e), t)
  {
    var e := WaiterRuns(t);
    assert Apply(s, e).ws == s.ws[t := s.ws[t].(pc := Marking, oldVal := s.f1)];
  }

  lemma {:induction false} QuietFailsNobody(s: State, es: seq<Event>)
    requires QuietRun(s, es)
    ensures forall e <- es :: !e.WaiterFails?
    decreases |es|
  {
    if es != [] {
      QuietFailsNobody(Apply(s, es[0]), es[1..]);
    }
  }

  /** Without a third party the last waiter may queue after the waker has gone; it is then left. */
  lemma LeftLate(s0: State, cfg: Config) returns (es: seq<Event>)
    requires Init(s0, cfg) && !cfg.third
    ensures QuietRun(s0, es) && Still(Exec(s0, es)) && InF1(Exec(s0, es), cfg.n - 1)
  {
    assert cfg.n >= 1;
    var t := cfg.n - 1;
    var qs := LateIsReached(s0, cfg);
    InitInv(s0, cfg);
    hide Init, Valid, Exec, QuietRun, Quiet, Apply, Inv, Late, Still;
    InvOnRuns(s0, qs);
    var bs := LateDown(Exec(s0, qs), t);
    Concat(s0, qs, bs);
    InvOnRuns(s0, qs + bs);
    LateQueues(Exec(s0, qs + bs), t);
    es := Queue(s0, qs + bs, t);
    InvOnRuns(s0, es);
    var cs := QuietDown(Exec(s0, es));
    QuietFailsNobody(Exec(s0, es), cs);
    B.LeftForever(Exec(s0, es), cs, t);
    Concat(s0, es, cs);
    es := es + cs;
  }

  lemma Queue(s0: State, es0: seq<Event>, t: nat) returns (es: seq<Event>)
    requires QuietRun(s0, es0) && Quiet(Exec(s0, es0), WaiterRuns(t))
    ensures QuietRun(s0, es) && Exec(s0, es) == Apply(Exec(s0, es0), WaiterRuns(t))
  {
    hide Apply, Quiet;
    var one := [WaiterRuns(t)];
    assert one[1..] == [];
    QuietMeans(Exec(s0, es0), WaiterRuns(t));
    assert QuietRun(Exec(s0, es0), one);
    Concat(s0, es0, one);
    es := es0 + one;
  }

  /** No configuration is sure to complete from the start: some run without a failed call goes on as
      long as it can and has not completed. */
  lemma NeverCertain(s0: State, cfg: Config) returns (es: seq<Event>)
    requires Init(s0, cfg)
    ensures QuietRun(s0, es) && Still(Exec(s0, es)) && !Completed(Exec(s0, es))
  {
    hide Valid, Exec, QuietRun, Quiet, Apply, Inv, Still;
    InitInv(s0, cfg);
    if !cfg.third {
      es := LeftLate(s0, cfg);
    } else if cfg.broadcast && cfg.max < 2 {
      es := QuietDown(s0);
      QuietSpares(s0, es);
      CannotComplete(s0, cfg, es);
    } else {
      var qs := WakeMayBeLost(s0, cfg);
      InvOnRuns(s0, qs);
      var bs := QuietDown(Exec(s0, qs));
      QuietSpares(Exec(s0, qs), bs);
      Concat(s0, qs, bs);
      es := qs + bs;
    }
  }
}
