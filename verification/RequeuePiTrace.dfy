/** The requeue-PI model against the text of functional/futex_requeue_pi.c: on every run each thread
    makes the calls of its code in program order, with the branches that their results demand, and
    the calls together are possible for the kernel. */
module RequeuePiTrace {
  import opened Words
  import opened Traces
  import opened RequeuePi
  import opened RequeuePiSafety
  import opened RequeuePiRuns
  import C = RequeuePiCode

  type Log = seq<Did<C.Call>>

  // ---------------------------------------------------------------- the calls of a run

  function WaiterCalls(s: State, t: nat): seq<C.Call>
    requires CanRun(s, t)
  {
    var w := s.ws[t];
    match w.pc
    case Start => [C.ReadF1(s.f1)]
    case Marking => [C.IncBlocked]
    case Calling => [C.WaitCall(w.oldVal)] + if s.f1 == w.oldVal then [] else [C.WaitBack(-1, OtherError)]
    case Granted => [C.WaitBack(0, NoError)]
    case Woke => [C.IncWoken]
    case Relock => [C.LockPi]
  }

  function FailCalls(w: Waiter, timedOut: bool): seq<C.Call> {
    (if w.pc == Calling then [C.WaitCall(w.oldVal)] else []) +
    [C.WaitBack(-1, if timedOut then TimedOut else OtherError)]
  }

  function WakerCalls(s: State): seq<C.Call>
    requires CanWake(s)
  {
    match s.waker.pc
    case Spin => [C.SeesBlocked(s.blocked)]
    case LoopTest => if s.waker.task < s.cfg.n then [C.ReadWoken(s.woken)] else []
    case KLock => [C.LockPi]
    case ReadF1 => [C.ReadF1(s.f1)]
    case Retest => [C.ReadWoken(s.woken)]
    case WakeDone => [C.WakeComplete] + if RunWaker(s).waker.pc == KExit then [C.Exits(RunWaker(s).waker.ret)] else []
  }

  function BlockerFailCalls(pc: BPc, ret: int): seq<C.Call> {
    match pc
    case BLock => [C.LockFails, C.Exits(ret)]
    case BLockWait => [C.LockFails, C.Exits(ret)]
    case BWait => [C.WaitComplete, C.CompleteBack(-1)]
    case BAsleep => [C.CompleteBack(-1)]
    case Absent => []
    case BUnlock => []
    case BExit => []
  }

  /** What the acting thread does in an event. */
  function Calls(s: State, e: Event): seq<C.Call>
    requires Enabled(s, e)
  {
    match e
    case WaiterRuns(t) => WaiterCalls(s, t)
    case WaiterFails(t, timedOut) => FailCalls(s.ws[t], timedOut)
    case WaiterUnlocks(t, heir) => [C.UnlockPi(heir), C.Exits(Apply(s, e).ws[t].ret)]
    case WakerRuns => WakerCalls(s)
    case WakerRequeues(first, rest, ok) =>
      [C.CmpRequeue(s.waker.oldVal, NrRequeue(s.cfg), first, rest, if ok then |Taken(first, rest)| else -1)]
    case WakerUnlocks(heir) =>
      [C.UnlockPi(heir)] + if Apply(s, e).waker.pc == KExit then [C.Exits(Apply(s, e).waker.ret)] else []
    case BlockerRuns => if s.blocker.pc == BLock then [C.LockPi] else [C.WaitComplete]
    case BlockerReturns => [C.CompleteBack(0)]
    case BlockerFails => BlockerFailCalls(s.blocker.pc, FailBlocker(s).blocker.ret)
    case BlockerUnlocks(heir) => [C.UnlockPi(heir), C.Exits(Apply(s, e).blocker.ret)]
  }

  function Actor(s: State, e: Event): nat {
    if ByWaiter(e) then e.t else if ByWaker(e) then |s.ws| else |s.ws| + 1
  }

  function Tagged(id: nat, cs: seq<C.Call>): Log {
    if cs == [] then [] else [Did(id, cs[0])] + Tagged(id, cs[1..])
  }

  /** The third party comes back from futex_wait when the waker wakes it. */
  function Emits(s: State, e: Event): Log
    requires Enabled(s, e)
  {
    if e == WakerRuns && s.waker.pc == WakeDone && s.blocker.pc == BAsleep
    then [Did(|s.ws|, C.WakeComplete), Did(|s.ws| + 1, C.CompleteBack(0))] + Tagged(|s.ws|, Calls(s, e)[1..])
    else Tagged(Actor(s, e), Calls(s, e))
  }

  function Trace(s: State, es: seq<Event>): Log
    requires Valid(s, es)
    decreases |es|
  {
    if es == [] then [] else Emits(s, es[0]) + Trace(Apply(s, es[0]), es[1..])
  }

  lemma {:induction false} LogOfTagged(id: nat, cs: seq<C.Call>, x: nat)
    ensures LogOf(Tagged(id, cs), x) == if x == id then cs else []
  {
    if cs != [] {
      var d := Did(id, cs[0]);
      LogOfTagged(id, cs[1..], x);
      LogOfOne(d, x);
      LogOfConcat([d], Tagged(id, cs[1..]), x);
      assert [cs[0]] + cs[1..] == cs;
    }
  }

  /** What thread x does in an event. */
  function OwnCalls(s: State, e: Event, x: nat): seq<C.Call>
    requires Enabled(s, e)
  {
    if x == Actor(s, e) then Calls(s, e)
    else if x == |s.ws| + 1 && e == WakerRuns && s.waker.pc == WakeDone && s.blocker.pc == BAsleep
    then [C.CompleteBack(0)]
    else []
  }

  lemma LogOfEvent(s: State, e: Event, x: nat)
    requires Enabled(s, e)
    ensures LogOf(Emits(s, e), x) == OwnCalls(s, e, x)
  {
    hide Apply, Enabled, RunWaker;
    if e == WakerRuns && s.waker.pc == WakeDone && s.blocker.pc == BAsleep {
      var n, cs := |s.ws|, Calls(s, e);
      var a, b := Did(n, C.WakeComplete), Did(n + 1, C.CompleteBack(0));
      LogOfTagged(n, cs[1..], x);
      LogOfOne(a, x);
      LogOfOne(b, x);
      LogOfConcat([a], [b], x);
      assert [a] + [b] == [a, b];
      LogOfConcat([a, b], Tagged(n, cs[1..]), x);
      assert cs == [C.WakeComplete] + cs[1..];
    } else {
      LogOfTagged(Actor(s, e), Calls(s, e), x);
    }
  }

  // ---------------------------------------------------------------- program order

  predicate WaiterAhead(c: Config, w: Waiter, log: seq<C.Call>, done: bool) {
    match w.pc
    case Start => C.WaiterCode(c.timed, log, done)
    case Marking => C.MarkCode(c.timed, w.oldVal, log, done)
    case Calling => C.WaitCode(c.timed, w.oldVal, log, done)
    case OnF1 => C.WaitBackCode(c.timed, log, done)
    case OnF2 => C.WaitBackCode(c.timed, log, done)
    case Granted => C.WaitBackCode(c.timed, log, done)
    case Woke => C.WokenCode(c.timed, w.ret, w.errno, log, done)
    case Relock => C.RelockCode(w.ret, log, done)
    case LockWait => C.WaiterUnlockCode(w.ret, log, done)
    case Unlock => C.WaiterUnlockCode(w.ret, log, done)
    case Exit => log == [] && done
  }

  predicate BroadcastAhead(c: Config, k: Waker, log: seq<C.Call>, done: bool) {
    match k.pc
    case Spin => C.BroadcastCode(c, k.task, k.i, log, done)
    case KLock => C.BroadcastLockCode(c, k.task, k.i, log, done)
    case KLockWait => C.BroadcastReadCode(c, k.task, k.i, log, done)
    case ReadF1 => C.BroadcastReadCode(c, k.task, k.i, log, done)
    case Requeue => C.BroadcastCallCode(c, k.oldVal, k.task, k.i, log, done)
    case Retest => C.BroadcastTestCode(c, k.ret, k.task, k.i, log, done)
    case WakeDone => C.BroadcastEndCode(c, k.ret, k.task, log, done)
    case FinalUnlock => C.BroadcastUnlockCode(if k.ret > 0 then k.task else k.ret, log, done)
    case KExit => log == [] && done
    case LoopTest => false
    case KUnlock => false
  }

  predicate SignalAhead(c: Config, k: Waker, log: seq<C.Call>, done: bool) {
    match k.pc
    case Spin => C.SignalCode(c, k.ret, k.task, k.i, log, done)
    case LoopTest => C.SignalLoopCode(c, k.ret, k.task, k.i, log, done)
    case KLock => C.SignalLockCode(c, k.task, k.i, log, done)
    case KLockWait => C.SignalReadCode(c, k.task, k.i, log, done)
    case ReadF1 => C.SignalReadCode(c, k.task, k.i, log, done)
    case Requeue => C.SignalCallCode(c, k.oldVal, k.task, k.i, log, done)
    case KUnlock => C.SignalUnlockCode(c, k.ret, k.task, k.i, log, done)
    case WakeDone => C.SignalEndCode(c, k.ret, k.task, log, done)
    case KExit => log == [] && done
    case Retest => false
    case FinalUnlock => false
  }

  predicate WakerAhead(c: Config, k: Waker, log: seq<C.Call>, done: bool) {
    if c.broadcast then BroadcastAhead(c, k, log, done) else SignalAhead(c, k, log, done)
  }

  predicate BlockerAhead(b: Blocker, log: seq<C.Call>, done: bool) {
    match b.pc
    case Absent => log == [] && !done
    case BLock => C.ThirdCode(log, done)
    case BLockWait => C.ThirdLockedCode(log, done)
    case BWait => C.ThirdWaitCode(log, done)
    case BAsleep => C.ThirdBackCode(log, done)
    case BUnlock => C.ThirdUnlockCode(b.ret, log, done)
    case BExit => log == [] && done
  }

  predicate Ahead(s: State, x: nat, log: seq<C.Call>, done: bool) {
    if x < |s.ws| then WaiterAhead(s.cfg, s.ws[x], log, done)
    else if x == |s.ws| then WakerAhead(s.cfg, s.waker, log, done)
    else BlockerAhead(s.blocker, log, done)
  }

  /** Reading a log that starts with given calls. */
  lemma Starts(a: C.Call, b: C.Call, rest: seq<C.Call>)
    ensures ([a] + rest)[0] == a && ([a] + rest)[1..] == rest
    ensures ([a, b] + rest)[0] == a && ([a, b] + rest)[1..] == [b] + rest
    ensures [] + rest == rest
  {
  }

  lemma WaiterRunAhead(s: State, t: nat, log: seq<C.Call>, done: bool)
    requires Modes(s) && CanRun(s, t) && log != [] && [log[0]] == WaiterCalls(s, t)
    requires WaiterAhead(s.cfg, RunWaiter(s, t).ws[t], log[1..], done)
    ensures WaiterAhead(s.cfg, s.ws[t], log, done)
  {
    var w := s.ws[t];
    if w.pc == Calling {
      assert s.f1 == w.oldVal && [C.WaitCall(w.oldVal)] + [] == [C.WaitCall(w.oldVal)];
    }
  }

  lemma WaiterFailAhead(c: Config, w: Waiter, errno: Errno, log: seq<C.Call>, done: bool)
    requires w.pc in {OnF1, OnF2} && log != [] && log[0] == C.WaitBack(-1, errno)
    requires WaiterAhead(c, w.(pc := Woke, ret := -1, errno := errno), log[1..], done)
    ensures WaiterAhead(c, w, log, done)
  {
  }

  lemma WaiterActs(s: State, e: Event, rest: seq<C.Call>, done: bool)
    requires Modes(s) && Enabled(s, e) && ByWaiter(e) && WaiterAhead(s.cfg, Apply(s, e).ws[e.t], rest, done)
    ensures WaiterAhead(s.cfg, s.ws[e.t], Calls(s, e) + rest, done)
  {
    hide WaiterAhead;
    match e
    case WaiterRuns(t) => WaiterRunActs(s, t, rest, done);
    case WaiterFails(t, timedOut) => WaiterFailActs(s.cfg, s.ws[t], timedOut, rest, done);
    case WaiterUnlocks(t, heir) => WaiterUnlockActs(s, t, heir, rest, done);
  }

  lemma WaiterRunActs(s: State, t: nat, rest: seq<C.Call>, done: bool)
    requires Modes(s) && CanRun(s, t) && WaiterAhead(s.cfg, RunWaiter(s, t).ws[t], rest, done)
    ensures WaiterAhead(s.cfg, s.ws[t], WaiterCalls(s, t) + rest, done)
  {
    hide WaiterAhead, RunWaiter;
    var a := WaiterCalls(s, t)[0];
    assert WaiterCalls(s, t) == [a];
    Starts(a, a, rest);
    WaiterRunAhead(s, t, [a] + rest, done);
  }

  lemma WaiterFailActs(c: Config, w: Waiter, timedOut: bool, rest: seq<C.Call>, done: bool)
    requires w.pc in {Calling, OnF1, OnF2}
    requires WaiterAhead(c, w.(pc := Woke, ret := -1, errno := if timedOut then TimedOut else OtherError), rest, done)
    ensures WaiterAhead(c, w, FailCalls(w, timedOut) + rest, done)
  {
    var errno := if timedOut then TimedOut else OtherError;
    var a, b := C.WaitCall(w.oldVal), C.WaitBack(-1, errno);
    Starts(b, b, rest);
    Starts(a, b, rest);
    WaiterFailAhead(c, w.(pc := OnF1), errno, [b] + rest, done);
    assert w.pc == Calling ==> FailCalls(w, timedOut) == [a, b];
    assert w.pc != Calling ==> FailCalls(w, timedOut) == [b];
  }

  lemma WaiterUnlockActs(s: State, t: nat, heir: Heir, rest: seq<C.Call>, done: bool)
    requires Enabled(s, WaiterUnlocks(t, heir))
    requires WaiterAhead(s.cfg, Apply(s, WaiterUnlocks(t, heir)).ws[t], rest, done)
    ensures WaiterAhead(s.cfg, s.ws[t], Calls(s, WaiterUnlocks(t, heir)) + rest, done)
  {
    hide Release;
    ReleasePushes(SetPc(s, t, Exit), t, heir, t);
    var a, b := C.UnlockPi(heir), C.Exits(s.ws[t].ret);
    Starts(a, b, rest);
    Starts(b, b, rest);
  }

  // ---------------------------------------------------------------- the waker

  lemma WakerRunAhead(s: State, log: seq<C.Call>, done: bool)
    requires WakerMode(s) && CanWake(s) && s.waker.pc != WakeDone && log != [] && [log[0]] == WakerCalls(s)
    requires WakerAhead(s.cfg, RunWaker(s).waker, log[1..], done)
    ensures WakerAhead(s.cfg, s.waker, log, done)
  {
  }

  lemma WakerWakeAhead(s: State, log: seq<C.Call>, done: bool)
    requires WakerMode(s) && s.waker.pc == WakeDone && log != [] && log[0] == C.WakeComplete
    requires var k := RunWaker(s).waker;
             if k.pc == KExit then log[1..] == [C.Exits(k.ret)] && done else WakerAhead(s.cfg, k, log[1..], done)
    ensures WakerAhead(s.cfg, s.waker, log, done)
  {
  }

  lemma WakerRunActs(s: State, rest: seq<C.Call>, done: bool)
    requires WakerMode(s) && CanWake(s) && WakerAhead(s.cfg, RunWaker(s).waker, rest, done)
    ensures WakerAhead(s.cfg, s.waker, WakerCalls(s) + rest, done)
  {
    var cs := WakerCalls(s);
    if s.waker.pc == WakeDone {
      var k := RunWaker(s).waker;
      var a, b := C.WakeComplete, C.Exits(k.ret);
      Starts(a, b, rest);
      Starts(b, b, rest);
      assert cs == if k.pc == KExit then [a, b] else [a];
      assert k.pc == KExit ==> rest == [];
      WakerWakeAhead(s, cs + rest, done);
    } else if cs == [] {
      assert cs + rest == rest;
      EmptyTest(s, rest, done);
    } else {
      Starts(cs[0], cs[0], rest);
      WakerRunAhead(s, cs + rest, done);
    }
    hide WakerAhead, RunWaker;
  }

  /** The signal loop ends without reading waiters_woken once task_count has come to N. */
  lemma EmptyTest(s: State, log: seq<C.Call>, done: bool)
    requires WakerMode(s) && s.waker.pc == LoopTest && WakerCalls(s) == []
    requires WakerAhead(s.cfg, RunWaker(s).waker, log, done)
    ensures WakerAhead(s.cfg, s.waker, log, done)
  {
  }

  lemma RequeueAhead(s: State, first: Heir, rest: set<nat>, ok: bool, log: seq<C.Call>, done: bool)
    requires WakerMode(s) && s.waker.pc == Requeue && log != []
    requires log[0] == C.CmpRequeue(s.waker.oldVal, NrRequeue(s.cfg), first, rest,
                                    if ok then |Taken(first, rest)| else -1)
    requires WakerAhead(s.cfg, RunRequeue(s, first, rest, ok).waker, log[1..], done)
    ensures WakerAhead(s.cfg, s.waker, log, done)
  {
    hide Moved, Take, Taken;
    var k := RunRequeue(s, first, rest, ok).waker;
    if s.cfg.broadcast {
      assert C.BroadcastCallCode(s.cfg, s.waker.oldVal, s.waker.task, s.waker.i, log, done);
    } else if s.cfg.lock {
      assert C.SignalCallCode(s.cfg, s.waker.oldVal, s.waker.task, s.waker.i, log, done);
    } else {
      assert C.SignalCallCode(s.cfg, s.waker.oldVal, s.waker.task, s.waker.i, log, done);
    }
  }

  lemma UnlockAhead(s: State, log: seq<C.Call>, done: bool)
    requires WakerMode(s) && s.waker.pc in {KUnlock, FinalUnlock} && log != [] && log[0].UnlockPi?
    requires var k := LeaveWaker(s).waker;
             if k.pc == KExit then log[1..] == [C.Exits(k.ret)] && done else WakerAhead(s.cfg, k, log[1..], done)
    ensures WakerAhead(s.cfg, s.waker, log, done)
  {
  }

  lemma WakerUnlockActs(s: State, heir: Heir, rest: seq<C.Call>, done: bool)
    requires 0 < |s.ws| && WakerMode(s) && Enabled(s, WakerUnlocks(heir))
    requires WakerAhead(s.cfg, Apply(s, WakerUnlocks(heir)).waker, rest, done)
    ensures WakerAhead(s.cfg, s.waker, Calls(s, WakerUnlocks(heir)) + rest, done)
  {
    hide Apply, LeaveWaker, Calls, Enabled;
    UnlockWaker(s, heir);
    var k := LeaveWaker(s).waker;
    var a, b := C.UnlockPi(heir), C.Exits(k.ret);
    Starts(a, b, rest);
    Starts(b, b, rest);
    assert k.pc == KExit ==> rest == [];
    hide WakerAhead;
    UnlockAhead(s, Calls(s, WakerUnlocks(heir)) + rest, done);
  }

  /** Who gets f2 from the waker does not matter to the waker. */
  lemma UnlockWaker(s: State, heir: Heir)
    requires 0 < |s.ws| && Enabled(s, WakerUnlocks(heir))
    ensures var k := LeaveWaker(s).waker;
            && s.waker.pc in {KUnlock, FinalUnlock} && Apply(s, WakerUnlocks(heir)).waker == k
            && Calls(s, WakerUnlocks(heir)) ==
               if k.pc == KExit then [C.UnlockPi(heir), C.Exits(k.ret)] else [C.UnlockPi(heir)]
  {
    hide Release, Take;
    ReleasePushes(LeaveWaker(s), |s.ws|, heir, 0);
  }

  lemma WakerActs(s: State, e: Event, rest: seq<C.Call>, done: bool)
    requires 0 < |s.ws| && WakerMode(s) && Enabled(s, e) && ByWaker(e)
    requires WakerAhead(s.cfg, Apply(s, e).waker, rest, done)
    ensures WakerAhead(s.cfg, s.waker, Calls(s, e) + rest, done)
  {
    hide WakerAhead, RunWaker, RunRequeue, Release;
    match e
    case WakerRuns => WakerRunActs(s, rest, done);
    case WakerRequeues(first, moved, ok) =>
      var a := Calls(s, e)[0];
      Starts(a, a, rest);
      RequeueAhead(s, first, moved, ok, [a] + rest, done);
    case WakerUnlocks(heir) => WakerUnlockActs(s, heir, rest, done);
  }

  // ---------------------------------------------------------------- the third party

  lemma BlockerActs(s: State, e: Event, rest: seq<C.Call>, done: bool)
    requires Ownership(s) && Enabled(s, e) && !ByWaiter(e) && !ByWaker(e)
    requires BlockerAhead(Apply(s, e).blocker, rest, done)
    ensures BlockerAhead(s.blocker, Calls(s, e) + rest, done)
  {
    BlockerUnlockOwns(s);
    hide Ownership;
    match e
    case BlockerUnlocks(heir) => BlockerUnlockActs(s, heir, rest, done);
    case BlockerFails => BlockerFailActs(s, rest, done);
    case BlockerRuns => BlockerRunActs(s, rest, done);
    case BlockerReturns => Starts(C.CompleteBack(0), C.CompleteBack(0), rest);
  }

  lemma BlockerRunActs(s: State, rest: seq<C.Call>, done: bool)
    requires s.blocker.pc in {BLock, BWait} && BlockerAhead(RunBlocker(s).blocker, rest, done)
    requires s.blocker.pc == BLock ==> s.owner != By(|s.ws| + 1)
    ensures BlockerAhead(s.blocker, [if s.blocker.pc == BLock then C.LockPi else C.WaitComplete] + rest, done)
  {
    var a := if s.blocker.pc == BLock then C.LockPi else C.WaitComplete;
    Starts(a, a, rest);
  }

  lemma BlockerFailActs(s: State, rest: seq<C.Call>, done: bool)
    requires s.blocker.pc in {BLock, BLockWait, BWait, BAsleep} && BlockerAhead(FailBlocker(s).blocker, rest, done)
    ensures BlockerAhead(s.blocker, BlockerFailCalls(s.blocker.pc, FailBlocker(s).blocker.ret) + rest, done)
  {
    var f, x := C.LockFails, C.Exits(RET_ERROR);
    Starts(f, x, rest);
    Starts(x, x, rest);
    var w, b := C.WaitComplete, C.CompleteBack(-1);
    Starts(w, b, rest);
    Starts(b, b, rest);
  }

  lemma BlockerUnlockActs(s: State, heir: Heir, rest: seq<C.Call>, done: bool)
    requires Enabled(s, BlockerUnlocks(heir)) && s.owner == By(|s.ws| + 1)
    requires BlockerAhead(Apply(s, BlockerUnlocks(heir)).blocker, rest, done)
    ensures BlockerAhead(s.blocker, Calls(s, BlockerUnlocks(heir)) + rest, done)
  {
    var ret := Apply(s, BlockerUnlocks(heir)).blocker.ret;
    Starts(C.UnlockPi(heir), C.Exits(ret), rest);
    Starts(C.Exits(ret), C.Exits(ret), rest);
  }

  // ---------------------------------------------------------------- everybody

  lemma BlockerLeft(s: State, e: Event)
    requires Enabled(s, e) && (ByWaiter(e) || ByWaker(e))
    ensures var (b, b') := (s.blocker, Apply(s, e).blocker);
            if OwnCalls(s, e, |s.ws| + 1) == [] then b' == b || (b.pc == BLockWait && b' == b.(pc := BWait))
            else
              && b.pc == BAsleep && b' == b.(pc := BUnlock, ret := 0)
              && OwnCalls(s, e, |s.ws| + 1) == [C.CompleteBack(0)]
  {
    hide RunWaiter, RunRequeue, Take, Release, RequeueOk, WaiterCalls, FailCalls, WakerCalls;
    match e
    case WakerRequeues(first, rest, ok) => FirstIsWaiter(s, first, rest, ok);
    case WaiterUnlocks(t, heir) => ReleaseThird(SetPc(s, t, Exit), t, heir);
    case WakerUnlocks(heir) => ReleaseThird(LeaveWaker(s), |s.ws|, heir);
    case WaiterRuns(_) =>
    case WaiterFails(_, _) =>
    case WakerRuns =>
  }

  lemma ReleaseThird(s: State, me: nat, heir: Heir)
    requires heir.To? && heir.id > |s.ws| ==> s.blocker.pc == BLockWait
    ensures var (b, b') := (s.blocker, Release(s, me, heir).blocker);
            b' == b || (b.pc == BLockWait && b' == b.(pc := BWait))
  {
  }

  /** What others do to a thread does not change what it does next. */
  lemma OthersLeave(s: State, e: Event, x: nat, rest: seq<C.Call>, done: bool)
    requires Enabled(s, e) && x != Actor(s, e) && x <= |s.ws| + 1 && Ahead(Apply(s, e), x, rest, done)
    ensures Ahead(s, x, OwnCalls(s, e, x) + rest, done)
  {
    hide Apply, Enabled, Calls;
    assert [] + rest == rest;
    if x < |s.ws| {
      OthersPush(s, e, x);
    } else if x == |s.ws| {
      OthersPushWaker(s, e);
    } else {
      BlockerLeft(s, e);
      Starts(C.CompleteBack(0), C.CompleteBack(0), rest);
    }
  }

  lemma ActorActs(s: State, e: Event, rest: seq<C.Call>, done: bool)
    requires Inv(s) && Enabled(s, e) && Ahead(Apply(s, e), Actor(s, e), rest, done)
    ensures Ahead(s, Actor(s, e), Calls(s, e) + rest, done)
  {
    hide Apply, Calls, WaiterAhead, WakerAhead, BlockerAhead, Counts, WakerInv, ResultsInv;
    if ByWaiter(e) {
      WaiterActs(s, e, rest, done);
    } else if ByWaker(e) {
      WakerActs(s, e, rest, done);
    } else {
      BlockerActs(s, e, rest, done);
    }
  }

  /** Thread x has called pthread_exit. */
  predicate Ended(s: State, x: nat) {
    if x < |s.ws| then s.ws[x].pc == Exit
    else if x == |s.ws| then s.waker.pc == KExit
    else s.blocker.pc == BExit
  }

  lemma {:induction false} RunAhead(s: State, es: seq<Event>, x: nat)
    requires Inv(s) && Valid(s, es) && x <= |s.ws| + 1
    ensures Ahead(s, x, LogOf(Trace(s, es), x), Ended(Exec(s, es), x))
    decreases |es|
  {
    hide Inv, Apply, Enabled, Emits, Ahead, OwnCalls, Ended;
    var done := Ended(Exec(s, es), x);
    if es == [] {
      NothingYet(s, x);
    } else {
      var e := es[0];
      var s' := Apply(s, e);
      var rest := Trace(s', es[1..]);
      InvKept(s, e);
      RunAhead(s', es[1..], x);
      LogOfConcat(Emits(s, e), rest, x);
      LogOfEvent(s, e, x);
      OwnIsCalls(s, e);
      if x == Actor(s, e) {
        ActorActs(s, e, LogOf(rest, x), done);
      } else {
        OthersLeave(s, e, x, LogOf(rest, x), done);
      }
    }
  }

  lemma OwnIsCalls(s: State, e: Event)
    requires Enabled(s, e)
    ensures OwnCalls(s, e, Actor(s, e)) == Calls(s, e)
  {
  }

  lemma NothingYet(s: State, x: nat)
    requires Inv(s)
    ensures Ahead(s, x, [], Ended(s, x))
  {
    hide Ownership, Counts, WakerInv, ResultsInv, SpinInv;
  }

  // ---------------------------------------------------------------- the kernel

  function QueuedSet(s: State): set<nat> {
    set id: nat | id < |s.ws| + 2 && Queued(s, id)
  }

  function KernelOf(s: State): C.Kernel {
    C.Kernel(s.f1, OnF1Set(s), s.owner, QueuedSet(s), s.blocked, s.woken,
             if s.blocker.pc == BAsleep then C.Asleep else C.Elsewhere,
             s.moved, s.owned, s.calls, s.last, s.failed)
  }

  /** The calls take the kernel from k to k', each permitted. */
  predicate Leads(k: C.Kernel, tr: Log, k': C.Kernel)
    decreases |tr|
  {
    if tr == [] then k' == k
    else C.Permits(k, tr[0].t, tr[0].a) && Leads(C.Effect(k, tr[0].t, tr[0].a), tr[1..], k')
  }

  /** One, two or three calls of one thread. */
  lemma LeadsBy(k: C.Kernel, id: nat, cs: seq<C.Call>, k': C.Kernel)
    requires 1 <= |cs| <= 3 && C.Permits(k, id, cs[0])
    requires var k1 := C.Effect(k, id, cs[0]);
             if |cs| == 1 then k1 == k'
             else
               && C.Permits(k1, id, cs[1])
               && var k2 := C.Effect(k1, id, cs[1]);
                  if |cs| == 2 then k2 == k' else C.Permits(k2, id, cs[2]) && C.Effect(k2, id, cs[2]) == k'
    ensures Leads(k, Tagged(id, cs), k')
  {
    hide C.Permits, C.Effect, Leads;
    var k1 := C.Effect(k, id, cs[0]);
    if |cs| == 1 {
      LeadsNowhere(k');
      LeadsFirst(k, id, cs, k');
    } else {
      var k2 := C.Effect(k1, id, cs[1]);
      if |cs| == 2 {
        LeadsNowhere(k');
      } else {
        LeadsNowhere(k');
        LeadsFirst(k2, id, cs[1..][1..], k');
      }
      LeadsFirst(k1, id, cs[1..], k');
      LeadsFirst(k, id, cs, k');
    }
  }

  lemma LeadsNowhere(k: C.Kernel)
    ensures Leads(k, [], k)
  {
  }

  lemma LeadsFirst(k: C.Kernel, id: nat, cs: seq<C.Call>, k': C.Kernel)
    requires cs != [] && C.Permits(k, id, cs[0]) && Leads(C.Effect(k, id, cs[0]), Tagged(id, cs[1..]), k')
    ensures Leads(k, Tagged(id, cs), k')
  {
    hide C.Permits, C.Effect;
    assert Tagged(id, cs)[1..] == Tagged(id, cs[1..]);
  }

  function With(a: set<nat>, x: nat, member: bool): set<nat> {
    if member then a + {x} else a - {x}
  }

  /** Only x changes its place in the queues. */
  predicate Apart(s: State, s': State, x: nat) {
    && |s'.ws| == |s.ws|
    && forall y :: 0 <= y < |s.ws| + 2 && y != x ==> InF1(s', y) == InF1(s, y) && Queued(s', y) == Queued(s, y)
  }

  lemma QueuesFollow(s: State, s': State, x: nat)
    requires Apart(s, s', x) && x < |s.ws| + 2
    ensures OnF1Set(s') == With(OnF1Set(s), x, InF1(s', x))
    ensures QueuedSet(s') == With(QueuedSet(s), x, Queued(s', x))
  {
    forall y: nat
      ensures y in OnF1Set(s') <==> y in With(OnF1Set(s), x, InF1(s', x))
      ensures y in QueuedSet(s') <==> y in With(QueuedSet(s), x, Queued(s', x))
    {
      InQueues(s, y);
      InQueues(s', y);
    }
  }

  lemma InQueues(s: State, x: nat)
    ensures x in OnF1Set(s) <==> InF1(s, x)
    ensures x in QueuedSet(s) <==> x < |s.ws| + 2 && Queued(s, x)
  {
  }

  lemma WaiterApart(s: State, s': State, t: nat)
    requires t < |s.ws| == |s'.ws| && s'.ws == s.ws[t := s'.ws[t]] && s'.waker == s.waker && s'.blocker == s.blocker
    ensures Apart(s, s', t)
  {
  }

  lemma OthersApart(s: State, s': State, x: nat)
    requires s'.ws == s.ws && (x == |s.ws| || s'.waker == s.waker) && (x == |s.ws| + 1 || s'.blocker == s.blocker)
    ensures Apart(s, s', x)
  {
  }

  /** Becoming the owner of f2. */
  lemma TakeLeads(s: State, id: nat)
    requires id < |s.ws| + 2 && (id == |s.ws| + 1 ==> s.blocker.pc != BAsleep)
    ensures KernelOf(Take(s, id)) == C.Owned(KernelOf(s), id)
  {
    var s' := Take(s, id);
    if id < |s.ws| {
      WaiterApart(s, s', id);
    } else {
      OthersApart(s, s', id);
    }
    QueuesFollow(s, s', id);
    assert !InF1(s', id) && !Queued(s', id);
    hide OnF1Set, QueuedSet;
  }

  lemma ReleaseLeads(s: State, me: nat, heir: Heir)
    requires s.owner == By(me) && (heir.To? ==> heir.id < |s.ws| + 2 && Queued(s, heir.id))
    ensures KernelOf(Release(s, me, heir)) ==
            if heir.To? then C.Owned(KernelOf(s), heir.id) else KernelOf(s).(owner := Free)
  {
    if heir.To? {
      TakeLeads(s, heir.id);
    } else {
      assert OnF1Set(Release(s, me, heir)) == OnF1Set(s);
      assert QueuedSet(Release(s, me, heir)) == QueuedSet(s);
    }
  }

  /** A thread that is not blocked is on no queue. */
  lemma NotBlocked(s: State, x: nat)
    requires !InF1(s, x) && (x < |s.ws| + 2 ==> !Queued(s, x))
    ensures C.Up(KernelOf(s), x)
  {
    InQueues(s, x);
  }

  lemma WaiterRunLeads(s: State, t: nat)
    requires Inv(s) && CanRun(s, t)
    ensures Leads(KernelOf(s), Tagged(t, WaiterCalls(s, t)), KernelOf(RunWaiter(s, t)))
  {
    var k, cs, s' := KernelOf(s), WaiterCalls(s, t), RunWaiter(s, t);
    NotBlocked(s, t);
    assert Believes(s, t) <==> s.owner == By(t);
    if s.ws[t].pc == Relock && s.owner == Free {
      TakeLeads(s, t);
    } else {
      WaiterStep(s, t);
      WaiterApart(s, s', t);
      QueuesFollow(s, s', t);
    }
    hide Inv, OnF1Set, QueuedSet, Leads;
    WaiterRunStep(s, t);
    LeadsBy(k, t, cs, KernelOf(s'));
  }

  lemma WaiterRunStep(s: State, t: nat)
    requires Modes(s) && CanRun(s, t) && C.Up(KernelOf(s), t) && (WOwns(s.ws[t]) <==> s.owner == By(t))
    requires var s' := RunWaiter(s, t);
             if s.ws[t].pc == Relock && s.owner == Free then KernelOf(s') == C.Owned(KernelOf(s), t)
             else
               && OnF1Set(s') == With(OnF1Set(s), t, InF1(s', t))
               && QueuedSet(s') == With(QueuedSet(s), t, Queued(s', t))
    ensures var (k, cs) := (KernelOf(s), WaiterCalls(s, t));
            && |cs| == 1 && C.Permits(k, t, cs[0])
            && C.Effect(k, t, cs[0]) == KernelOf(RunWaiter(s, t))
  {
    hide OnF1Set, QueuedSet, WakerMode;
    var k := KernelOf(s);
    assert k.onF1 - {t} == k.onF1 && k.onF2 - {t} == k.onF2;
  }

  lemma WaiterFailLeads(s: State, t: nat, timedOut: bool)
    requires Inv(s) && Enabled(s, WaiterFails(t, timedOut))
    ensures Leads(KernelOf(s), Tagged(t, FailCalls(s.ws[t], timedOut)), KernelOf(Apply(s, WaiterFails(t, timedOut))))
  {
    var s', k, cs := Apply(s, WaiterFails(t, timedOut)), KernelOf(s), FailCalls(s.ws[t], timedOut);
    assert Believes(s, t) <==> s.owner == By(t);
    WaiterApart(s, s', t);
    QueuesFollow(s, s', t);
    InQueues(s, t);
    assert s.ws[t].pc == Calling ==> s.ws[t].oldVal == s.f1;
    hide Inv, OnF1Set, QueuedSet, Leads;
    assert s.ws[t].pc == Calling ==> k.onF1 + {t} - {t} == k.onF1 - {t};
    assert cs == if s.ws[t].pc == Calling then [C.WaitCall(s.f1), cs[1]] else [cs[0]];
    LeadsBy(k, t, cs, KernelOf(s'));
  }

  /** A step that changes no queue, counter, owner or history. */
  lemma Unmoved(s: State, s': State, x: nat)
    requires Apart(s, s', x) && x < |s.ws| + 2 && InF1(s', x) == InF1(s, x) && Queued(s', x) == Queued(s, x)
    requires s'.f1 == s.f1 && s'.owner == s.owner && SameCounters(s, s') && s'.owned == s.owned
    requires s'.moved == s.moved && s'.calls == s.calls && s'.last == s.last && s'.failed == s.failed
    requires (s'.blocker.pc == BAsleep) == (s.blocker.pc == BAsleep)
    ensures KernelOf(s') == KernelOf(s)
  {
    QueuesFollow(s, s', x);
    InQueues(s, x);
    hide OnF1Set, QueuedSet;
  }

  /** futex_unlock_pi by the owner, whose position has been advanced. */
  lemma UnlockPermitted(s: State, s1: State, me: nat, heir: Heir)
    requires s.owner == By(me) && HeirOk(s, me, heir) && KernelOf(s1) == KernelOf(s) && |s1.ws| == |s.ws|
    requires me < |s.ws| + 2 && !InF1(s, me) && !Queued(s, me) && !InF1(s1, me) && !Queued(s1, me)
    ensures var (k, c) := (KernelOf(s), C.UnlockPi(heir));
            && C.Permits(k, me, c) && C.Effect(k, me, c) == KernelOf(Release(s1, me, heir))
            && C.Permits(C.Effect(k, me, c), me, C.Exits(0))
  {
    NotBlocked(s, me);
    if heir.To? {
      InQueues(s, heir.id);
      InQueues(s1, heir.id);
    } else {
      assert QueuedSet(s) == {};
    }
    hide OnF1Set, QueuedSet;
    ReleaseLeads(s1, me, heir);
    hide Release;
  }

  lemma WaiterUnlockLeads(s: State, t: nat, heir: Heir)
    requires Inv(s) && Enabled(s, WaiterUnlocks(t, heir))
    ensures var e := WaiterUnlocks(t, heir);
            Leads(KernelOf(s), Tagged(t, Calls(s, e)), KernelOf(Apply(s, e)))
  {
    hide Release, Leads, Counts, WakerInv, SpinInv, ResultsInv;
    var s1 := SetPc(s, t, Exit);
    assert Believes(s, t) <==> s.owner == By(t);
    WaiterApart(s, s1, t);
    Unmoved(s, s1, t);
    UnlockPermitted(s, s1, t, heir);
    LeadsBy(KernelOf(s), t, Calls(s, WaiterUnlocks(t, heir)), KernelOf(Release(s1, t, heir)));
  }

  lemma WakerRunLeads(s: State)
    requires Inv(s) && CanWake(s) && s.waker.pc != WakeDone
    ensures Leads(KernelOf(s), Tagged(|s.ws|, WakerCalls(s)), KernelOf(RunWaker(s)))
  {
    hide Leads, Counts, WakerInv, SpinInv, ResultsInv;
    var s', n, k, cs := RunWaker(s), |s.ws|, KernelOf(s), WakerCalls(s);
    assert Believes(s, n) <==> s.owner == By(n);
    NotBlocked(s, n);
    if s.waker.pc == KLock {
      if s.owner == Free {
        TakeLeads(s, n);
      } else {
        OthersApart(s, s', n);
        QueuesFollow(s, s', n);
        assert k.onF1 - {n} == k.onF1;
      }
      hide OnF1Set, QueuedSet;
      LeadsBy(k, n, cs, KernelOf(s'));
    } else {
      OthersApart(s, s', n);
      Unmoved(s, s', n);
      if cs == [] {
        LeadsNowhere(k);
      } else {
        LeadsBy(k, n, cs, KernelOf(s'));
      }
    }
  }

  /** The wake of wake_complete, and the return of a third party asleep there. */
  lemma WakeLeads(s: State)
    requires Inv(s) && s.waker.pc == WakeDone
    ensures Leads(KernelOf(s), Emits(s, WakerRuns), KernelOf(RunWaker(s)))
  {
    hide Leads, Modes, Counts, WakerInv, SpinInv, ResultsInv, KernelOf, C.Permits, C.Effect;
    assert Believes(s, |s.ws|) <==> s.owner == By(|s.ws|);
    var k, n, cs, k1 := KernelOf(s), |s.ws|, WakerCalls(s), KernelOf(RunWaker(s));
    WakeSteps(s);
    if s.blocker.pc == BAsleep {
      if cs[1..] == [] {
        LeadsNowhere(k1);
      } else {
        LeadsBy(k1, n, cs[1..], k1);
      }
      WakeBack(k, n, cs[1..], k1);
    } else {
      LeadsBy(k, n, cs, k1);
    }
  }

  /** The calls of the wake and what they do to the kernel. */
  lemma WakeSteps(s: State)
    requires s.waker.pc == WakeDone && (KOwns(s.cfg, s.waker.pc) <==> s.owner == By(|s.ws|))
    ensures var (k, k1, cs, n) := (KernelOf(s), KernelOf(RunWaker(s)), WakerCalls(s), |s.ws|);
            && C.Up(k, n) && 1 <= |cs| <= 2 && cs[0] == C.WakeComplete
            && C.Permits(k, n, cs[0]) && (k.third == C.Asleep <==> s.blocker.pc == BAsleep)
            && k1 == k.(third := C.Elsewhere) && (s.blocker.pc != BAsleep ==> k1 == C.Effect(k, n, cs[0]))
            && (|cs| == 2 ==> C.Permits(k1, n, cs[1]) && C.Effect(k1, n, cs[1]) == k1)
  {
    var s', n := RunWaker(s), |s.ws|;
    NotBlocked(s, n);
    var s1 := s.(waker := s'.waker);
    OthersApart(s, s1, n);
    Unmoved(s, s1, n);
    if s.blocker.pc == BAsleep {
      ThirdBack(s1, s');
    } else {
      assert s' == s1;
    }
    hide OnF1Set, QueuedSet;
  }

  lemma ThirdBack(s: State, s': State)
    requires s.blocker.pc == BAsleep && s' == s.(blocker := s.blocker.(pc := BUnlock, ret := 0))
    ensures KernelOf(s).third == C.Asleep && KernelOf(s') == KernelOf(s).(third := C.Elsewhere)
  {
    OthersApart(s, s', |s.ws| + 1);
    QueuesFollow(s, s', |s.ws| + 1);
    InQueues(s, |s.ws| + 1);
    hide OnF1Set, QueuedSet;
  }

  lemma WakeBack(k: C.Kernel, n: nat, cs: seq<C.Call>, k': C.Kernel)
    requires C.Up(k, n) && k.third == C.Asleep && Leads(k.(third := C.Elsewhere), Tagged(n, cs), k')
    ensures Leads(k, [Did(n, C.WakeComplete), Did(n + 1, C.CompleteBack(0))] + Tagged(n, cs), k')
  {
    var a, b, tr := Did(n, C.WakeComplete), Did(n + 1, C.CompleteBack(0)), Tagged(n, cs);
    assert ([a, b] + tr)[0] == a && ([a, b] + tr)[1..] == [b] + tr && ([b] + tr)[0] == b && ([b] + tr)[1..] == tr;
    assert Leads(k.(third := C.Woken), [b] + tr, k');
  }

  lemma ToF2Queues(s: State, rest: set<nat>)
    requires forall t <- rest :: InF1(s, t)
    ensures OnF1Set(ToF2(s, rest)) == OnF1Set(s) - rest && QueuedSet(ToF2(s, rest)) == QueuedSet(s) + rest
  {
    var s' := ToF2(s, rest);
    forall y: nat
      ensures y in OnF1Set(s') <==> y in OnF1Set(s) - rest
      ensures y in QueuedSet(s') <==> y in QueuedSet(s) + rest
    {
      InQueues(s, y);
      InQueues(s', y);
      assert y in rest ==> InF1(s, y);
    }
  }

  /** Taking waiters off f1. */
  lemma MovedLeads(s: State, first: Heir, rest: set<nat>)
    requires (forall t <- rest :: InF1(s, t)) && (first.To? ==> InF1(s, first.id) && first.id !in rest)
    ensures var k := KernelOf(s);
            var k1 := k.(onF1 := k.onF1 - rest, onF2 := k.onF2 + rest, moved := k.moved + Taken(first, rest));
            KernelOf(Moved(s, first, rest)) == if first.To? then C.Owned(k1, first.id) else k1
  {
    var s1 := ToF2(s, rest).(moved := s.moved + Taken(first, rest));
    ToF2Queues(s, rest);
    assert OnF1Set(s1) == OnF1Set(ToF2(s, rest)) && QueuedSet(s1) == QueuedSet(ToF2(s, rest));
    hide OnF1Set, QueuedSet, Taken;
    if first.To? {
      TakeLeads(s1, first.id);
    }
    hide Take;
  }

  /** What follows the call changes nothing but the waker's own variables. */
  lemma RequeueKernel(s: State, first: Heir, rest: set<nat>, ok: bool)
    requires s.waker.pc == Requeue && (first.To? ==> first.id < |s.ws|)
    ensures var s1 := Moved(s, first, rest);
            KernelOf(RunRequeue(s, first, rest, ok)) ==
            KernelOf(s1).(calls := KernelOf(s).calls + 1, last := |Taken(first, rest)|,
                          failed := KernelOf(s).failed || !ok)
  {
    hide Take, Moved, Taken;
    var s1, s' := Moved(s, first, rest), RunRequeue(s, first, rest, ok);
    OthersApart(s1, s', |s.ws|);
    QueuesFollow(s1, s', |s.ws|);
    InQueues(s1, |s.ws|);
    hide OnF1Set, QueuedSet;
  }

  lemma RequeueLeads(s: State, first: Heir, rest: set<nat>, ok: bool)
    requires Inv(s) && RequeueOk(s, first, rest, ok)
    ensures var e := WakerRequeues(first, rest, ok);
            Leads(KernelOf(s), Tagged(|s.ws|, Calls(s, e)), KernelOf(RunRequeue(s, first, rest, ok)))
  {
    hide Leads, Inv, RunRequeue, RequeueOk, KernelOf, C.Permits, C.Effect, Taken;
    var c := C.CmpRequeue(s.waker.oldVal, NrRequeue(s.cfg), first, rest, if ok then |Taken(first, rest)| else -1);
    RequeuePermitted(s, first, rest, ok);
    RequeueEffect(s, first, rest, ok);
    LeadsBy(KernelOf(s), |s.ws|, [c], KernelOf(RunRequeue(s, first, rest, ok)));
  }

  lemma RequeuePermitted(s: State, first: Heir, rest: set<nat>, ok: bool)
    requires RequeueOk(s, first, rest, ok)
    ensures C.Permits(KernelOf(s), |s.ws|, C.CmpRequeue(s.waker.oldVal, NrRequeue(s.cfg), first, rest,
                                                        if ok then |Taken(first, rest)| else -1))
  {
    hide OnF1Set, QueuedSet, Taken;
    NotBlocked(s, |s.ws|);
    forall t <- rest ensures t in KernelOf(s).onF1 {
      InQueues(s, t);
    }
    if first.To? {
      InQueues(s, first.id);
    }
  }

  lemma EffectOfRequeue(k: C.Kernel, id: nat, c: C.Call)
    requires c.CmpRequeue?
    ensures var k1 := k.(onF1 := k.onF1 - c.rest, onF2 := k.onF2 + c.rest, moved := k.moved + Taken(c.first, c.rest));
            var k2 := if c.first.To? then C.Owned(k1, c.first.id) else k1;
            C.Effect(k, id, c) ==
            k2.(calls := k.calls + 1, last := |Taken(c.first, c.rest)|, failed := k.failed || c.ret < 0)
  {
    hide Taken;
  }

  lemma RequeueEffect(s: State, first: Heir, rest: set<nat>, ok: bool)
    requires RequeueOk(s, first, rest, ok)
    ensures C.Effect(KernelOf(s), |s.ws|, C.CmpRequeue(s.waker.oldVal, NrRequeue(s.cfg), first, rest,
                                                       if ok then |Taken(first, rest)| else -1))
            == KernelOf(RunRequeue(s, first, rest, ok))
  {
    hide KernelOf, Taken, Moved, RunRequeue, C.Effect, C.Owned;
    FirstIsWaiter(s, first, rest, ok);
    MovedLeads(s, first, rest);
    RequeueKernel(s, first, rest, ok);
    var c := C.CmpRequeue(s.waker.oldVal, NrRequeue(s.cfg), first, rest, if ok then |Taken(first, rest)| else -1);
    EffectOfRequeue(KernelOf(s), |s.ws|, c);
    assert c.ret < 0 <==> !ok;
  }

  lemma WakerUnlockLeads(s: State, heir: Heir)
    requires Inv(s) && Enabled(s, WakerUnlocks(heir))
    ensures var e := WakerUnlocks(heir);
            Leads(KernelOf(s), Tagged(|s.ws|, Calls(s, e)), KernelOf(Apply(s, e)))
  {
    hide Release, Leads, Counts, WakerInv, SpinInv, ResultsInv;
    var s1, n := LeaveWaker(s), |s.ws|;
    assert Believes(s, n) <==> s.owner == By(n);
    OthersApart(s, s1, n);
    LeaveKernel(s);
    Unmoved(s, s1, n);
    UnlockPermitted(s, s1, n, heir);
    LeadsBy(KernelOf(s), n, Calls(s, WakerUnlocks(heir)), KernelOf(Release(s1, n, heir)));
  }

  lemma LeaveKernel(s: State)
    requires s.waker.pc in {KUnlock, FinalUnlock}
    ensures var s1 := LeaveWaker(s);
            && s1.owned == s.owned && s1.calls == s.calls && s1.last == s.last && s1.failed == s.failed
            && s1.waker.pc != KLockWait
  {
  }

  lemma BlockerLeads(s: State, e: Event)
    requires Inv(s) && Enabled(s, e) && !ByWaiter(e) && !ByWaker(e)
    ensures Leads(KernelOf(s), Tagged(|s.ws| + 1, Calls(s, e)), KernelOf(Apply(s, e)))
  {
    hide Leads, Inv, Release;
    match e
    case BlockerUnlocks(heir) => BlockerUnlockLeads(s, heir);
    case BlockerRuns => BlockerRunLeads(s);
    case BlockerFails => BlockerFailLeads(s, e);
    case BlockerReturns => BlockerFailLeads(s, e);
  }

  lemma BlockerUnlockLeads(s: State, heir: Heir)
    requires Inv(s) && Enabled(s, BlockerUnlocks(heir))
    ensures var e := BlockerUnlocks(heir);
            Leads(KernelOf(s), Tagged(|s.ws| + 1, Calls(s, e)), KernelOf(Apply(s, e)))
  {
    hide Release, Leads, Counts, WakerInv, SpinInv, ResultsInv;
    var s1, n := LeaveBlocker(s), |s.ws| + 1;
    assert Believes(s, n) <==> s.owner == By(n);
    OthersApart(s, s1, n);
    Unmoved(s, s1, n);
    UnlockPermitted(s, s1, n, heir);
    LeadsBy(KernelOf(s), n, Calls(s, BlockerUnlocks(heir)), KernelOf(Release(s1, n, heir)));
  }

  lemma BlockerRunLeads(s: State)
    requires Inv(s) && s.blocker.pc in {BLock, BWait}
    ensures Leads(KernelOf(s), Tagged(|s.ws| + 1, Calls(s, BlockerRuns)), KernelOf(RunBlocker(s)))
  {
    hide Leads, Counts, WakerInv, SpinInv, ResultsInv;
    var s', n, k, cs := RunBlocker(s), |s.ws| + 1, KernelOf(s), Calls(s, BlockerRuns);
    assert Believes(s, n) <==> s.owner == By(n);
    NotBlocked(s, n);
    if s.blocker.pc == BLock && s.owner == Free {
      TakeLeads(s, n);
    } else {
      OthersApart(s, s', n);
      QueuesFollow(s, s', n);
      assert k.onF1 - {n} == k.onF1 && k.onF2 - {n} == k.onF2;
    }
    hide OnF1Set, QueuedSet;
    LeadsBy(k, n, cs, KernelOf(s'));
  }

  lemma BlockerFailLeads(s: State, e: Event)
    requires Inv(s) && Enabled(s, e) && e in {BlockerFails, BlockerReturns}
    ensures Leads(KernelOf(s), Tagged(|s.ws| + 1, Calls(s, e)), KernelOf(Apply(s, e)))
  {
    hide Leads, Modes, Counts, WakerInv, SpinInv, ResultsInv, KernelOf, C.Permits, C.Effect;
    BlockerUnlockOwns(s);
    BlockerFailSteps(s, e);
    LeadsBy(KernelOf(s), |s.ws| + 1, Calls(s, e), KernelOf(Apply(s, e)));
  }

  lemma BlockerFailSteps(s: State, e: Event)
    requires Enabled(s, e) && e in {BlockerFails, BlockerReturns}
    requires BOwns(s.blocker.pc) <==> s.owner == By(|s.ws| + 1)
    ensures var (n, k, cs, k') := (|s.ws| + 1, KernelOf(s), Calls(s, e), KernelOf(Apply(s, e)));
            && 1 <= |cs| <= 2 && C.Permits(k, n, cs[0])
            && var k1 := C.Effect(k, n, cs[0]);
               if |cs| == 1 then k1 == k' else C.Permits(k1, n, cs[1]) && C.Effect(k1, n, cs[1]) == k'
  {
    var s', n, k := Apply(s, e), |s.ws| + 1, KernelOf(s);
    InQueues(s, n);
    OthersApart(s, s', n);
    QueuesFollow(s, s', n);
    hide OnF1Set, QueuedSet;
    assert k.onF1 - {n} == k.onF1;
  }

  /** Each event is a sequence of permitted calls. */
  lemma EventLeads(s: State, e: Event)
    requires Inv(s) && Enabled(s, e)
    ensures Leads(KernelOf(s), Emits(s, e), KernelOf(Apply(s, e)))
  {
    hide Inv, Leads, KernelOf, RunWaiter, RunRequeue, Release, RunBlocker;
    match e
    case WaiterRuns(t) => WaiterRunLeads(s, t);
    case WaiterFails(t, timedOut) => WaiterFailLeads(s, t, timedOut);
    case WaiterUnlocks(t, heir) => WaiterUnlockLeads(s, t, heir);
    case WakerRuns =>
      if s.waker.pc == WakeDone {
        WakeLeads(s);
      } else {
        WakerRunLeads(s);
      }
    case WakerRequeues(first, rest, ok) => RequeueLeads(s, first, rest, ok);
    case WakerUnlocks(heir) => WakerUnlockLeads(s, heir);
    case BlockerRuns => BlockerLeads(s, e);
    case BlockerReturns => BlockerLeads(s, e);
    case BlockerFails => BlockerLeads(s, e);
    case BlockerUnlocks(_) => BlockerLeads(s, e);
  }

  lemma {:induction false} LeadsConcat(k: C.Kernel, a: Log, k1: C.Kernel, b: Log, k2: C.Kernel)
    requires Leads(k, a, k1) && Leads(k1, b, k2)
    ensures Leads(k, a + b, k2)
    decreases |a|
  {
    hide C.Permits, C.Effect;
    if a == [] {
      assert a + b == b;
    } else {
      LeadsConcat(C.Effect(k, a[0].t, a[0].a), a[1..], k1, b, k2);
      assert (a + b)[0] == a[0] && (a + b)[1..] == a[1..] + b;
    }
  }

  lemma {:induction false} RunLeads(s: State, es: seq<Event>)
    requires Inv(s) && Valid(s, es)
    ensures Leads(KernelOf(s), Trace(s, es), KernelOf(Exec(s, es)))
    decreases |es|
  {
    hide Inv, Apply, Enabled, Emits, Leads, KernelOf;
    if es == [] {
      LeadsNowhere(KernelOf(s));
    } else {
      var s' := Apply(s, es[0]);
      InvKept(s, es[0]);
      EventLeads(s, es[0]);
      RunLeads(s', es[1..]);
      LeadsConcat(KernelOf(s), Emits(s, es[0]), KernelOf(s'), Trace(s', es[1..]), KernelOf(Exec(s, es)));
    }
  }

  /** The kernel before any call. */
  function Idle(f1: u32): C.Kernel {
    C.Kernel(f1, {}, Free, {}, 0, 0, C.Elsewhere, {}, {}, 0, 0, false)
  }

  /** The model is the code, on every run: each waiter does what waiterfn does, the waker what
      broadcast_wakerfn or signal_wakerfn does, the third party what third_party_blocker does, up to
      some point or, if it has exited, to the end, with the result it exits with. All their calls, in
      this order, are calls the kernel permits and take it from its start to the state reached,
      histories included. */
  lemma ProgramOrder(s0: State, cfg: Config, es: seq<Event>, s: State)
    requires Init(s0, cfg) && Valid(s0, es) && s == Exec(s0, es)
    ensures Leads(Idle(s0.f1), Trace(s0, es), KernelOf(s))
    ensures forall x :: 0 <= x <= cfg.n + 1 ==> Code(cfg, x, LogOf(Trace(s0, es), x), Ended(s, x))
  {
    hide Init, Inv, Valid, Exec, Trace, Leads, Ahead, Ended, KernelOf;
    InitInv(s0, cfg);
    StartKernel(s0, cfg);
    RunLeads(s0, es);
    forall x | 0 <= x <= cfg.n + 1 ensures Code(cfg, x, LogOf(Trace(s0, es), x), Ended(s, x)) {
      RunAhead(s0, es, x);
      StartAhead(s0, cfg, x, LogOf(Trace(s0, es), x), Ended(s, x));
    }
  }

  /** The code of thread x: waiters first, then the waker, then the third party, if there is one. */
  predicate Code(cfg: Config, x: nat, log: seq<C.Call>, done: bool) {
    if x < cfg.n then C.WaiterCode(cfg.timed, log, done)
    else if x == cfg.n && cfg.broadcast then C.BroadcastCode(cfg, 0, 0, log, done)
    else if x == cfg.n then C.SignalCode(cfg, 0, 0, 0, log, done)
    else if cfg.third then C.ThirdCode(log, done)
    else log == [] && !done
  }

  lemma StartAhead(s0: State, cfg: Config, x: nat, log: seq<C.Call>, done: bool)
    requires Init(s0, cfg) && x <= cfg.n + 1 && Ahead(s0, x, log, done)
    ensures Code(cfg, x, log, done)
  {
  }

  lemma StartKernel(s0: State, cfg: Config)
    requires Init(s0, cfg)
    ensures KernelOf(s0) == Idle(s0.f1) && |s0.ws| == cfg.n
  {
    assert OnF1Set(s0) == {} && QueuedSet(s0) == {};
  }

  // ---------------------------------------------------------------- f2 at the end

  predicate HoldersRecorded(s: State) {
    && (s.owner.By? ==> s.owner.id in s.owned)
    && forall t :: 0 <= t < |s.ws| && s.ws[t].pc == Exit ==> t in s.owned
  }

  lemma HoldersRecordedKept(s: State, e: Event)
    requires Ownership(s) && HoldersRecorded(s) && Enabled(s, e)
    ensures HoldersRecorded(Apply(s, e))
  {
    var s' := Apply(s, e);
    HolderRecorded(s, e);
    hide Apply;
    forall t | 0 <= t < |s.ws| && s'.ws[t].pc == Exit ensures t in s'.owned {
      if ByWaiter(e) && e.t == t {
        assert Believes(s, t) <==> s.owner == By(t);
        ExitsByUnlock(s, e);
      } else {
        OthersPush(s, e, t);
      }
    }
  }

  /** The owner stays recorded, or a new one is. */
  predicate Follows(s: State, s': State) {
    s.owned <= s'.owned && (s'.owner.By? ==> s'.owner == s.owner || s'.owner.id in s'.owned)
  }

  lemma ReleaseFollows(s: State, me: nat, heir: Heir)
    ensures Follows(s, Release(s, me, heir))
  {
    hide Take;
  }

  lemma RequeueFollows(s: State, first: Heir, rest: set<nat>, ok: bool)
    ensures Follows(s, RunRequeue(s, first, rest, ok))
  {
    hide Take, Taken;
  }

  lemma HolderRecorded(s: State, e: Event)
    requires Enabled(s, e) && (s.owner.By? ==> s.owner.id in s.owned)
    ensures var s' := Apply(s, e); s.owned <= s'.owned && (s'.owner.By? ==> s'.owner.id in s'.owned)
  {
    hide Take, Release, RunRequeue, RequeueOk, HeirOk;
    match e
    case WaiterUnlocks(t, heir) => ReleaseFollows(SetPc(s, t, Exit), t, heir);
    case WakerUnlocks(heir) => ReleaseFollows(LeaveWaker(s), |s.ws|, heir);
    case BlockerUnlocks(heir) => ReleaseFollows(LeaveBlocker(s), |s.ws| + 1, heir);
    case WakerRequeues(first, rest, ok) => RequeueFollows(s, first, rest, ok);
    case WaiterRuns(_) =>
    case WaiterFails(_, _) =>
    case WakerRuns =>
    case BlockerRuns =>
    case BlockerReturns =>
    case BlockerFails =>
  }

  lemma ExitsByUnlock(s: State, e: Event)
    requires Enabled(s, e) && ByWaiter(e)
    ensures Apply(s, e).ws[e.t].pc == Exit ==> s.ws[e.t].pc == Unlock
  {
  }

  lemma {:induction false} HoldersRecordedOnRuns(s: State, es: seq<Event>)
    requires Inv(s) && HoldersRecorded(s) && Valid(s, es)
    ensures Inv(Exec(s, es)) && HoldersRecorded(Exec(s, es))
    decreases |es|
  {
    if es != [] {
      InvKept(s, es[0]);
      HoldersRecordedKept(s, es[0]);
      HoldersRecordedOnRuns(Apply(s, es[0]), es[1..]);
    }
  }

  /** A waiter that has exited has held f2 and has given it back, also when its wait failed. */
  lemma ExitedHeldF2(s0: State, cfg: Config, es: seq<Event>, s: State, t: nat)
    requires Init(s0, cfg) && Valid(s0, es) && s == Exec(s0, es) && t < cfg.n && s.ws[t].pc == Exit
    ensures t in s.owned && s.owner != By(t)
  {
    InitInv(s0, cfg);
    HoldersRecordedOnRuns(s0, es);
    hide Counts, WakerInv, ResultsInv, Valid;
    assert Believes(s, t) <==> s.owner == By(t);
  }

  // ---------------------------------------------------------------- nothing is missing

  lemma WaiterPossible(s: State, t: nat, c: C.Call) returns (e: Event)
    requires Inv(s) && t < |s.ws| && WaiterAhead(s.cfg, s.ws[t], [c], false) && C.Permits(KernelOf(s), t, c)
    ensures Enabled(s, e) && OwnCalls(s, e, t) != [] && OwnCalls(s, e, t)[0] == c
  {
    InQueues(s, t);
    assert Believes(s, t) <==> s.owner == By(t);
    hide Inv;
    match s.ws[t].pc
    case Unlock =>
      HeirPossible(s, t, c.heir);
      e := WaiterUnlocks(t, c.heir);
    case OnF1 => e := WaiterFails(t, c.errno == TimedOut);
    case OnF2 => e := WaiterFails(t, c.errno == TimedOut);
    case Granted => e := WaiterRuns(t);
    case Start => e := WaiterRuns(t);
    case Marking => e := WaiterRuns(t);
    case Calling => e := WaiterRuns(t);
    case Woke => e := WaiterRuns(t);
    case Relock => e := WaiterRuns(t);
  }

  lemma HeirPossible(s: State, me: nat, heir: Heir)
    requires s.owner == By(me) && if heir.To? then heir.id in QueuedSet(s) else QueuedSet(s) == {}
    ensures HeirOk(s, me, heir)
  {
    if heir.To? {
      InQueues(s, heir.id);
    } else {
      forall id | 0 <= id < |s.ws| + 2 ensures !Queued(s, id) {
        InQueues(s, id);
      }
    }
  }

  lemma RequeueAllowed(s: State, c: C.Call)
    requires s.waker.pc == Requeue && c.CmpRequeue? && c.value == s.waker.oldVal && c.nrRequeue == NrRequeue(s.cfg)
    requires C.Permits(KernelOf(s), |s.ws|, c)
    ensures RequeueOk(s, c.first, c.rest, c.ret >= 0)
    ensures c.ret == if c.ret >= 0 then |Taken(c.first, c.rest)| else -1
  {
    hide OnF1Set, QueuedSet, Taken;
    forall t <- c.rest ensures InF1(s, t) {
      InQueues(s, t);
    }
    if c.first.To? {
      InQueues(s, c.first.id);
    }
  }

  lemma RequeuePossible(s: State, c: C.Call) returns (e: Event)
    requires s.waker.pc == Requeue && WakerAhead(s.cfg, s.waker, [c], false) && C.Permits(KernelOf(s), |s.ws|, c)
    ensures Enabled(s, e) && Actor(s, e) == |s.ws| && Calls(s, e) == [c]
  {
    hide C.Permits, RequeueOk, KernelOf;
    RequeueAllowed(s, c);
    e := WakerRequeues(c.first, c.rest, c.ret >= 0);
    hide WakerAhead;
  }

  lemma WakerUnlockPossible(s: State, c: C.Call) returns (e: Event)
    requires s.waker.pc in {KUnlock, FinalUnlock} && WakerAhead(s.cfg, s.waker, [c], false)
    requires C.Permits(KernelOf(s), |s.ws|, c)
    ensures Enabled(s, e) && Actor(s, e) == |s.ws| && Calls(s, e) != [] && Calls(s, e)[0] == c
  {
    hide Apply, QueuedSet, OnF1Set;
    HeirPossible(s, |s.ws|, c.heir);
    e := WakerUnlocks(c.heir);
    hide WakerAhead;
  }

  lemma WakerRunPossible(s: State, c: C.Call)
    requires WakerMode(s) && s.waker.pc !in {Requeue, KUnlock, FinalUnlock} && WakerAhead(s.cfg, s.waker, [c], false)
    requires C.Permits(KernelOf(s), |s.ws|, c)
    ensures CanWake(s)
    ensures if WakerCalls(s) == [] then s.waker.pc == LoopTest && s.waker.task >= s.cfg.n else WakerCalls(s)[0] == c
  {
    InQueues(s, |s.ws|);
    hide OnF1Set, QueuedSet, RunWaker;
  }

  lemma WakerPossible(s: State, c: C.Call) returns (e: Event)
    requires WakerMode(s) && WakerAhead(s.cfg, s.waker, [c], false) && C.Permits(KernelOf(s), |s.ws|, c)
    ensures Enabled(s, e) && Actor(s, e) == |s.ws|
    ensures if Calls(s, e) == [] then e == WakerRuns && s.waker.pc == LoopTest && s.waker.task >= s.cfg.n
            else Calls(s, e)[0] == c
  {
    hide WakerAhead, C.Permits, KernelOf, WakerCalls, Apply;
    if s.waker.pc == Requeue {
      e := RequeuePossible(s, c);
    } else if s.waker.pc in {KUnlock, FinalUnlock} {
      e := WakerUnlockPossible(s, c);
    } else {
      WakerRunPossible(s, c);
      e := WakerRuns;
    }
  }

  lemma BlockerPossible(s: State, c: C.Call) returns (e: Event)
    requires Inv(s) && BlockerAhead(s.blocker, [c], false) && C.Permits(KernelOf(s), |s.ws| + 1, c)
    ensures Enabled(s, e) && Actor(s, e) == |s.ws| + 1 && Calls(s, e) != [] && Calls(s, e)[0] == c
  {
    InQueues(s, |s.ws| + 1);
    assert Believes(s, |s.ws| + 1) <==> s.owner == By(|s.ws| + 1);
    hide Inv;
    if c.UnlockPi? {
      HeirPossible(s, |s.ws| + 1, c.heir);
      e := BlockerUnlocks(c.heir);
    } else if c == C.LockFails || c == C.CompleteBack(-1) {
      e := BlockerFails;
    } else if c == C.CompleteBack(0) {
      e := BlockerReturns;
    } else {
      e := BlockerRuns;
    }
  }

  /** The model leaves nothing out: a call that comes next in the code of a thread, with any answer the
      kernel permits, is made by some event, after a loop test that needs no call at most. */
  lemma CallPossible(s: State, x: nat, c: C.Call) returns (e: Event)
    requires Inv(s) && x <= |s.ws| + 1 && Ahead(s, x, [c], false) && C.Permits(KernelOf(s), x, c)
    ensures Enabled(s, e) && (OwnCalls(s, e, x) != [] ==> OwnCalls(s, e, x)[0] == c)
    ensures OwnCalls(s, e, x) == [] ==>
              x == |s.ws| && e == WakerRuns && s.waker.pc == LoopTest && s.waker.task >= s.cfg.n
  {
    hide Ownership, Counts, WakerMode, WakerInv, SpinInv, ResultsInv;
    hide KernelOf, C.Permits, WaiterAhead, WakerAhead, BlockerAhead, Calls, Enabled;
    if x < |s.ws| {
      e := WaiterPossible(s, x, c);
    } else if x == |s.ws| {
      e := WakerPossible(s, c);
    } else {
      e := BlockerPossible(s, c);
    }
  }
}
