/** The end of `unit_test` in futex_requeue_pi.c: joining the waiters and forming the verdict. */
module UnitTest {
  import opened Words
  import opened RequeuePi
  import S = RequeuePiSafety
  import opened RequeuePiRuns
  import D = RequeuePiDrain
  import P = RequeuePiProgram

  /** p is the position of the first nonzero result, or of some result when all are zero. */
  predicate IsFirstError(rets: seq<int>, p: nat) {
    && p < |rets|
    && (forall j :: 0 <= j < p ==> rets[j] == 0)
    && (rets[p] == 0 ==> forall j :: 0 <= j < |rets| ==> rets[j] == 0)
  }

  /** The first nonzero result, or 0. */
  function FirstError(rets: seq<int>): (r: int)
    ensures r == 0 <==> forall j :: 0 <= j < |rets| ==> rets[j] == 0
  {
    if rets == [] then 0 else if rets[0] != 0 then rets[0] else FirstError(rets[1..])
  }

  /** Where the join loop ends is where the first error is. */
  lemma {:induction false} FirstErrorAt(rets: seq<int>, p: nat)
    requires IsFirstError(rets, p)
    ensures rets[p] == FirstError(rets)
    decreases |rets|
  {
    if rets[0] == 0 && p > 0 {
      assert forall j :: 0 <= j < |rets[1..]| ==> rets[1..][j] == rets[j + 1];
      if rets[p] == 0 {
        assert forall j :: 0 <= j < |rets[1..]| ==> rets[1..][j] == 0;
      }
      FirstErrorAt(rets[1..], p - 1);
    }
  }

  lemma {:induction false} FirstErrorOneOf(rets: seq<int>, error: int)
    requires forall j :: 0 <= j < |rets| ==> rets[j] in {0, error}
    ensures FirstError(rets) in {0, error}
  {
    if rets != [] {
      FirstErrorOneOf(rets[1..], error);
    }
  }

  /** The join loop. `waiter_ret` points at args[p].ret. `views[i]` is what args[..].ret holds when
      main evaluates its i-th join call: the results of threads joined before are final, the others,
      args[0].ret at the first call included, may hold anything. */
  method JoinWaiters(rets: seq<int>, views: seq<seq<int>>) returns (p: nat)
    requires 1 <= |rets| == |views|
    requires forall i :: 0 <= i < |views| ==> |views[i]| == |rets|
    requires forall i, j :: 0 <= j < i < |views| ==> views[i][j] == rets[j]
    ensures IsFirstError(rets, p)
  {
    p := 0;
    for i := 0 to |rets|
      invariant p <= i && p < |rets| && (0 < i ==> p < i)
      invariant forall j :: 0 <= j < p ==> rets[j] == 0
      invariant 0 < i && rets[p] == 0 ==> forall j :: 0 <= j < i ==> rets[j] == 0
    {
      if views[i][p] == 0 {
        p := i;
      }
    }
  }

  /** The lines after `out:`. */
  function Verdict(ret: int, waiter: int, waker: int, blocker: int): (r: int)
    ensures r == RET_PASS <==> ret == 0 && waiter == 0 && waker >= 0 && blocker == 0
  {
    if ret != 0 then ret
    else if waiter != 0 then waiter
    else if waker < 0 then waker
    else blocker
  }

  /** unit_test: `ret` is the result of clock_gettime or 0; with a thread missing nothing is joined. */
  method Conclude(ret: int, created: bool, rets: seq<int>, views: seq<seq<int>>, waker: int, blocker: int)
    returns (r: int)
    requires 1 <= |rets| == |views|
    requires forall i :: 0 <= i < |views| ==> |views[i]| == |rets|
    requires forall i, j :: 0 <= j < i < |views| ==> views[i][j] == rets[j]
    ensures r == if created then Verdict(ret, FirstError(rets), waker, blocker) else RET_ERROR
    ensures created && ret != 0 ==> r == ret
    ensures created && ret == 0 ==>
              (r == RET_PASS <==> (forall j :: 0 <= j < |rets| ==> rets[j] == 0) && waker >= 0 && blocker == 0)
    ensures forall p: nat :: created && ret == 0 && IsFirstError(rets, p) && rets[p] != 0 ==> r == rets[p]
    ensures created && ret == 0 && (forall j :: 0 <= j < |rets| ==> rets[j] == 0) ==>
              r == if waker < 0 then waker else blocker
  {
    if !created {
      r := RET_ERROR;
    } else {
      var p := JoinWaiters(rets, views);
      FirstErrorAt(rets, p);
      assert forall q: nat :: IsFirstError(rets, q) && rets[q] != 0 ==> !(q < p) && !(p < q);
      r := Verdict(ret, rets[p], waker, blocker);
    }
  }

  function Results(s: State): seq<int> {
    seq(|s.ws|, t requires 0 <= t < |s.ws| => s.ws[t].ret)
  }

  /** The verdict on a finished run, as `Conclude` forms it after a setup without error. */
  function RunVerdict(s: State): int {
    Verdict(0, FirstError(Results(s)), s.waker.ret, s.blocker.ret)
  }

  /** What a pass means, for every run in which all threads have exited: no wait failed other than by
      a timeout that was asked for, no requeue call failed, no limit was hit, and no call of the
      third party failed. A completed run passes. */
  lemma PassMeans(s0: State, cfg: Config, es: seq<Event>, s: State)
    requires Init(s0, cfg) && Valid(s0, es) && s == Exec(s0, es) && AllExited(s)
    ensures RunVerdict(s) == RET_PASS <==>
              && (forall t :: 0 <= t < cfg.n ==>
                    s.ws[t].errno == NoError || (cfg.timed && s.ws[t].errno == TimedOut))
              && !s.failed && !s.limited && !s.blocker.hurt
    ensures RunVerdict(s) in {RET_PASS, RET_ERROR}
    ensures D.Completed(s) ==> RunVerdict(s) == RET_PASS
  {
    S.InitInv(s0, cfg);
    S.InvOnRuns(s0, es);
    hide Valid, S.Ownership, S.Counts, S.SpinInv;
    var rets := Results(s);
    forall t | 0 <= t < cfg.n
      ensures rets[t] == s.ws[t].ret
      ensures rets[t] in {0, RET_ERROR}
      ensures rets[t] == 0 <==> s.ws[t].errno == NoError || (cfg.timed && s.ws[t].errno == TimedOut)
    {
      assert S.WaiterResult(cfg, s.ws[t]);
    }
    FirstErrorOneOf(rets, RET_ERROR);
  }

  /** unit_test under any scheduler and any kernel: it ends with all threads exited and all results
      final, and its verdict is a pass exactly if no call failed but for timeouts that were asked for,
      and no limit was hit. `s` is the state reached and `es` the run. */
  method RunTest(cfg: Config, f1: u32) returns (r: int, ghost s: State, ghost es: seq<Event>)
    requires 1 <= cfg.n <= INT_MAX && 1 <= cfg.max
    ensures exists s0 :: Init(s0, cfg) && Valid(s0, es) && s == Exec(s0, es)
    ensures AllExited(s) && |s.ws| == cfg.n && |es| <= 10 * cfg.n + 7 * S.CallLimit(cfg) + 23
    ensures r == RET_PASS <==>
              && (forall t :: 0 <= t < cfg.n ==>
                    s.ws[t].errno == NoError || (cfg.timed && s.ws[t].errno == TimedOut))
              && !s.failed && !s.limited && !s.blocker.hurt
    ensures r != RET_PASS ==> r == RET_ERROR
  {
    hide Init, Valid, Exec, S.Inv, AllExited;
    var test := new P.RequeueTest(cfg, f1);
    ghost var s0 := test.View();
    S.InitInv(s0, cfg);
    es := test.RunAll();
    s := test.View();
    RunBounded(s0, cfg, es);
    SizeKept(s0, cfg, es, s);
    var rets := Results(test.View());
    r := Conclude(0, true, rets, seq(|rets|, _ => rets), test.waker.ret, test.blocker.ret);
    PassMeans(s0, cfg, es, s);
  }

  lemma SizeKept(s0: State, cfg: Config, es: seq<Event>, s: State)
    requires Init(s0, cfg) && Valid(s0, es) && s == Exec(s0, es)
    ensures |s.ws| == cfg.n && s.cfg == cfg
  {
  }
}
