/** Whole runs of `locktest`: phase separation, the abort path, and completion with an exact
    count of the critical sections, for every thread count and every schedule. */
module LocktestRuns {
  import opened Words
  import opened Sums
  import opened Locktest
  import M = Mutex
  import R = MutexRuns
  import B = Barrier

  predicate Valid(s: State, es: seq<Event>)
    decreases |es|
  {
    es == [] || (Enabled(s, es[0]) && Valid(Apply(s, es[0]), es[1..]))
  }

  function Exec(s: State, es: seq<Event>): (s': State)
    requires Valid(s, es)
    ensures s'.n == s.n && s'.loops == s.loops && s'.now == s.now + |es|
    decreases |es|
  {
    if es == [] then s else Exec(Apply(s, es[0]), es[1..])
  }

  lemma {:induction false} InvOnRuns(s: State, es: seq<Event>)
    requires Inv(s) && Valid(s, es)
    ensures Inv(Exec(s, es))
    decreases |es|
  {
    if es != [] {
      InvKept(s, es[0]);
      InvOnRuns(Apply(s, es[0]), es[1..]);
    }
  }

  /** A run can be cut anywhere. */
  lemma {:induction false} Cut(s: State, es: seq<Event>, k: nat)
    requires Valid(s, es) && k <= |es|
    ensures Valid(s, es[..k]) && Valid(Exec(s, es[..k]), es[k..])
    ensures Exec(Exec(s, es[..k]), es[k..]) == Exec(s, es)
    decreases |es|
  {
    hide Enabled, Apply;
    if k == 0 {
      assert es[..k] == [] && es[k..] == es;
    } else {
      Cut(Apply(s, es[0]), es[1..], k - 1);
      assert es[..k][1..] == es[1..][..k - 1];
      assert es[1..][k - 1..] == es[k..];
    }
  }

  lemma {:induction false} Extend(s: State, es: seq<Event>, e: Event)
    requires Valid(s, es) && Enabled(Exec(s, es), e)
    ensures Valid(s, es + [e]) && Exec(s, es + [e]) == Apply(Exec(s, es), e)
    decreases |es|
  {
    hide Enabled, Apply;
    if es == [] {
      assert es + [e] == [e];
    } else {
      Extend(Apply(s, es[0]), es[1..], e);
      assert (es + [e])[1..] == es[1..] + [e];
    }
  }

  // ---------------------------------------------------------------- timed phases

  /** No worker touches the mutex before all N have come to the first barrier and `before` has
      been sampled; `after` is sampled only when every worker has done its last unlock. */
  lemma PhasesSeparated(s: State)
    requires Inv(s)
    ensures (exists t :: 0 <= t < s.n && s.mutex.ts[t] != Untouched(s)) ==>
              && s.before.At?
              && forall u :: 0 <= u < s.n ==> s.first.ws[u] != B.Away
    ensures s.after.At? ==>
              && s.mutex.word == 0
              && forall t :: 0 <= t < s.n ==> Tested(s, t) && s.second.ws[t] != B.Away
  {
    B.CountdownExact(s.first);
    B.CountdownExact(s.second);
    if t :| 0 <= t < s.n && s.mutex.ts[t] != Untouched(s) {
      assert WorkerOrder(s, t);
    }
    if s.after.At? {
      forall t | 0 <= t < s.n ensures Tested(s, t) && !M.Awake(s.mutex.ts[t].pc) {
        assert WorkerOrder(s, t);
      }
      M.NeverAllAsleep(s.mutex);
    }
  }

  /** A step of the lock test happens between the two samples. */
  lemma TestIsTimed(s: State, m: M.Event)
    requires Inv(s) && Enabled(s, Lock(m))
    ensures s.before.At? && s.after == Unset
  {
    PhasesSeparated(s);
    assert s.after.At? ==> Tested(s, m.t);
  }

  /** A sample is taken once, and shows the clock of the moment. */
  lemma SampleOnce(s: State, e: Event)
    requires Inv(s) && Enabled(s, e)
    ensures Apply(s, e).before == s.before ||
            (e == Sample && s.before == Unset && s.first.main == B.Ready && Apply(s, e).before == At(s.now))
    ensures Apply(s, e).after == s.after ||
            (e == Sample && s.after == Unset && s.second.main == B.Ready && Apply(s, e).after == At(s.now))
  {
    hide Parts, Order, Stored, Joined;
  }

  lemma {:induction false} SamplesStay(s: State, es: seq<Event>)
    requires Inv(s) && Valid(s, es)
    ensures s.before.At? ==> Exec(s, es).before == s.before
    ensures s.after.At? ==> Exec(s, es).after == s.after
    ensures s.after == Unset && Exec(s, es).after.At? ==> s.now <= Exec(s, es).after.time
    decreases |es|
  {
    if es != [] {
      InvKept(s, es[0]);
      SampleOnce(s, es[0]);
      SamplesStay(Apply(s, es[0]), es[1..]);
      hide Inv, Apply;
    }
  }

  /** Every access to the mutex in a run lies strictly inside the timed interval. */
  lemma TimedInterval(iterations: nat, threads: nat, b0: nat, b1: nat, b2: nat, es: seq<Event>, k: nat)
    requires 1 <= threads <= INT_MAX
    requires Valid(Start(iterations, threads, b0, b1, b2), es) && k < |es| && es[k].Lock?
    ensures var s' := Exec(Start(iterations, threads, b0, b1, b2), es);
            && s'.before.At? && s'.before.time < k
            && (s'.after.At? ==> k < s'.after.time)
  {
    var s := Start(iterations, threads, b0, b1, b2);
    StartInv(iterations, threads, b0, b1, b2);
    Cut(s, es, k);
    var sk := Exec(s, es[..k]);
    InvOnRuns(s, es[..k]);
    assert es[k..][0] == es[k];
    TestIsTimed(sk, es[k].m);
    SamplesStay(sk, es[k..]);
    InvKept(sk, es[k]);
    SamplesStay(Apply(sk, es[k]), es[k..][1..]);
  }

  /** The index of the sample that a run took, counted from s. */
  lemma {:induction false} SampledAt(s: State, es: seq<Event>)
    requires Inv(s) && Valid(s, es)
    ensures var s' := Exec(s, es);
            && (s.before == Unset && s'.before.At? ==> SampleIn(s, es, s'.before.time - s.now, true))
            && (s.after == Unset && s'.after.At? ==> SampleIn(s, es, s'.after.time - s.now, false))
    decreases |es|
  {
    hide Inv, Apply, Enabled, SampleIn;
    if es != [] {
      var s1 := Apply(s, es[0]);
      InvKept(s, es[0]);
      SampleOnce(s, es[0]);
      SampledAt(s1, es[1..]);
      SamplesStay(s1, es[1..]);
      SampleHere(s, es);
      var s' := Exec(s, es);
      if s1.before == Unset && s'.before.At? {
        SampleLater(s, es, s'.before.time - s.now - 1, true);
      }
      if s1.after == Unset && s'.after.At? {
        SampleLater(s, es, s'.after.time - s.now - 1, false);
      }
    }
  }

  /** Event b samples the clock after barrier_wait on the first, respectively second, barrier. */
  predicate SampleIn(s: State, es: seq<Event>, b: int, first: bool)
    requires Valid(s, es)
  {
    && 0 <= b < |es| && es[b] == Sample && Valid(s, es[..b])
    && (if first then Exec(s, es[..b]).first.main else Exec(s, es[..b]).second.main) == B.Ready
  }

  lemma SampleHere(s: State, es: seq<Event>)
    requires Valid(s, es) && es != []
    ensures es[0] == Sample && s.first.main == B.Ready ==> SampleIn(s, es, 0, true)
    ensures es[0] == Sample && s.second.main == B.Ready ==> SampleIn(s, es, 0, false)
  {
    assert es[..0] == [];
  }

  lemma SampleLater(s: State, es: seq<Event>, b: int, first: bool)
    requires Valid(s, es) && es != [] && SampleIn(Apply(s, es[0]), es[1..], b, first)
    ensures SampleIn(s, es, b + 1, first)
  {
    hide Apply, Enabled;
    assert es[..b + 1][1..] == es[1..][..b];
  }

  /** Once counted down, a worker does not count down again. */
  lemma {:induction false} CountsOnce(s: State, es: seq<Event>, t: nat)
    requires Inv(s) && Valid(s, es) && t < s.n
    ensures Inv(Exec(s, es))
    ensures s.first.ws[t] != B.Away ==> Exec(s, es).first.ws[t] != B.Away
    ensures s.second.ws[t] != B.Away ==> Exec(s, es).second.ws[t] != B.Away
    decreases |es|
  {
    if es != [] {
      InvKept(s, es[0]);
      StaysCounted(s, es[0], t);
      CountsOnce(Apply(s, es[0]), es[1..], t);
    }
  }

  lemma StaysCounted(s: State, e: Event, t: nat)
    requires Inv(s) && Enabled(s, e) && t < s.n
    ensures s.first.ws[t] != B.Away ==> Apply(s, e).first.ws[t] != B.Away
    ensures s.second.ws[t] != B.Away ==> Apply(s, e).second.ws[t] != B.Away
  {
    hide Order, MainInv, Stored, Joined, M.Inv, M.Apply, B.Apply, B.Enabled, B.Inv;
    if e.First? {
      NeverAwayAgain(s.first, e.b, t);
    } else if e.Second? {
      NeverAwayAgain(s.second, e.b, t);
    }
  }

  lemma NeverAwayAgain(b: B.State, e: B.Event, t: nat)
    requires B.Enabled(b, e) && t < |b.ws|
    ensures b.ws[t] != B.Away ==> B.Apply(b, e).ws[t] != B.Away
  {
  }

  /** The two clock samples, in every run: `before` is the time of a sample taken after the first
      barrier_wait had returned, when all workers had counted down, so that no countdown of the
      first barrier comes after it; `after` is the same for the second barrier. */
  lemma SampledWhen(iterations: nat, threads: nat, b0: nat, b1: nat, b2: nat, es: seq<Event>, s': State)
    requires 1 <= threads <= INT_MAX
    requires Valid(Start(iterations, threads, b0, b1, b2), es) && s' == Exec(Start(iterations, threads, b0, b1, b2), es)
    ensures var s := Start(iterations, threads, b0, b1, b2);
            && (s'.before.At? ==> SampleIn(s, es, s'.before.time, true) && CountedBy(s, es, s'.before.time, true))
            && (s'.after.At? ==> SampleIn(s, es, s'.after.time, false) && CountedBy(s, es, s'.after.time, false))
  {
    hide Inv, SampleIn, CountedBy, Valid, Exec;
    var s := Start(iterations, threads, b0, b1, b2);
    StartInv(iterations, threads, b0, b1, b2);
    SampledAt(s, es);
    if s'.before.At? {
      AllCounted(s, es, s'.before.time, true);
    }
    if s'.after.At? {
      AllCounted(s, es, s'.after.time, false);
    }
  }

  /** At event b all workers have counted down on the barrier, and no later event does so. */
  ghost predicate CountedBy(s: State, es: seq<Event>, b: nat, first: bool)
    requires Valid(s, es)
  {
    && b <= |es| && Valid(s, es[..b])
    && (forall t :: 0 <= t < s.n ==> !Uncounted(Exec(s, es[..b]), t, first))
    && (forall k, t :: 0 <= k < |es| && Valid(s, es[..k]) && CountsDown(s, es, k, t, first) ==> k < b)
  }

  /** Event k is the futex_dec of worker t. */
  predicate CountsDown(s: State, es: seq<Event>, k: nat, t: nat, first: bool)
    requires k < |es| && Valid(s, es[..k])
  {
    && es[k] == (if first then First(B.Worker(t)) else Second(B.Worker(t)))
    && Uncounted(Exec(s, es[..k]), t, first)
  }

  predicate Uncounted(s: State, t: nat, first: bool) {
    if first then t < |s.first.ws| && s.first.ws[t] == B.Away else t < |s.second.ws| && s.second.ws[t] == B.Away
  }

  lemma ReadyCounted(s: State, t: nat, first: bool)
    requires Inv(s) && (if first then s.first.main else s.second.main) == B.Ready
    ensures !Uncounted(s, t, first)
  {
    B.CountdownExact(s.first);
    B.CountdownExact(s.second);
  }

  lemma AllCounted(s: State, es: seq<Event>, b: nat, first: bool)
    requires Inv(s) && Valid(s, es) && SampleIn(s, es, b, first)
    ensures CountedBy(s, es, b, first)
  {
    hide Inv, Apply, Enabled;
    Cut(s, es, b);
    var sb := Exec(s, es[..b]);
    InvOnRuns(s, es[..b]);
    forall t: nat ensures !Uncounted(sb, t, first) {
      ReadyCounted(sb, t, first);
    }
    forall k, t | 0 <= k < |es| && Valid(s, es[..k]) && CountsDown(s, es, k, t, first) ensures k < b {
      if b <= k {
        StaysCountedUpTo(s, es, b, k, t, first);
      }
    }
  }

  lemma StaysCountedUpTo(s: State, es: seq<Event>, b: nat, k: nat, t: nat, first: bool)
    requires Inv(s) && Valid(s, es) && b <= k <= |es| && Valid(s, es[..b]) && Valid(s, es[..k])
    requires !Uncounted(Exec(s, es[..b]), t, first)
    ensures !Uncounted(Exec(s, es[..k]), t, first)
  {
    hide Apply, Enabled;
    InvOnRuns(s, es[..b]);
    InvOnRuns(s, es[..k]);
    Cut(s, es[..k], b);
    assert es[..k][..b] == es[..b];
    var rest := es[..k][b..];
    if t < s.n {
      CountsOnce(Exec(s, es[..b]), rest, t);
    }
  }

  // ---------------------------------------------------------------- the two barriers

  /** What holds of a barrier in every run: the signed countdown is exactly the number of workers
      that have not counted down; main asleep on it implies that it is positive or that a worker
      has its test or its wake still to do; a worker is about to wake it only when the countdown is at
      0; a worker asleep implies that the barrier is shut or main
      has its wake-all still to do; and all workers that returned got the same value. */
  ghost predicate Sound(b: B.State) {
    && AsInt(b.threads) == Sum(B.AwayBits(b))
    && (b.main == B.Sleeping ==> AsInt(b.threads) > 0 || exists t :: 0 <= t < |b.ws| && b.ws[t] in {B.Test, B.WakeMain})
    && (forall t :: 0 <= t < |b.ws| && b.ws[t] == B.WakeMain ==> b.threads == 0)
    && (forall t :: 0 <= t < |b.ws| && b.ws[t] == B.Asleep ==> b.unblock == 0 || b.main == B.Waking)
    && (forall t :: 0 <= t < |b.ws| && b.ws[t].Left? ==> b.ws[t].value == AsInt(b.unblock) != 0)
  }

  lemma BarriersSound(iterations: nat, threads: nat, b0: nat, b1: nat, b2: nat, es: seq<Event>, s: State)
    requires 1 <= threads <= INT_MAX
    requires Valid(Start(iterations, threads, b0, b1, b2), es) && s == Exec(Start(iterations, threads, b0, b1, b2), es)
    ensures Sound(s.first) && Sound(s.second)
  {
    StartInv(iterations, threads, b0, b1, b2);
    InvOnRuns(Start(iterations, threads, b0, b1, b2), es);
    B.CountdownExact(s.first);
    B.CountdownExact(s.second);
  }

  // ---------------------------------------------------------------- abort path

  /** After a failed creation no worker runs the lock test or touches the second barrier, and a
      worker that leaves the first barrier got -1. When main has returned, exactly the created
      workers have run and all of them have exited. */
  lemma AbortPath(s: State)
    requires Inv(s) && Aborted(s)
    ensures s.created < s.n
    ensures forall t :: 0 <= t < s.n ==>
              && s.mutex.ts[t] == Untouched(s) && s.second.ws[t] == B.Away
              && (s.first.ws[t].Left? ==> s.first.ws[t].value == -1)
    ensures forall e :: Enabled(s, e) ==> !e.Lock? && !e.Second?
    ensures s.main.Returned? ==> forall t :: 0 <= t < s.n ==> (Exited(s, t) <==> t < s.created)
  {
    forall t | 0 <= t < s.n
      ensures s.mutex.ts[t] == Untouched(s) && s.second.ws[t] == B.Away
      ensures s.first.ws[t].Left? ==> s.first.ws[t].value == -1
    {
      assert WorkerOrder(s, t);
    }
    forall e | Enabled(s, e)
      ensures !e.Lock? && !e.Second?
    {
    }
    forall t | s.created <= t < s.n
      ensures !Exited(s, t)
    {
      assert WorkerOrder(s, t);
    }
  }

  lemma AbortedStep(s: State, e: Event)
    requires Enabled(s, e)
    ensures Aborted(Apply(s, e)) <==> Aborted(s) || e == Create(false)
  {
  }

  /** A run is aborted exactly when one of its creations failed. */
  lemma {:induction false} AbortedIff(s: State, es: seq<Event>)
    requires Inv(s) && Valid(s, es)
    ensures Aborted(Exec(s, es)) <==> Aborted(s) || Create(false) in es
    decreases |es|
  {
    if es != [] {
      InvKept(s, es[0]);
      AbortedIff(Apply(s, es[0]), es[1..]);
      AbortedStep(s, es[0]);
      hide Inv, Apply;
      assert es == [es[0]] + es[1..];
    }
  }

  // ---------------------------------------------------------------- progress

  predicate SpuriousEvent(e: Event) {
    || (e.Lock? && e.m.Spurious?)
    || (e.First? && (e.b.SpuriousWorker? || e.b.SpuriousMain?))
    || (e.Second? && (e.b.SpuriousWorker? || e.b.SpuriousMain?))
  }

  /** Between the barriers some worker can always go on, until all have been tested. */
  lemma WorkersGoOn(s: State, t: nat) returns (e: Event)
    requires Inv(s) && s.first.main == B.Gone && s.first.unblock == 1 && s.created == s.n && t < s.n
    requires s.second.ws[t] == B.Away
    ensures Enabled(s, e) && !SpuriousEvent(e)
  {
    if Tested(s, t) {
      assert WorkerOrder(s, t);
      e := Second(B.Worker(t));
    } else {
      assert exists u :: 0 <= u < s.n && M.Awake(s.mutex.ts[u].pc) by {
        if forall u :: 0 <= u < s.n ==> !M.Awake(s.mutex.ts[u].pc) {
          M.NeverAllAsleep(s.mutex);
        }
      }
      var u :| 0 <= u < s.n && M.Awake(s.mutex.ts[u].pc);
      if s.first.ws[u].Left? {
        var m := M.AwakeCanAct(s.mutex, u);
        e := Lock(m);
      } else {
        e := First(B.Worker(u));
      }
    }
  }

  lemma BarrierGoesOn(s: State) returns (e: Event)
    requires Inv(s) && s.main in {InBefore, InAfter}
    ensures Enabled(s, e) && !SpuriousEvent(e)
  {
    if s.main == InBefore {
      if s.first.main == B.Ready {
        e := Sample;
      } else if s.first.main == B.Sleeping {
        var t := B.MainNotStranded(s.first);
        e := First(B.Worker(t));
      } else {
        e := First(B.Main);
      }
    } else {
      if s.second.main == B.Ready {
        e := Sample;
      } else if s.second.main == B.Sleeping {
        var t := B.MainNotStranded(s.second);
        if s.second.ws[t] == B.Away {
          e := WorkersGoOn(s, t);
        } else {
          assert WorkerOrder(s, t);
          e := Second(B.Worker(t));
        }
      } else {
        e := Second(B.Main);
      }
    }
  }

  lemma JoinGoesOn(s: State) returns (e: Event)
    requires Inv(s) && s.main in {Joining, Cleanup}
    ensures Enabled(s, e) && !SpuriousEvent(e)
  {
    if s.main == Joining && s.next < s.n && !Exited(s, s.next) {
      B.CountdownExact(s.second);
      assert WorkerOrder(s, s.next);
      e := Second(B.Worker(s.next));
    } else if s.main == Cleanup && s.next > 0 && !Exited(s, s.next - 1) {
      e := First(B.Worker(s.next - 1));
    } else if s.next == (if s.main == Joining then s.n else 0) {
      e := Proceed;
    } else {
      e := Join;
    }
  }

  /** Until main has returned, something can happen without help from spurious wake-ups. */
  lemma CanGoOn(s: State) returns (e: Event)
    requires Inv(s) && !s.main.Returned?
    ensures Enabled(s, e) && !SpuriousEvent(e)
  {
    match s.main
    case Creating => e := if s.created < s.n then Create(true) else First(B.Begin);
    case InBefore => e := BarrierGoesOn(s);
    case InAfter => e := BarrierGoesOn(s);
    case Unblocking =>
      e := if s.first.main == B.Ready then First(B.Open(1))
           else if s.first.main == B.Waking then First(B.Main)
           else Second(B.Begin);
    case Finishing =>
      e := if s.second.main == B.Ready then Second(B.Open(1))
           else if s.second.main == B.Waking then Second(B.Main)
           else Proceed;
    case Aborting =>
      e := if s.first.main == B.Idle then First(B.Open(-1))
           else if s.first.main == B.Waking then First(B.Main)
           else Proceed;
    case Joining => e := JoinGoesOn(s);
    case Cleanup => e := JoinGoesOn(s);
  }

  /** Once main has returned, the shared frame is dead and nobody touches it any more. */
  lemma NothingAfterReturn(s: State, e: Event)
    requires Inv(s) && s.main.Returned?
    ensures !Enabled(s, e)
  {
    if Aborted(s) {
      AbortPath(s);
    }
    forall t | 0 <= t < s.created
      ensures s.first.ws[t].Left? && (Admitted(s, t) ==> Tested(s, t) && s.second.ws[t].Left?)
    {
      assert Exited(s, t);
    }
    forall t | s.created <= t < s.n
      ensures s.second.ws[t] == B.Away
    {
      assert WorkerOrder(s, t);
    }
  }

  // ---------------------------------------------------------------- termination

  function MainWork(s: State): int {
    match s.main
    case Creating => s.n + 9 + (s.n - s.created)
    case InBefore => s.n + 8
    case Unblocking => s.n + 7
    case InAfter => s.n + 6
    case Finishing => s.n + 5
    case Joining => s.n + 2 - s.next
    case Aborting => s.n + 4
    case Cleanup => s.next + 1
    case Returned(_) => 0
  }

  ghost function Measure(s: State): int {
    R.Measure(s.mutex) + B.Measure(s.first) + B.Measure(s.second) + MainWork(s)
  }

  lemma MainWorkDrops(s: State, e: Event)
    requires Inv(s) && Enabled(s, e)
    ensures MainWork(Apply(s, e)) <= MainWork(s)
    ensures !e.Lock? && !e.First? && !e.Second? ==> MainWork(Apply(s, e)) < MainWork(s)
    ensures MainWork(s) >= 0
  {
    hide M.Inv, B.Inv, Order, Stored, Joined;
  }

  lemma StepDecreases(s: State, e: Event)
    requires Inv(s) && Enabled(s, e)
    ensures Measure(Apply(s, e)) < Measure(s)
  {
    MainWorkDrops(s, e);
    match e
    case Lock(m) =>
      R.StepDecreases(s.mutex, m);
    case First(b) =>
      B.StepDecreases(s.first, b);
    case Second(b) =>
      B.StepDecreases(s.second, b);
    case _ =>
  }

  lemma MeasureNonNegative(s: State)
    requires Inv(s)
    ensures Measure(s) >= 0
  {
    R.MeasureNonNegative(s.mutex);
    B.MeasureBounds(s.first);
    B.MeasureBounds(s.second);
  }

  lemma {:induction false} RunLength(s: State, es: seq<Event>)
    requires Inv(s) && Valid(s, es)
    ensures |es| + Measure(Exec(s, es)) <= Measure(s)
    decreases |es|
  {
    if es != [] {
      InvKept(s, es[0]);
      StepDecreases(s, es[0]);
      RunLength(Apply(s, es[0]), es[1..]);
    }
  }

  // ---------------------------------------------------------------- the mutex inside the run

  /** The accesses a run makes to the mutex. */
  function MutexEvents(es: seq<Event>): seq<M.Event> {
    if es == [] then [] else (if es[0].Lock? then [es[0].m] else []) + MutexEvents(es[1..])
  }

  /** They form a run of the mutex alone, so all that holds of its runs holds here. */
  lemma {:induction false} MutexRun(s: State, es: seq<Event>)
    requires Valid(s, es)
    ensures M.Valid(s.mutex, MutexEvents(es))
    ensures M.Exec(s.mutex, MutexEvents(es)) == Exec(s, es).mutex
    decreases |es|
  {
    if es != [] {
      MutexRun(Apply(s, es[0]), es[1..]);
      if es[0].Lock? {
        assert MutexEvents(es)[1..] == MutexEvents(es[1..]);
      } else {
        assert MutexEvents(es) == MutexEvents(es[1..]);
      }
    }
  }

  function Bound(iterations: nat, threads: nat, spurious: nat): int
    requires threads >= 1
  {
    3 * (threads * Quotient(iterations, threads)) * (6 * threads + 1) + 33 * threads + 23 + 3 * spurious
  }

  lemma StartMeasure(iterations: nat, threads: nat, b0: nat, b1: nat, b2: nat)
    requires 1 <= threads
    ensures Measure(Start(iterations, threads, b0, b1, b2)) <= Bound(iterations, threads, b0 + b1 + b2)
  {
    var s := Start(iterations, threads, b0, b1, b2);
    R.InitMeasure(s.mutex, threads, s.loops);
    B.MeasureBounds(s.first);
    B.MeasureBounds(s.second);
  }

  lemma NotTimedIfAborted(s: State)
    requires Inv(s)
    ensures Aborted(s) ==> s.before == Unset
  {
  }

  /** In an aborted run the mutex keeps its initial state. */
  lemma {:induction false} NeverTouched(s: State, es: seq<Event>)
    requires Inv(s) && Valid(s, es) && Aborted(Exec(s, es))
    ensures Exec(s, es).mutex == s.mutex
    decreases |es|
  {
    if es != [] {
      InvKept(s, es[0]);
      NeverTouched(Apply(s, es[0]), es[1..]);
      if es[0].Lock? {
        TestIsTimed(s, es[0].m);
        SamplesStay(s, es);
        InvOnRuns(s, es);
        NotTimedIfAborted(Exec(s, es));
      }
      hide Inv, Apply;
    }
  }

  /** Termination under every schedule. */
  lemma RunBounded(iterations: nat, threads: nat, b0: nat, b1: nat, b2: nat, es: seq<Event>)
    requires 1 <= threads <= INT_MAX
    requires Valid(Start(iterations, threads, b0, b1, b2), es)
    ensures |es| <= Bound(iterations, threads, b0 + b1 + b2)
    ensures Inv(Exec(Start(iterations, threads, b0, b1, b2), es))
  {
    var s := Start(iterations, threads, b0, b1, b2);
    StartInv(iterations, threads, b0, b1, b2);
    InvOnRuns(s, es);
    RunLength(s, es);
    StartMeasure(iterations, threads, b0, b1, b2);
    MeasureNonNegative(Exec(s, es));
  }

  /** A run stops only by returning from `locktest`. */
  lemma ReturnedIffStopped(s: State)
    requires Inv(s)
    ensures s.main.Returned? <==> forall e :: !Enabled(s, e)
  {
    if s.main.Returned? {
      forall e ensures !Enabled(s, e) {
        NothingAfterReturn(s, e);
      }
    } else {
      var e := CanGoOn(s);
    }
  }

  /** The critical sections a run has entered: acquisitions of the lock by its workers. */
  function CriticalSections(s: State, es: seq<Event>): nat
    requires M.Valid(s.mutex, MutexEvents(es))
  {
    R.CountAcquires(R.Actions(s.mutex, MutexEvents(es)))
  }

  lemma PassedRun(s: State, es: seq<Event>)
    requires Inv(s) && M.Init(s.mutex, s.n, s.loops) && Valid(s, es) && Exec(s, es).main == Returned(RET_PASS)
    ensures M.Valid(s.mutex, MutexEvents(es))
    ensures CriticalSections(s, es) == s.n * s.loops
    ensures Exec(s, es).mutex.word == 0 && forall t :: 0 <= t < s.n ==> Exited(Exec(s, es), t)
  {
    var s' := Exec(s, es);
    InvOnRuns(s, es);
    MutexRun(s, es);
    PhasesSeparated(s');
    forall t | 0 <= t < s.n ensures !M.Awake(s'.mutex.ts[t].pc) {
      assert Tested(s', t);
    }
    R.FinishedRun(s.mutex, s.n, s.loops, MutexEvents(es));
  }

  /** Whole-program completion, for any thread count and any schedule (no run exceeds `Bound`): a run
      stops only by returning. If all creations succeeded it returns RET_PASS with every
      worker joined, the mutex free and exactly threads * (iterations / threads) critical sections
      run, a number in (iterations - threads, iterations]. If one failed it returns RET_ERROR with
      exactly the created workers joined and the mutex never touched. */
  lemma Completion(iterations: nat, threads: nat, b0: nat, b1: nat, b2: nat, es: seq<Event>, s: State, s': State)
    requires 1 <= threads <= INT_MAX && s == Start(iterations, threads, b0, b1, b2)
    requires Valid(s, es) && s' == Exec(s, es)
    ensures s'.main.Returned? <==> forall e :: !Enabled(s', e)
    ensures s'.main.Returned? && Create(false) !in es ==>
              && s'.main == Returned(RET_PASS)
              && s'.mutex.word == 0
              && (forall t :: 0 <= t < threads ==> Exited(s', t))
              && M.Valid(s.mutex, MutexEvents(es))
              && CriticalSections(s, es) == threads * Quotient(iterations, threads)
              && iterations - threads < CriticalSections(s, es) <= iterations
    ensures s'.main.Returned? && Create(false) in es ==>
              && s'.main == Returned(RET_ERROR)
              && (forall t :: 0 <= t < threads ==> (Exited(s', t) <==> t < s'.created))
              && s'.mutex == s.mutex
  {
    RunBounded(iterations, threads, b0, b1, b2, es);
    StartInv(iterations, threads, b0, b1, b2);
    ReturnedIffStopped(s');
    AbortedIff(s, es);
    if s'.main.Returned? {
      if Create(false) in es {
        AbortPath(s');
        NeverTouched(s, es);
      } else {
        PassedRun(s, es);
      }
    }
  }
}
