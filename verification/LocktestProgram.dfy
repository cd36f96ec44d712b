/** harness.h as a program: thread barriers with two futex words, and `locktest` itself, updated
    in place. Each method is proved equal to the event it stands for. */
module LocktestProgram {
  import opened Words
  import opened FutexWord
  import M = Mutex
  import P = MutexProgram
  import B = Barrier
  import L = Locktest
  import LR = LocktestRuns

  /** Main's name on the wait queue of `threads`. */
  const MAIN: nat := 0

  class ThreadBarrier {
    const threads: Futex
    const unblock: Futex
    var ws: seq<B.WPc>
    var main: B.MPc
    var spurious: nat

    function View(): B.State
      reads this, threads, unblock
    {
      B.State(threads.word, unblock.word, ws, main, spurious)
    }

    ghost predicate Consistent()
      reads this, threads, unblock
    {
      && threads != unblock && |ws| <= INT_MAX
      && threads.sleepers == (if main == B.Sleeping then {MAIN} else {})
      && forall t: nat :: t in unblock.sleepers <==> t < |ws| && ws[t] == B.Asleep
    }

    /** barrier_init */
    constructor (n: nat, spurious: nat)
      requires n <= INT_MAX
      ensures Consistent() && fresh(threads) && fresh(unblock)
      ensures View() == B.Fresh(n, spurious)
    {
      threads := new Futex(AsU32(n));
      unblock := new Futex(0);
      ws := seq(n, _ => B.Away);
      main := B.Idle;
      this.spurious := spurious;
    }

    /** barrier_sync: one access by worker t. */
    method StepSync(t: nat)
      requires Consistent() && B.Enabled(View(), B.Worker(t))
      modifies this`ws, this`main, threads, unblock
      ensures Consistent() && View() == B.Apply(old(View()), B.Worker(t))
    {
      match ws[t]
      case Away =>
        var _ := threads.Dec();
        ws := ws[t := B.Test];
      case Test =>
        ws := ws[t := if threads.word == 0 then B.WakeMain else B.Check];
      case WakeMain =>
        var woken := threads.Wake(1);
        if woken != {} {
          main := B.Reading;
        }
        ws := ws[t := B.Check];
      case Check =>
        ws := ws[t := if unblock.word == 0 then B.Wait else B.Return];
      case Wait =>
        var blocked := unblock.Wait(t, 0);
        ws := ws[t := if blocked then B.Asleep else B.Check];
      case Return =>
        ws := ws[t := B.Left(AsInt(unblock.word))];
    }

    /** barrier_wait, and the wake-up of barrier_unblock: one access by main. */
    method StepMain()
      requires Consistent() && B.Enabled(View(), B.Main)
      modifies this`ws, this`main, threads, unblock
      ensures Consistent() && View() == B.Apply(old(View()), B.Main)
    {
      match main
      case Reading =>
        var n := AsInt(threads.word);
        main := if n > 0 then B.Waiting(n) else B.Ready;
      case Waiting(n) =>
        var blocked := threads.Wait(MAIN, AsU32(n));
        main := if blocked then B.Sleeping else B.Reading;
      case Waking =>
        FewSleepers();
        var woken := unblock.Wake(INT_MAX);
        main := B.Gone;
        ws := seq(|ws|, t requires 0 <= t < |ws| reads this => if t in woken then B.Check else ws[t]);
    }

    /** There are no more sleepers than workers. */
    lemma FewSleepers()
      requires Consistent()
      ensures |unblock.sleepers| <= INT_MAX
    {
      SubsetOfRange(unblock.sleepers, |ws|);
    }

    /** barrier_wait is called; barrier_unblock stores `value`; futex_wait returns spuriously. */
    method StepOther(e: B.Event)
      requires Consistent() && B.Enabled(View(), e) && !e.Worker? && !e.Main?
      modifies this, threads, unblock
      ensures Consistent() && View() == B.Apply(old(View()), e)
    {
      match e
      case Begin =>
        main := B.Reading;
      case Open(value) =>
        var _ := unblock.Set(value);
        main := B.Waking;
      case SpuriousWorker(t) =>
        unblock.ReturnSpuriously(t);
        ws, spurious := ws[t := B.Check], spurious - 1;
      case SpuriousMain =>
        threads.ReturnSpuriously(MAIN);
        main, spurious := B.Reading, spurious - 1;
    }

    method Step(e: B.Event)
      requires Consistent() && B.Enabled(View(), e)
      modifies this, threads, unblock
      ensures Consistent() && View() == B.Apply(old(View()), e)
    {
      if e.Worker? {
        StepSync(e.t);
      } else if e.Main? {
        StepMain();
      } else {
        StepOther(e);
      }
    }
  }

  lemma {:induction false} SubsetOfRange(a: set<nat>, n: nat)
    requires forall t <- a :: t < n
    ensures |a| <= n
    decreases n
  {
    if n > 0 {
      SubsetOfRange(a - {n - 1}, n - 1);
      assert n - 1 in a ==> |a - {n - 1}| == |a| - 1;
      assert n - 1 !in a ==> a - {n - 1} == a;
    } else {
      assert a == {};
    }
  }

  /** The main thread and its workers around the shared frame. */
  class Driver {
    const n: nat
    const loops: nat
    const mutex: P.LockLoop
    const first: ThreadBarrier
    const second: ThreadBarrier
    var main: L.Main
    var created: nat
    var next: nat
    var before: L.Stamp
    var after: L.Stamp
    var now: nat

    /** The objects the frame consists of. */
    ghost function Repr(): set<object> {
      {mutex, mutex.futex, first, first.threads, first.unblock, second, second.threads, second.unblock}
    }

    function View(): L.State
      reads this, mutex, mutex.futex, first, first.threads, first.unblock, second, second.threads, second.unblock
    {
      L.State(n, loops, mutex.View(), first.View(), second.View(), main, created, next, before, after, now)
    }

    ghost predicate Consistent()
      reads this, mutex, mutex.futex, first, first.threads, first.unblock, second, second.threads, second.unblock
    {
      && first != second
      && mutex.futex !in {first.threads, first.unblock, second.threads, second.unblock}
      && {first.threads, first.unblock} !! {second.threads, second.unblock}
      && mutex.Consistent() && first.Consistent() && second.Consistent()
    }

    /** The part of `locktest` before its creation loop. */
    constructor (iterations: nat, threads: nat, b0: nat, b1: nat, b2: nat)
      requires 1 <= threads <= INT_MAX
      ensures Consistent() && fresh(Repr())
      ensures View() == L.Start(iterations, threads, b0, b1, b2)
    {
      n, loops := threads, Quotient(iterations, threads);
      mutex := new P.LockLoop(threads, Quotient(iterations, threads), b0);
      first := new ThreadBarrier(threads, b1);
      second := new ThreadBarrier(threads, b2);
      main, created, next, before, after, now := L.Creating, 0, 0, L.Unset, L.Unset, 0;
    }

    /** One access of a worker inside the lock test. */
    method StepLock(m: M.Event) returns (ghost e: L.Event)
      requires Consistent() && L.Enabled(View(), L.Lock(m))
      modifies this`now, mutex, mutex.futex
      ensures Consistent() && L.Enabled(old(View()), e) && View() == L.Apply(old(View()), e)
    {
      if m.Spurious? {
        mutex.StepSpurious(m.t);
        e := L.Lock(m);
      } else {
        var done := mutex.Step(m.t);
        e := L.Lock(done);
      }
      now := now + 1;
    }

    /** One access to one of the barriers. */
    method StepFirst(b: B.Event)
      requires Consistent() && L.Enabled(View(), L.First(b))
      modifies this, first, first.threads, first.unblock
      ensures Consistent() && View() == L.Apply(old(View()), L.First(b))
    {
      first.Step(b);
      if b.Begin? {
        main := L.InBefore;
      }
      now := now + 1;
    }

    method StepSecond(b: B.Event)
      requires Consistent() && L.Enabled(View(), L.Second(b))
      modifies this, second, second.threads, second.unblock
      ensures Consistent() && View() == L.Apply(old(View()), L.Second(b))
    {
      second.Step(b);
      if b.Begin? {
        main := L.InAfter;
      }
      now := now + 1;
    }

    /** pthread_create */
    method StepCreate(ok: bool)
      requires Consistent() && L.Enabled(View(), L.Create(ok))
      modifies this`created, this`main, this`now
      ensures Consistent() && View() == L.Apply(old(View()), L.Create(ok))
    {
      if ok {
        created := created + 1;
      } else {
        main := L.Aborting;
      }
      now := now + 1;
    }

    /** times */
    method StepSample()
      requires Consistent() && L.Enabled(View(), L.Sample)
      modifies this`before, this`after, this`main, this`now
      ensures Consistent() && View() == L.Apply(old(View()), L.Sample)
    {
      if main == L.InBefore {
        before := L.At(now);
        main := L.Unblocking;
      } else {
        after := L.At(now);
        main := L.Finishing;
      }
      now := now + 1;
    }

    /** pthread_join: upwards normally, downwards after a failed creation. */
    method StepJoin()
      requires Consistent() && L.Enabled(View(), L.Join)
      modifies this`next, this`now
      ensures Consistent() && View() == L.Apply(old(View()), L.Join)
    {
      next := if main == L.Joining then next + 1 else next - 1;
      now := now + 1;
    }

    /** Main enters or leaves a join loop. */
    method StepProceed()
      requires Consistent() && L.Enabled(View(), L.Proceed)
      modifies this`next, this`main, this`now
      ensures Consistent() && View() == L.Apply(old(View()), L.Proceed)
    {
      match main {
        case Finishing => main, next := L.Joining, 0;
        case Aborting => main, next := L.Cleanup, created;
        case Joining => main := L.Returned(RET_PASS);
        case Cleanup => main := L.Returned(RET_ERROR);
      }
      now := now + 1;
    }

    method Step(e: L.Event) returns (ghost done: L.Event)
      requires Consistent() && L.Enabled(View(), e)
      modifies this, Repr()
      ensures Consistent() && L.Enabled(old(View()), done) && View() == L.Apply(old(View()), done)
    {
      done := e;
      if e.Lock? {
        done := StepLock(e.m);
      } else if e.First? {
        StepFirst(e.b);
      } else if e.Second? {
        StepSecond(e.b);
      } else if e.Create? {
        StepCreate(e.ok);
      } else if e.Sample? {
        StepSample();
      } else if e.Join? {
        StepJoin();
      } else {
        StepProceed();
      }
    }

    /** Main and all workers, in any interleaving, until main has returned. */
    method Run() returns (ghost es: seq<L.Event>)
      requires Consistent() && L.Inv(View())
      modifies this, Repr()
      ensures Consistent() && main.Returned?
      ensures LR.Valid(old(View()), es) && View() == LR.Exec(old(View()), es)
    {
      hide L.Inv, L.Apply;
      es := [];
      while !main.Returned?
        invariant Consistent() && L.Inv(View())
        invariant LR.Valid(old(View()), es) && View() == LR.Exec(old(View()), es)
        decreases LR.Measure(View())
      {
        ghost var s0 := View();
        ghost var some := LR.CanGoOn(s0);
        var e :| L.Enabled(View(), e);
        var done := Step(e);
        LR.Extend(old(View()), es, done);
        es := es + [done];
        L.InvKept(s0, done);
        LR.StepDecreases(s0, done);
        LR.MeasureNonNegative(s0);
      }
    }
  }

  /** `locktest` under any scheduler: it returns, and what it then has done is told by the run. `work`
      is the number of iterations the reported rate is computed from. */
  method Locktest(iterations: nat, threads: nat, b0: nat, b1: nat, b2: nat)
    returns (code: int, work: nat, ghost es: seq<L.Event>)
    requires 1 <= threads <= INT_MAX
    ensures LR.Valid(L.Start(iterations, threads, b0, b1, b2), es)
    ensures code == if L.Create(false) in es then RET_ERROR else RET_PASS
    ensures code == RET_PASS ==>
              && M.Valid(L.Start(iterations, threads, b0, b1, b2).mutex, LR.MutexEvents(es))
              && LR.CriticalSections(L.Start(iterations, threads, b0, b1, b2), es) == work
    ensures iterations - threads < work <= iterations
  {
    hide L.Inv, LR.Valid, LR.Exec, LR.CriticalSections;
    var d := new Driver(iterations, threads, b0, b1, b2);
    ghost var s := d.View();
    L.StartInv(iterations, threads, b0, b1, b2);
    work := threads * Quotient(iterations, threads);
    es := d.Run();
    code := d.main.code;
    LR.Completion(iterations, threads, b0, b1, b2, es, s, d.View());
  }
}
