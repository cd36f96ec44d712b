/** The `locktest` driver of performance/harness.h run over the futex mutex: one main thread,
    N workers, a barrier before the test, the mutex rounds, a barrier after it.

    A worker's position is given by its positions in the three parts, which it goes through
    in order. One event is one access of one thread to the shared frame, or one call of main
    to pthread_create, times or pthread_join. */
module Locktest {
  import opened Words
  import M = Mutex
  import B = Barrier

  datatype Main =
    | Creating              // the pthread_create loop
    | InBefore              // barrier_wait(barrier_before)
    | Unblocking            // `before` is sampled; barrier_unblock(barrier_before, 1)
    | InAfter               // barrier_wait(barrier_after)
    | Finishing             // `after` is sampled; barrier_unblock(barrier_after, 1)
    | Joining               // the pthread_join loop
    | Aborting              // a creation failed; barrier_unblock(barrier_before, -1)
    | Cleanup               // joins the workers created so far
    | Returned(code: int)

  datatype Stamp = Unset | At(time: nat)

  /** `created` workers exist; `next` is main's loop variable while joining. The clock `now`
      advances with every event; `before` and `after` are the two samples of it. */
  datatype State = State(
    n: nat, loops: nat,
    mutex: M.State, first: B.State, second: B.State,
    main: Main, created: nat, next: nat,
    before: Stamp, after: Stamp, now: nat)

  datatype Event =
    | Lock(m: M.Event)      // a worker inside the lock test
    | First(b: B.Event)     // an access to barrier_before
    | Second(b: B.Event)    // an access to barrier_after
    | Create(ok: bool)
    | Sample
    | Join
    | Proceed               // main goes on to its next loop, or returns

  /** A worker before its first access to the mutex. */
  function Untouched(s: State): M.Thread {
    M.Thread(M.Head, 0, s.loops)
  }

  /** The first barrier let worker t through to the test. */
  predicate Admitted(s: State, t: nat) {
    t < |s.first.ws| && s.first.ws[t].Left? && s.first.ws[t].value > 0
  }

  predicate Tested(s: State, t: nat) {
    t < |s.mutex.ts| && s.mutex.ts[t].pc == M.Done
  }

  /** locktest_thread of worker t has returned. */
  predicate Exited(s: State, t: nat) {
    && t < |s.first.ws| && s.first.ws[t].Left?
    && (s.first.ws[t].value > 0 ==> Tested(s, t) && t < |s.second.ws| && s.second.ws[t].Left?)
  }

  predicate FirstEnabled(s: State, e: B.Event) {
    && B.Enabled(s.first, e)
    && match e
       case Worker(t) => t < s.created
       case SpuriousWorker(t) => t < s.created
       case Main => s.main in {InBefore, Unblocking, Aborting}
       case SpuriousMain => s.main == InBefore
       case Begin => s.main == Creating && s.created == s.n
       case Open(v) => if v == 1 then s.main == Unblocking else v == -1 && s.main == Aborting
  }

  predicate SecondEnabled(s: State, e: B.Event) {
    && B.Enabled(s.second, e)
    && match e
       case Worker(t) => Admitted(s, t) && Tested(s, t)
       case SpuriousWorker(t) => true
       case Main => s.main in {InAfter, Finishing}
       case SpuriousMain => s.main == InAfter
       case Begin => s.main == Unblocking && s.first.main == B.Gone
       case Open(v) => v == 1 && s.main == Finishing
  }

  predicate Enabled(s: State, e: Event) {
    match e
    case Lock(m) => M.Enabled(s.mutex, m) && Admitted(s, m.t)
    case First(b) => FirstEnabled(s, b)
    case Second(b) => SecondEnabled(s, b)
    case Create(_) => s.main == Creating && s.created < s.n
    case Sample => (s.main == InBefore && s.first.main == B.Ready) || (s.main == InAfter && s.second.main == B.Ready)
    case Join =>
      || (s.main == Joining && s.next < s.n && Exited(s, s.next))
      || (s.main == Cleanup && s.next > 0 && Exited(s, s.next - 1))
    case Proceed =>
      || (s.main == Finishing && s.second.main == B.Gone)
      || (s.main == Joining && s.next == s.n)
      || (s.main == Aborting && s.first.main == B.Gone)
      || (s.main == Cleanup && s.next == 0)
  }

  function Apply(s0: State, e: Event): (s': State)
    requires Enabled(s0, e)
    ensures s'.n == s0.n && s'.loops == s0.loops && s'.now == s0.now + 1
    ensures e.Lock? || s'.mutex == s0.mutex
  {
    var s := s0.(now := s0.now + 1);
    match e
    case Lock(m) => s.(mutex := M.Apply(s.mutex, m))
    case First(b) => s.(first := B.Apply(s.first, b), main := if b.Begin? then InBefore else s.main)
    case Second(b) => s.(second := B.Apply(s.second, b), main := if b.Begin? then InAfter else s.main)
    case Create(ok) => if ok then s.(created := s.created + 1) else s.(main := Aborting)
    case Sample =>
      if s.main == InBefore then s.(main := Unblocking, before := At(s0.now))
      else s.(main := Finishing, after := At(s0.now))
    case Join => s.(next := if s.main == Joining then s.next + 1 else s.next - 1)
    case Proceed =>
      match s.main
      case Finishing => s.(main := Joining, next := 0)
      case Aborting => s.(main := Cleanup, next := s.created)
      case Joining => s.(main := Returned(RET_PASS))
      case _ => s.(main := Returned(RET_ERROR))
  }

  /** The state in which `locktest(iterations, threads)` enters its creation loop. The three
      bounds limit the spurious returns of futex_wait on the mutex and on the barriers. */
  function Start(iterations: nat, threads: nat, b0: nat, b1: nat, b2: nat): State
    requires 1 <= threads
  {
    var loops := Quotient(iterations, threads);
    State(threads, loops,
          M.State(0, seq(threads, _ => M.Thread(M.Head, 0, loops)), b0),
          B.Fresh(threads, b1), B.Fresh(threads, b2),
          Creating, 0, 0, Unset, Unset, 0)
  }

  // ---------------------------------------------------------------- invariant

  ghost predicate Parts(s: State) {
    && 1 <= s.n <= INT_MAX && s.created <= s.n
    && |s.mutex.ts| == |s.first.ws| == |s.second.ws| == s.n
    && M.Inv(s.mutex) && B.Inv(s.first) && B.Inv(s.second)
  }

  /** Each worker goes through the parts in order. */
  predicate WorkerOrder(s: State, t: nat)
    requires t < |s.mutex.ts| && t < |s.first.ws| && t < |s.second.ws|
  {
    && (s.created <= t ==> s.first.ws[t] == B.Away)
    && (s.mutex.ts[t] != Untouched(s) ==> Admitted(s, t))
    && (s.second.ws[t] != B.Away ==> s.mutex.ts[t].pc == M.Done)
  }

  predicate Order(s: State)
    requires |s.mutex.ts| == |s.first.ws| == |s.second.ws| == s.n
  {
    forall t :: 0 <= t < s.n ==> WorkerOrder(s, t)
  }

  /** Where main is in its own code, and so in the two barriers. */
  predicate MainInv(s: State) {
    var m1, m2 := s.first.main, s.second.main;
    match s.main
    case Creating =>
      m1 == B.Idle && m2 == B.Idle && s.before == s.after == Unset
    case InBefore =>
      s.created == s.n && m1 !in {B.Idle, B.Waking, B.Gone} && m2 == B.Idle && s.before == s.after == Unset
    case Unblocking =>
      s.created == s.n && m1 in {B.Ready, B.Waking, B.Gone} && m2 == B.Idle && s.before.At? && s.after == Unset
    case InAfter =>
      s.created == s.n && m1 == B.Gone && m2 !in {B.Idle, B.Waking, B.Gone} && s.before.At? && s.after == Unset
    case Finishing =>
      s.created == s.n && m1 == B.Gone && m2 in {B.Ready, B.Waking, B.Gone} && s.before.At? && s.after.At?
    case Joining =>
      s.created == s.n && m1 == B.Gone && m2 == B.Gone && s.before.At? && s.after.At? && s.next <= s.n
    case Aborting =>
      s.created < s.n && m1 in {B.Idle, B.Waking, B.Gone} && m2 == B.Idle && s.before == s.after == Unset
    case Cleanup =>
      s.created < s.n && m1 == B.Gone && m2 == B.Idle && s.before == s.after == Unset && s.next <= s.created
    case Returned(code) =>
      if code == RET_PASS
      then s.created == s.n && m1 == B.Gone && m2 == B.Gone && s.before.At? && s.after.At? && s.next == s.n
      else
        && code == RET_ERROR && s.created < s.n && m1 == B.Gone && m2 == B.Idle
        && s.before == s.after == Unset && s.next == 0
  }

  predicate Aborted(s: State) {
    s.main in {Aborting, Cleanup, Returned(RET_ERROR)}
  }

  /** What main has stored in the barrier words. */
  predicate Stored(s: State) {
    && s.first.unblock in (if Aborted(s) then {0, AsU32(-1)} else {0, 1})
    && s.second.unblock in {0, 1}
    && (s.first.unblock == 1 ==> s.first.threads == 0)
    && (s.second.unblock == 1 ==> s.second.threads == 0)
  }

  predicate Joined(s: State) {
    && (s.main in {Joining, Returned(RET_PASS)} ==> forall t :: 0 <= t < s.next ==> Exited(s, t))
    && (s.main in {Cleanup, Returned(RET_ERROR)} ==> forall t :: s.next <= t < s.created ==> Exited(s, t))
  }

  ghost predicate Inv(s: State) {
    && Parts(s) && Order(s) && MainInv(s) && Stored(s) && Joined(s)
    && (s.before.At? ==> s.before.time < s.now)
    && (s.after.At? ==> s.before.At? && s.before.time < s.after.time < s.now)
  }

  lemma StartInv(iterations: nat, threads: nat, b0: nat, b1: nat, b2: nat)
    requires 1 <= threads <= INT_MAX
    ensures Inv(Start(iterations, threads, b0, b1, b2))
  {
    B.FreshInv(threads, b1);
    B.FreshInv(threads, b2);
  }

  lemma LockKept(s: State, m: M.Event)
    requires Inv(s) && Enabled(s, Lock(m))
    ensures Inv(Apply(s, Lock(m)))
  {
    M.InvKept(s.mutex, m);
    var s' := Apply(s, Lock(m));
    forall t | 0 <= t < s.n
      ensures WorkerOrder(s', t) && (Exited(s, t) ==> Exited(s', t))
    {
      assert WorkerOrder(s, t);
      M.OthersStay(s.mutex, m, t);
      hide M.Inv, B.Inv, M.Apply, M.Enabled;
    }
    hide M.Inv, B.Inv, M.Apply, M.Enabled;
  }

  lemma FirstOrder(s: State, b: B.Event)
    requires Parts(s) && Order(s) && FirstEnabled(s, b) && Enabled(s, First(b))
    ensures Order(Apply(s, First(b)))
    ensures forall t :: 0 <= t < s.n && Exited(s, t) ==> Exited(Apply(s, First(b)), t)
  {
    hide M.Inv;
    B.OpenedOnce(s.first, b);
    hide B.Inv;
    var s' := Apply(s, First(b));
    forall t | 0 <= t < s.n
      ensures WorkerOrder(s', t) && (Exited(s, t) ==> Exited(s', t))
    {
      assert WorkerOrder(s, t);
    }
  }

  lemma FirstKept(s: State, b: B.Event)
    requires Inv(s) && Enabled(s, First(b))
    ensures Inv(Apply(s, First(b)))
  {
    hide M.Inv, Order;
    B.InvKept(s.first, b);
    B.OpenedOnce(s.first, b);
    FirstOrder(s, b);
  }

  lemma SecondOrder(s: State, b: B.Event)
    requires Parts(s) && Order(s) && SecondEnabled(s, b) && Enabled(s, Second(b))
    ensures Order(Apply(s, Second(b)))
    ensures forall t :: 0 <= t < s.n && Exited(s, t) ==> Exited(Apply(s, Second(b)), t)
  {
    hide M.Inv;
    B.OpenedOnce(s.second, b);
    hide B.Inv;
    var s' := Apply(s, Second(b));
    forall t | 0 <= t < s.n
      ensures WorkerOrder(s', t) && (Exited(s, t) ==> Exited(s', t))
    {
      assert WorkerOrder(s, t);
    }
  }

  lemma SecondKept(s: State, b: B.Event)
    requires Inv(s) && Enabled(s, Second(b))
    ensures Inv(Apply(s, Second(b)))
  {
    hide M.Inv, Order;
    B.InvKept(s.second, b);
    B.OpenedOnce(s.second, b);
    SecondOrder(s, b);
  }

  /** Main's own steps leave the three parts alone. */
  lemma OrderFramed(s: State, s': State)
    requires Parts(s) && Order(s) && s'.created >= s.created && s'.n == s.n && s'.loops == s.loops
    requires s'.mutex == s.mutex && s'.first == s.first && s'.second == s.second
    ensures Order(s')
    ensures forall t :: 0 <= t < s.n && Exited(s, t) ==> Exited(s', t)
  {
    forall t | 0 <= t < s.n ensures WorkerOrder(s', t) {
      assert WorkerOrder(s, t);
    }
  }

  lemma CreateKept(s: State, e: Event)
    requires Inv(s) && Enabled(s, e) && (e.Create? || e.Sample?)
    ensures Inv(Apply(s, e))
  {
    hide M.Inv, Order;
    OrderFramed(s, Apply(s, e));
  }

  lemma JoinKept(s: State, e: Event)
    requires Inv(s) && Enabled(s, e) && (e.Join? || e.Proceed?)
    ensures Inv(Apply(s, e))
  {
    hide M.Inv, B.Inv, Order;
    OrderFramed(s, Apply(s, e));
  }

  lemma InvKept(s: State, e: Event)
    requires Inv(s) && Enabled(s, e)
    ensures Inv(Apply(s, e))
  {
    match e
    case Lock(m) => LockKept(s, m);
    case First(b) => FirstKept(s, b);
    case Second(b) => SecondKept(s, b);
    case Create(_) => CreateKept(s, e);
    case Sample => CreateKept(s, e);
    case Join => JoinKept(s, e);
    case Proceed => JoinKept(s, e);
  }
}
