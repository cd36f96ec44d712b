/** The driver model against the text of performance/harness.h: main does what `locktest` does, call
    by call, and what the workers do at each barrier and at the mutex are runs of those alone, so
    that the program order proved for them holds in the whole program. */
module LocktestTrace {
  import opened Words
  import opened Traces
  import FH = FutexHistory
  import opened Locktest
  import opened LocktestRuns
  import M = Mutex
  import MT = MutexTrace
  import B = Barrier
  import BT = BarrierTrace

  /** What main does; `first` tells barrier_before from barrier_after. */
  datatype Act =
    | Creates(ok: bool)
    | CallsWait(first: bool)
    | WaitReturns(first: bool)
    | Samples
    | Opens(first: bool, value: int)
    | WakesAll(first: bool)
    | Joins(t: nat)
    | Returns(code: int)

  // ---------------------------------------------------------------- the code of main

  function JoinsUp(i: nat, n: nat): seq<Act>
    decreases n - i
  {
    if i < n then [Joins(i)] + JoinsUp(i + 1, n) else [Returns(RET_PASS)]
  }

  function JoinsDown(i: nat): seq<Act> {
    if i > 0 then [Joins(i - 1)] + JoinsDown(i - 1) else [Returns(RET_ERROR)]
  }

  /** What main does after all creations have succeeded: step k of ten, then the joins. */
  function BodyStep(k: nat): Act {
    match k
    case 0 => CallsWait(true)
    case 1 => WaitReturns(true)
    case 2 => Samples
    case 3 => Opens(true, 1)
    case 4 => WakesAll(true)
    case 5 => CallsWait(false)
    case 6 => WaitReturns(false)
    case 7 => Samples
    case 8 => Opens(false, 1)
    case _ => WakesAll(false)
  }

  function Body(n: nat, k: nat): seq<Act>
    decreases 10 - k
  {
    if k < 10 then [BodyStep(k)] + Body(n, k + 1) else JoinsUp(0, n)
  }

  /** After the creation of worker i has failed: two steps, then the joins. */
  function Abort(i: nat, k: nat): seq<Act>
    decreases 2 - k
  {
    if k == 0 then [Opens(true, -1)] + Abort(i, 1) else if k == 1 then [WakesAll(true)] + Abort(i, 2) else JoinsDown(i)
  }

  /** All that main does with n workers, from the creation of worker i on, if the creation of worker
      f is the first to fail; f == n if none does. */
  function Text(n: nat, i: nat, f: nat): seq<Act>
    decreases f - i
  {
    if i < f then [Creates(true)] + Text(n, i + 1, f)
    else if f < n then [Creates(false)] + Abort(f, 0)
    else Body(n, 0)
  }

  // ---------------------------------------------------------------- the log of main

  function AtBarrier(b: B.State, e: B.Event, first: bool): seq<Act> {
    match e
    case Begin => [CallsWait(first)]
    case Open(v) => [Opens(first, v)]
    case Main =>
      if b.main == B.Waking then [WakesAll(first)]
      else if b.main == B.Reading && AsInt(b.threads) <= 0 then [WaitReturns(first)]
      else []
    case Worker(_) => []
    case SpuriousWorker(_) => []
    case SpuriousMain => []
  }

  function MainDoes(s: State, e: Event): seq<Act>
    requires Enabled(s, e)
  {
    match e
    case Lock(_) => []
    case First(b) => AtBarrier(s.first, b, true)
    case Second(b) => AtBarrier(s.second, b, false)
    case Create(ok) => [Creates(ok)]
    case Sample => [Samples]
    case Join => [Joins(if s.main == Joining then s.next else s.next - 1)]
    case Proceed =>
      if Apply(s, e).main.Returned? then [Returns(Apply(s, e).main.code)] else []
  }

  function MainLog(s: State, es: seq<Event>): seq<Act>
    requires Valid(s, es)
    decreases |es|
  {
    if es == [] then [] else MainDoes(s, es[0]) + MainLog(Apply(s, es[0]), es[1..])
  }

  /** How far main is with a barrier that it waits for, respectively opens. */
  function Opened(m: B.MPc): nat {
    if m == B.Waking then 1 else if m == B.Gone then 2 else 0
  }

  function Awaited(m: B.MPc): nat {
    if m == B.Ready then 1 else 0
  }

  /** What is left to do once all creations are behind. */
  function Left(s: State): seq<Act> {
    match s.main
    case Creating => []
    case InBefore => Body(s.n, 1 + Awaited(s.first.main))
    case Unblocking => Body(s.n, 3 + Opened(s.first.main))
    case InAfter => Body(s.n, 6 + Awaited(s.second.main))
    case Finishing => Body(s.n, 8 + Opened(s.second.main))
    case Joining => JoinsUp(s.next, s.n)
    case Aborting => Abort(s.created, Opened(s.first.main))
    case Cleanup => JoinsDown(s.next)
    case Returned(_) => []
  }

  /** What main does at a barrier takes it on there; all else leaves it where it is. */
  lemma BarrierForward(b: B.State, e: B.Event, first: bool)
    requires B.Enabled(b, e)
    ensures var (m, m') := (b.main, B.Apply(b, e).main);
            match e
            case Begin => m == B.Idle && Awaited(m') == 0
            case Open(_) => m in {B.Idle, B.Ready} && m' == B.Waking
            case Main =>
              if AtBarrier(b, e, first) == [WakesAll(first)] then m == B.Waking && m' == B.Gone
              else if AtBarrier(b, e, first) == [WaitReturns(first)] then m == B.Reading && m' == B.Ready
              else AtBarrier(b, e, first) == [] && Opened(m') == Opened(m) == 0 && Awaited(m') == Awaited(m)
            case Worker(_) => Opened(m') == Opened(m) && Awaited(m') == Awaited(m)
            case SpuriousWorker(_) => Opened(m') == Opened(m) && Awaited(m') == Awaited(m)
            case SpuriousMain => Opened(m') == Opened(m) && Awaited(m') == Awaited(m)
  {
  }

  lemma FirstForward(s: State, b: B.Event)
    requires MainInv(s) && Enabled(s, First(b)) && s.main != Creating
    ensures AtBarrier(s.first, b, true) + Left(Apply(s, First(b))) == Left(s)
  {
    hide B.Apply, B.Enabled, JoinsUp, JoinsDown;
    BarrierForward(s.first, b, true);
    assert Body(s.n, 1) == [WaitReturns(true)] + Body(s.n, 2);
    assert Body(s.n, 3) == [Opens(true, 1)] + Body(s.n, 4);
    assert Body(s.n, 4) == [WakesAll(true)] + Body(s.n, 5);
    assert Abort(s.created, 0) == [Opens(true, -1)] + Abort(s.created, 1);
    assert Abort(s.created, 1) == [WakesAll(true)] + Abort(s.created, 2);
    hide Body, Abort;
  }

  lemma SecondForward(s: State, b: B.Event)
    requires MainInv(s) && Enabled(s, Second(b)) && s.main != Creating
    ensures AtBarrier(s.second, b, false) + Left(Apply(s, Second(b))) == Left(s)
  {
    hide B.Apply, B.Enabled, JoinsUp, JoinsDown, Abort;
    BarrierForward(s.second, b, false);
    assert Body(s.n, 5) == [CallsWait(false)] + Body(s.n, 6);
    assert Body(s.n, 6) == [WaitReturns(false)] + Body(s.n, 7);
    assert Body(s.n, 8) == [Opens(false, 1)] + Body(s.n, 9);
    assert Body(s.n, 9) == [WakesAll(false)] + Body(s.n, 10);
    hide Body;
  }

  lemma SampleForward(s: State)
    requires MainInv(s) && Enabled(s, Sample)
    ensures [Samples] + Left(Apply(s, Sample)) == Left(s)
  {
    assert Body(s.n, 2) == [Samples] + Body(s.n, 3);
    assert Body(s.n, 7) == [Samples] + Body(s.n, 8);
    hide Body, Abort;
  }

  lemma ProceedForward(s: State)
    requires MainInv(s) && Enabled(s, Proceed)
    ensures MainDoes(s, Proceed) + Left(Apply(s, Proceed)) == Left(s)
  {
    TailUnfolds(s);
    hide Body, Abort;
  }

  lemma OwnForward(s: State, e: Event)
    requires MainInv(s) && Enabled(s, e) && s.main != Creating && !e.First? && !e.Second?
    ensures MainDoes(s, e) + Left(Apply(s, e)) == Left(s)
  {
    hide M.Apply, M.Enabled, Body, Abort;
    if e == Sample {
      SampleForward(s);
    } else if e == Proceed {
      ProceedForward(s);
    } else if e.Lock? {
      assert Left(Apply(s, e)) == Left(s);
    }
    hide MainInv;
  }

  lemma TailUnfolds(s: State)
    ensures Body(s.n, 10) == JoinsUp(0, s.n) && Abort(s.created, 2) == JoinsDown(s.created)
  {
  }

  /** Each event takes main one call further in its code, or leaves it where it is. */
  lemma StepForward(s: State, e: Event)
    requires Inv(s) && Enabled(s, e) && s.main != Creating
    ensures MainDoes(s, e) + Left(Apply(s, e)) == Left(s)
  {
    hide Parts, Order, MainInv, Stored, Joined, Apply, Left;
    if e.First? {
      FirstForward(s, e.b);
    } else if e.Second? {
      SecondForward(s, e.b);
    } else {
      OwnForward(s, e);
    }
  }

  lemma {:induction false} RunForward(s: State, es: seq<Event>)
    requires Inv(s) && Valid(s, es) && s.main != Creating
    ensures MainLog(s, es) + Left(Exec(s, es)) == Left(s) && Exec(s, es).main != Creating
    decreases |es|
  {
    hide Inv, Apply, Enabled, Left, MainDoes;
    if es != [] {
      var e := es[0];
      InvKept(s, e);
      StepForward(s, e);
      CreatedBehind(s, e);
      RunForward(Apply(s, e), es[1..]);
      assert MainLog(s, es) + Left(Exec(s, es)) == MainDoes(s, e) + (MainLog(Apply(s, e), es[1..]) + Left(Exec(s, es)));
    }
  }

  lemma CreatedBehind(s: State, e: Event)
    requires Enabled(s, e) && s.main != Creating
    ensures Apply(s, e).main != Creating
  {
  }

  /** What an event can be while main creates workers. */
  lemma CreatingStep(s: State, e: Event)
    requires Inv(s) && Enabled(s, e) && s.main == Creating
    ensures var s' := Apply(s, e);
            if e == Create(true) then
              MainDoes(s, e) == [Creates(true)] && s'.main == Creating && s'.created == s.created + 1
            else if e == Create(false) then
              && MainDoes(s, e) == [Creates(false)] && s.created < s.n
              && s'.main == Aborting && Left(s') == Abort(s.created, 0)
            else if e == First(B.Begin) then
              MainDoes(s, e) == [CallsWait(true)] && s.created == s.n && s'.main == InBefore && Left(s') == Body(s.n, 1)
            else MainDoes(s, e) == [] && s'.main == Creating && s'.created == s.created
  {
    hide Parts, Order, Stored, Joined;
  }

  lemma TextUnfolds(n: nat, i: nat, f: nat)
    requires i <= f <= n
    ensures i < f ==> Text(n, i, f) == [Creates(true)] + Text(n, i + 1, f)
    ensures i == f < n ==> Text(n, i, f) == [Creates(false)] + Abort(f, 0)
    ensures i == f == n ==> Text(n, i, f) == [CallsWait(true)] + Body(n, 1)
  {
    assert Body(n, 0) == [CallsWait(true)] + Body(n, 1);
  }

  lemma {:induction false} MainOrder(s: State, es: seq<Event>) returns (f: nat)
    requires Inv(s) && Valid(s, es) && s.main == Creating
    ensures s.created <= f <= s.n && MainLog(s, es) <= Text(s.n, s.created, f)
    ensures Exec(s, es).main != Creating ==> MainLog(s, es) + Left(Exec(s, es)) == Text(s.n, s.created, f)
    decreases |es|
  {
    hide Inv, Apply, Enabled, Left, MainDoes, Abort, Body, Text;
    CreatedSome(s);
    f := s.n;
    if es != [] {
      var e, s' := es[0], Apply(s, es[0]);
      InvKept(s, e);
      CreatingStep(s, e);
      if s'.main == Creating {
        f := MainOrder(s', es[1..]);
      } else {
        RunForward(s', es[1..]);
        f := s.created;
      }
      TextUnfolds(s.n, s.created, f);
      assert MainLog(s, es) == MainDoes(s, e) + MainLog(s', es[1..]);
      var left := Left(Exec(s, es));
      assert MainLog(s, es) + left == MainDoes(s, e) + (MainLog(s', es[1..]) + left);
      hide MainLog, Valid;
    }
  }

  lemma CreatedSome(s: State)
    requires Inv(s)
    ensures s.created <= s.n
  {
  }

  // ---------------------------------------------------------------- the parts

  function FirstEvents(es: seq<Event>): seq<B.Event> {
    if es == [] then [] else (if es[0].First? then [es[0].b] else []) + FirstEvents(es[1..])
  }

  function SecondEvents(es: seq<Event>): seq<B.Event> {
    if es == [] then [] else (if es[0].Second? then [es[0].b] else []) + SecondEvents(es[1..])
  }

  lemma PartsFollow(s: State, e: Event)
    requires Enabled(s, e)
    ensures Apply(s, e).first == if e.First? then B.Apply(s.first, e.b) else s.first
    ensures Apply(s, e).second == if e.Second? then B.Apply(s.second, e.b) else s.second
    ensures (e.First? ==> B.Enabled(s.first, e.b)) && (e.Second? ==> B.Enabled(s.second, e.b))
  {
  }

  lemma {:induction false} FirstRun(s: State, es: seq<Event>)
    requires Valid(s, es)
    ensures BT.Valid(s.first, FirstEvents(es))
    decreases |es|
  {
    hide Apply, Enabled, B.Apply, B.Enabled;
    if es != [] {
      PartsFollow(s, es[0]);
      FirstRun(Apply(s, es[0]), es[1..]);
      if es[0].First? {
        assert FirstEvents(es)[1..] == FirstEvents(es[1..]);
      } else {
        assert FirstEvents(es) == FirstEvents(es[1..]);
      }
    }
  }

  lemma {:induction false} SecondRun(s: State, es: seq<Event>)
    requires Valid(s, es)
    ensures BT.Valid(s.second, SecondEvents(es))
    decreases |es|
  {
    hide Apply, Enabled, B.Apply, B.Enabled;
    if es != [] {
      PartsFollow(s, es[0]);
      SecondRun(Apply(s, es[0]), es[1..]);
      if es[0].Second? {
        assert SecondEvents(es)[1..] == SecondEvents(es[1..]);
      } else {
        assert SecondEvents(es) == SecondEvents(es[1..]);
      }
    }
  }

  /** All threads follow their code at a barrier, and its words have histories. */
  predicate BarrierOrder(n: nat, spurious: nat, es: seq<B.Event>) {
    && n < TWO_32 && BT.Valid(B.Fresh(n, spurious), es)
    && var tr := BT.Trace(B.Fresh(n, spurious), es);
       && BT.History(BT.Words2(FH.Word(n, {}), FH.Word(0, {})), tr)
       && forall id :: 0 <= id <= n ==>
            BT.Code(n, id, LogOf(tr, id), BT.Ended(BT.Exec(B.Fresh(n, spurious), es), id))
  }

  predicate MutexOrder(m: M.State, n: nat, loops: nat, es: seq<M.Event>) {
    && M.Valid(m, es)
    && MT.History(FH.Word(0, {}), MT.Trace(m, es))
    && |m.ts| == n && forall t :: 0 <= t < n ==>
         MT.Rounds(loops, LogOf(MT.Trace(m, es), t), M.Exec(m, es).ts[t].pc == M.Done)
  }

  /** The model is the code, on every run of `locktest`: main makes the calls of its text in order, up
      to the first creation that fails and then those of the abort path, all of them when it has
      returned; each worker does what barrier_sync does at either barrier and what futex_wait_test does
      at the mutex; main does what barrier_wait and barrier_unblock do; and each of the five words has a
      history. */
  lemma ProgramOrder(iterations: nat, threads: nat, b0: nat, b1: nat, b2: nat, es: seq<Event>) returns (f: nat)
    requires 1 <= threads <= INT_MAX && Valid(Start(iterations, threads, b0, b1, b2), es)
    ensures var s := Start(iterations, threads, b0, b1, b2);
            && f <= threads && MainLog(s, es) <= Text(threads, 0, f)
            && (Exec(s, es).main.Returned? ==> MainLog(s, es) == Text(threads, 0, f))
    ensures BarrierOrder(threads, b1, FirstEvents(es)) && BarrierOrder(threads, b2, SecondEvents(es))
    ensures MutexOrder(Start(iterations, threads, b0, b1, b2).mutex, threads, Quotient(iterations, threads),
                       MutexEvents(es))
  {
    hide Inv, Valid, Exec, BarrierOrder, MutexOrder, Text;
    var s := Start(iterations, threads, b0, b1, b2);
    StartInv(iterations, threads, b0, b1, b2);
    f := MainOrder(s, es);
    AtEnd(s, es);
    FirstRun(s, es);
    SecondRun(s, es);
    BarrierFollows(threads, b1, FirstEvents(es));
    BarrierFollows(threads, b2, SecondEvents(es));
    MutexFollows(s, es);
  }

  lemma AtEnd(s: State, es: seq<Event>)
    requires Valid(s, es)
    ensures Exec(s, es).main.Returned? ==>
              Exec(s, es).main != Creating && MainLog(s, es) + Left(Exec(s, es)) == MainLog(s, es)
  {
    hide Exec, MainLog, Valid;
  }

  lemma BarrierFollows(n: nat, spurious: nat, es: seq<B.Event>)
    requires 1 <= n <= INT_MAX && BT.Valid(B.Fresh(n, spurious), es)
    ensures BarrierOrder(n, spurious, es)
  {
    BT.ProgramOrder(n, spurious, es);
    hide BT.Valid, BT.History, BT.Code, BT.Exec, BT.Trace;
  }

  lemma MutexFollows(s: State, es: seq<Event>)
    requires M.Init(s.mutex, s.n, s.loops) && Valid(s, es)
    ensures MutexOrder(s.mutex, s.n, s.loops, MutexEvents(es))
  {
    MutexRun(s, es);
    MT.ProgramOrder(s.mutex, s.n, s.loops, MutexEvents(es));
    hide M.Valid, MT.History, MT.Rounds, M.Exec, MT.Trace;
  }

  // ---------------------------------------------------------------- nothing is missing

  /** The barrier alone allows this; workers come to it created, respectively tested. */
  predicate FirstAllows(s: State, b: B.Event) {
    B.Enabled(s.first, b) && !b.Begin? && !b.Open? && (b.Worker? ==> b.t < s.created)
  }

  predicate SecondAllows(s: State, b: B.Event) {
    B.Enabled(s.second, b) && !b.Begin? && !b.Open? && (b.Worker? ==> Admitted(s, b.t) && Tested(s, b.t))
  }

  /** Whatever a barrier alone allows to main, or to a worker that has come to it, the whole program
      allows, spurious returns included; the same holds of the mutex; and each creation may fail. */
  lemma PartsPossible(s: State)
    requires Inv(s)
    ensures forall b :: FirstAllows(s, b) ==> Enabled(s, First(b))
    ensures forall b :: SecondAllows(s, b) ==> Enabled(s, Second(b))
    ensures forall m :: M.Enabled(s.mutex, m) && (!m.Spurious? ==> Admitted(s, m.t)) ==> Enabled(s, Lock(m))
    ensures forall ok :: s.main == Creating && s.created < s.n ==> Enabled(s, Create(ok))
  {
    forall b | FirstAllows(s, b) ensures Enabled(s, First(b)) {
      if b.SpuriousWorker? {
        assert WorkerOrder(s, b.t);
      }
    }
    forall b | SecondAllows(s, b) ensures Enabled(s, Second(b)) {
    }
    forall m | M.Enabled(s.mutex, m) && (!m.Spurious? ==> Admitted(s, m.t)) ensures Enabled(s, Lock(m)) {
      assert WorkerOrder(s, m.t);
    }
  }
}
