/** The barrier model against the text of performance/harness.h: the accesses of workers and main
    are those of barrier_sync, barrier_wait and barrier_unblock in program order, and together they
    are histories of the two futex words. */
module BarrierTrace {
  import opened Words
  import opened Sets
  import opened FutexHistory
  import opened Traces
  import opened Barrier

  /** An access to one of the two words. */
  datatype Touch = Threads(a: Access) | Unblock(a: Access)

  // ---------------------------------------------------------------- the code

  // As for the mutex, each predicate holds of the accesses possible from that point on: all up to
  // some moment, or, if `done`, all up to the end.

  /** barrier_sync: futex_dec, and the test of the countdown */
  predicate SyncCode(log: seq<Touch>, done: bool)
    decreases |log|, 0
  {
    if log == [] then !done else log[0].Threads? && log[0].a.Dec? && TestCode(log[1..], done)
  }

  predicate TestCode(log: seq<Touch>, done: bool)
    decreases |log|, 0
  {
    if log == [] then !done
    else
      log[0].Threads? && log[0].a.Load? &&
      if log[0].a.seen == 0 then WakeMainCode(log[1..], done) else CheckCode(log[1..], done)
  }

  predicate WakeMainCode(log: seq<Touch>, done: bool)
    decreases |log|, 0
  {
    if log == [] then !done else log[0].Threads? && Wakes(log[0].a, 1) && CheckCode(log[1..], done)
  }

  /** while (barrier->unblock == 0) */
  predicate CheckCode(log: seq<Touch>, done: bool)
    decreases |log|, 0
  {
    if log == [] then !done
    else
      log[0].Unblock? && log[0].a.Load? &&
      if log[0].a.seen == 0 then WaitCode(log[1..], done) else ReturnCode(log[1..], done)
  }

  predicate WaitCode(log: seq<Touch>, done: bool)
    decreases |log|, 0
  {
    if log == [] then !done else log[0].Unblock? && Waits(log[0].a, 0) && BackCode(log[0].a.blocks, log[1..], done)
  }

  predicate BackCode(blocked: bool, log: seq<Touch>, done: bool)
    decreases |log|, 1
  {
    if blocked && log != [] && log[0] == Unblock(Back) then CheckCode(log[1..], done) else CheckCode(log, done)
  }

  /** return barrier->unblock */
  predicate ReturnCode(log: seq<Touch>, done: bool)
    decreases |log|, 0
  {
    if log == [] then !done else log[0].Unblock? && log[0].a.Load? && log[1..] == [] && done
  }

  /** main: barrier_wait and then barrier_unblock, or barrier_unblock alone */
  predicate MainCode(log: seq<Touch>, done: bool)
    decreases |log|, 1
  {
    if log == [] then !done else if log[0].Threads? then CountCode(log, done) else OpenCode(log, done)
  }

  /** while ((threads = barrier->threads) > 0) */
  predicate CountCode(log: seq<Touch>, done: bool)
    decreases |log|, 0
  {
    if log == [] then !done
    else
      log[0].Threads? && log[0].a.Load? &&
      var threads := AsInt(log[0].a.seen);
      if threads > 0 then MainWaitCode(threads, log[1..], done) else OpenCode(log[1..], done)
  }

  predicate MainWaitCode(threads: int, log: seq<Touch>, done: bool)
    decreases |log|, 0
  {
    if log == [] then !done
    else log[0].Threads? && Waits(log[0].a, AsU32(threads)) && MainBackCode(log[0].a.blocks, log[1..], done)
  }

  predicate MainBackCode(blocked: bool, log: seq<Touch>, done: bool)
    decreases |log|, 1
  {
    if blocked && log != [] && log[0] == Threads(Back) then CountCode(log[1..], done) else CountCode(log, done)
  }

  /** barrier_unblock: the store and the wake of everybody */
  predicate OpenCode(log: seq<Touch>, done: bool)
    decreases |log|, 0
  {
    if log == [] then !done else log[0].Unblock? && log[0].a.Store? && WakeAllCode(log[1..], done)
  }

  predicate WakeAllCode(log: seq<Touch>, done: bool)
    decreases |log|, 0
  {
    if log == [] then !done else log[0].Unblock? && Wakes(log[0].a, INT_MAX) && log[1..] == [] && done
  }

  // ---------------------------------------------------------------- the log of a run

  /** Worker t has id t, main the id |ws|. */
  function Actor(s: State, e: Event): nat {
    match e
    case Worker(t) => t
    case SpuriousWorker(t) => t
    case Main => |s.ws|
    case Begin => |s.ws|
    case Open(_) => |s.ws|
    case SpuriousMain => |s.ws|
  }

  function Asleeps(s: State): set<nat> {
    set t: nat | t < |s.ws| && s.ws[t] == Asleep
  }

  function MainAsleep(s: State): set<nat> {
    if s.main == Sleeping then {|s.ws|} else {}
  }

  /** The access made in an event; the call of barrier_wait itself makes none. */
  function Touches(s: State, e: Event): seq<Touch>
    requires Enabled(s, e)
  {
    match e
    case Worker(t) =>
      (match s.ws[t]
       case Away => [Threads(Dec(AsU32(s.threads - 1)))]
       case Test => [Threads(Load(s.threads))]
       case WakeMain => [Threads(FutexWake(1, MainAsleep(s)))]
       case Check => [Unblock(Load(s.unblock))]
       case Wait => [Unblock(FutexWait(0, s.unblock == 0))]
       case Return => [Unblock(Load(s.unblock))])
    case Main =>
      (match s.main
       case Reading => [Threads(Load(s.threads))]
       case Waiting(seen) => [Threads(FutexWait(AsU32(seen), s.threads == AsU32(seen)))]
       case Waking => [Unblock(FutexWake(INT_MAX, Asleeps(s)))])
    case Begin => []
    case Open(v) => [Unblock(Store(AsU32(v)))]
    case SpuriousWorker(_) => [Unblock(Back)]
    case SpuriousMain => [Threads(Back)]
  }

  function Emits(s: State, e: Event): seq<Did<Touch>>
    requires Enabled(s, e)
  {
    if Touches(s, e) == [] then [] else [Did(Actor(s, e), Touches(s, e)[0])]
  }

  predicate Valid(s: State, es: seq<Event>)
    decreases |es|
  {
    es == [] || (Enabled(s, es[0]) && Valid(Apply(s, es[0]), es[1..]))
  }

  function Exec(s: State, es: seq<Event>): (s': State)
    requires Valid(s, es)
    ensures |s'.ws| == |s.ws|
    decreases |es|
  {
    if es == [] then s else Exec(Apply(s, es[0]), es[1..])
  }

  function Trace(s: State, es: seq<Event>): seq<Did<Touch>>
    requires Valid(s, es)
    decreases |es|
  {
    if es == [] then [] else Emits(s, es[0]) + Trace(Apply(s, es[0]), es[1..])
  }

  // ---------------------------------------------------------------- program order

  predicate WorkerAhead(pc: WPc, log: seq<Touch>, done: bool) {
    match pc
    case Away => SyncCode(log, done)
    case Test => TestCode(log, done)
    case WakeMain => WakeMainCode(log, done)
    case Check => CheckCode(log, done)
    case Wait => WaitCode(log, done)
    case Asleep => BackCode(true, log, done)
    case Return => ReturnCode(log, done)
    case Left(_) => log == [] && done
  }

  predicate MainAhead(pc: MPc, log: seq<Touch>, done: bool) {
    match pc
    case Idle => MainCode(log, done)
    case Reading => CountCode(log, done)
    case Waiting(seen) => MainWaitCode(seen, log, done)
    case Sleeping => MainBackCode(true, log, done)
    case Ready => OpenCode(log, done)
    case Waking => WakeAllCode(log, done)
    case Gone => log == [] && done
  }

  predicate Ahead(s: State, id: nat, log: seq<Touch>, done: bool) {
    if id < |s.ws| then WorkerAhead(s.ws[id], log, done) else MainAhead(s.main, log, done)
  }

  lemma TouchAhead(s: State, e: Event, log: seq<Touch>, done: bool)
    requires Enabled(s, e) && Touches(s, e) != [] && log != [] && log[0] == Touches(s, e)[0]
    requires Ahead(Apply(s, e), Actor(s, e), log[1..], done)
    ensures Ahead(s, Actor(s, e), log, done)
  {
  }

  lemma ActorAhead(s: State, e: Event, rest: seq<Touch>, done: bool)
    requires Enabled(s, e) && Ahead(Apply(s, e), Actor(s, e), rest, done)
    ensures Ahead(s, Actor(s, e), LogOf(Emits(s, e), Actor(s, e)) + rest, done)
  {
    if e == Begin {
      assert LogOf(Emits(s, e), Actor(s, e)) + rest == rest;
    } else {
      var a := Touches(s, e)[0];
      LogOfOne(Did(Actor(s, e), a), Actor(s, e));
      assert ([a] + rest)[0] == a && ([a] + rest)[1..] == rest;
      TouchAhead(s, e, [a] + rest, done);
    }
  }

  /** Others leave a thread where it is, but for a wake-up. */
  lemma OtherAhead(s: State, e: Event, id: nat, rest: seq<Touch>, done: bool)
    requires Enabled(s, e) && id != Actor(s, e) && id <= |s.ws| && Ahead(Apply(s, e), id, rest, done)
    ensures Ahead(s, id, LogOf(Emits(s, e), id) + rest, done)
  {
    if Touches(s, e) != [] {
      LogOfOne(Did(Actor(s, e), Touches(s, e)[0]), id);
    }
    assert LogOf(Emits(s, e), id) + rest == rest;
    OthersStay(s, e, id);
  }

  lemma OthersStay(s: State, e: Event, id: nat)
    requires Enabled(s, e) && id != Actor(s, e) && id <= |s.ws|
    ensures var s' := Apply(s, e);
            if id < |s.ws| then s'.ws[id] == s.ws[id] || (s.ws[id] == Asleep && s'.ws[id] == Check)
            else s'.main == s.main || (s.main == Sleeping && s'.main == Reading)
  {
  }

  /** A worker has returned from barrier_sync, respectively main from barrier_unblock. */
  predicate Ended(s: State, id: nat) {
    if id < |s.ws| then s.ws[id].Left? else s.main == Gone
  }

  lemma {:induction false} RunAhead(s: State, es: seq<Event>, id: nat)
    requires Valid(s, es) && id <= |s.ws|
    ensures Ahead(s, id, LogOf(Trace(s, es), id), Ended(Exec(s, es), id))
    decreases |es|
  {
    hide Emits, Apply, Ahead, Ended;
    var done := Ended(Exec(s, es), id);
    if es == [] {
      NothingYet(s, id);
    } else {
      var e := es[0];
      var rest := Trace(Apply(s, e), es[1..]);
      RunAhead(Apply(s, e), es[1..], id);
      LogOfConcat(Emits(s, e), rest, id);
      if id == Actor(s, e) {
        ActorAhead(s, e, LogOf(rest, id), done);
      } else {
        OtherAhead(s, e, id, LogOf(rest, id), done);
      }
    }
  }

  lemma NothingYet(s: State, id: nat)
    ensures Ahead(s, id, [], Ended(s, id))
  {
  }

  // ---------------------------------------------------------------- the two words

  datatype Words2 = Words2(threads: Word, unblock: Word)

  predicate Allowed2(m: Words2, id: nat, x: Touch) {
    if x.Threads? then Allowed(m.threads, id, x.a) else Allowed(m.unblock, id, x.a)
  }

  function After2(m: Words2, id: nat, x: Touch): Words2 {
    if x.Threads? then m.(threads := After(m.threads, id, x.a)) else m.(unblock := After(m.unblock, id, x.a))
  }

  predicate History(m: Words2, tr: seq<Did<Touch>>)
    decreases |tr|
  {
    tr == [] || (Allowed2(m, tr[0].t, tr[0].a) && History(After2(m, tr[0].t, tr[0].a), tr[1..]))
  }

  function Memory(s: State): Words2 {
    Words2(Word(s.threads, MainAsleep(s)), Word(s.unblock, Asleeps(s)))
  }

  lemma SleepersFollow(s: State, e: Event)
    requires Enabled(s, e)
    ensures Asleeps(Apply(s, e)) ==
            match e
            case Worker(t) => if s.ws[t] == Wait && s.unblock == 0 then Asleeps(s) + {t} else Asleeps(s)
            case SpuriousWorker(t) => Asleeps(s) - {t}
            case Main => if s.main == Waking then {} else Asleeps(s)
            case _ => Asleeps(s)
  {
  }

  lemma SleepersBounded(s: State)
    requires |s.ws| <= INT_MAX
    ensures |Asleeps(s)| <= INT_MAX
  {
    SubsetSize(Asleeps(s), Range(|s.ws|));
    RangeSize(|s.ws|);
  }

  predicate OneStep(s: State, e: Event)
    requires Enabled(s, e)
  {
    var (m, m', did) := (Memory(s), Memory(Apply(s, e)), Touches(s, e));
    if did == [] then m' == m
    else Allowed2(m, Actor(s, e), did[0]) && m' == After2(m, Actor(s, e), did[0])
  }

  lemma WorkerOnWords(s: State, t: nat)
    requires Enabled(s, Worker(t))
    ensures OneStep(s, Worker(t))
  {
    SleepersFollow(s, Worker(t));
    hide Asleeps;
    assert MainAsleep(s) - MainAsleep(s) == {};
    assert |MainAsleep(s)| <= 1;
    assert t in Asleeps(s) <==> s.ws[t] == Asleep by {
      InAsleeps(s, t);
    }
  }

  lemma InAsleeps(s: State, t: nat)
    ensures t in Asleeps(s) <==> t < |s.ws| && s.ws[t] == Asleep
  {
  }

  lemma MainOnWords(s: State, e: Event)
    requires Enabled(s, e) && !e.Worker? && |s.ws| <= INT_MAX
    ensures OneStep(s, e)
  {
    SleepersFollow(s, e);
    SleepersBounded(s);
    InAsleeps(s, Actor(s, e));
    hide Asleeps;
    assert {|s.ws|} - {|s.ws|} == {} && Asleeps(s) - Asleeps(s) == {};
  }

  /** Each event is one step of one word, or touches neither. */
  lemma EventOnWords(s: State, e: Event)
    requires Inv(s) && Enabled(s, e)
    ensures OneStep(s, e)
  {
    hide OneStep;
    if e.Worker? {
      WorkerOnWords(s, e.t);
    } else {
      MainOnWords(s, e);
    }
  }

  lemma {:induction false} RunOnWords(s: State, es: seq<Event>)
    requires Inv(s) && Valid(s, es)
    ensures History(Memory(s), Trace(s, es))
    decreases |es|
  {
    hide Inv, Apply, Enabled, Touches, Allowed2, After2, Memory;
    if es != [] {
      var e := es[0];
      EventOnWords(s, e);
      InvKept(s, e);
      RunOnWords(Apply(s, e), es[1..]);
      var did, rest := Emits(s, e), Trace(Apply(s, e), es[1..]);
      if did == [] {
        assert did + rest == rest;
      } else {
        assert (did + rest)[0] == did[0] && (did + rest)[1..] == rest;
      }
    }
  }

  /** The model is the code, on every run of a fresh barrier: the accesses are histories of a word
      that starts at n and a word that starts at 0, each worker does what barrier_sync does, and main
      does what barrier_wait and barrier_unblock do, up to some point or, if they have returned, to the
      end. */
  lemma ProgramOrder(n: nat, spurious: nat, es: seq<Event>)
    requires 1 <= n <= INT_MAX && Valid(Fresh(n, spurious), es)
    ensures History(Words2(Word(n, {}), Word(0, {})), Trace(Fresh(n, spurious), es))
    ensures forall id :: 0 <= id <= n ==>
              Code(n, id, LogOf(Trace(Fresh(n, spurious), es), id), Ended(Exec(Fresh(n, spurious), es), id))
  {
    hide Exec, Ended;
    var s := Fresh(n, spurious);
    FreshInv(n, spurious);
    RunOnWords(s, es);
    assert Memory(s) == Words2(Word(n, {}), Word(0, {}));
    forall id | 0 <= id <= n ensures Code(n, id, LogOf(Trace(s, es), id), Ended(Exec(s, es), id)) {
      RunAhead(s, es, id);
    }
  }

  /** The code of thread id: the workers, and main. */
  predicate Code(n: nat, id: nat, log: seq<Touch>, done: bool) {
    if id < n then SyncCode(log, done) else MainCode(log, done)
  }

  // ---------------------------------------------------------------- nothing is missing

  lemma FullWake(woken: set<nat>, sleepers: set<nat>, limit: nat)
    requires woken <= sleepers && |woken| == if limit < |sleepers| then limit else |sleepers|
    ensures |sleepers| <= limit ==> woken == sleepers
  {
    UnionSize(woken, sleepers - woken);
    assert sleepers == woken + (sleepers - woken);
  }

  lemma WorkerPossible(s: State, t: nat, x: Touch, done: bool) returns (e: Event)
    requires t < |s.ws| && WorkerAhead(s.ws[t], [x], done) && Allowed2(Memory(s), t, x)
    requires x.a == Back ==> s.spurious > 0
    ensures Enabled(s, e) && Actor(s, e) == t && Touches(s, e) == [x]
  {
    InAsleeps(s, t);
    hide Asleeps;
    if s.ws[t] == Asleep {
      assert x == Unblock(Back) || CheckCode([x], done);
      e := SpuriousWorker(t);
    } else {
      e := Worker(t);
      if s.ws[t] == WakeMain {
        assert |MainAsleep(s)| <= 1;
        FullWake(x.a.woken, MainAsleep(s), 1);
      }
    }
  }

  lemma MainPossible(s: State, x: Touch, done: bool) returns (e: Event)
    requires Inv(s) && MainAhead(s.main, [x], done) && Allowed2(Memory(s), |s.ws|, x)
    requires (x.a == Back ==> s.spurious > 0) && (x.a.Store? ==> x.a.value != 0)
    ensures Enabled(s, e) && Actor(s, e) == |s.ws|
    ensures Touches(s, e) == if s.main == Idle && x.Threads? then [] else [x]
  {
    match s.main
    case Idle => e := if x.Threads? then Begin else OpenWith(s, x.a.value);
    case Ready => e := OpenWith(s, x.a.value);
    case Sleeping =>
      assert x == Threads(Back) || CountCode([x], done);
      e := SpuriousMain;
    case Waking =>
      SleepersBounded(s);
      FullWake(x.a.woken, Asleeps(s), INT_MAX);
      e := Main;
    case Reading => e := Main;
    case Waiting(_) => e := Main;
  }

  function OpenWith(s: State, value: u32): (e: Event)
    requires s.main in {Idle, Ready} && value != 0
    ensures Enabled(s, e) && e.Open? && Touches(s, e) == [Unblock(Store(value))]
  {
    SignedRoundTrip(0, value);
    Open(AsInt(value))
  }

  /** The model leaves nothing out: an access that comes next in the code of a thread and that the two
      words allow, be it the last one or not, is made by some event, after the call of barrier_wait at
      most. */
  lemma AccessPossible(s: State, id: nat, x: Touch, done: bool) returns (e: Event)
    requires Inv(s) && id <= |s.ws| && Ahead(s, id, [x], done) && Allowed2(Memory(s), id, x)
    requires (x.a == Back ==> s.spurious > 0) && (x.a.Store? ==> x.a.value != 0)
    ensures Enabled(s, e) && Actor(s, e) == id
    ensures Touches(s, e) == if s.main == Idle && id == |s.ws| && x.Threads? then [] else [x]
  {
    hide Inv;
    if id < |s.ws| {
      e := WorkerPossible(s, id, x, done);
    } else {
      e := MainPossible(s, x, done);
    }
  }
}
