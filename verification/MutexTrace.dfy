/** The mutex model against the text of performance/futex_wait.c: the accesses of each thread are
    those of its code, in program order and with the branches its `status` demands, and all
    accesses together are a history of one futex word. */
module MutexTrace {
  import opened Words
  import opened FutexHistory
  import opened Traces
  import opened Mutex

  // ---------------------------------------------------------------- the code

  // Each predicate holds of what a thread may have done from that point of the code on: all up to
  // some moment, or, if `done`, all up to its end. `l` counts the rounds after this one.

  /** while (loops--) */
  predicate Rounds(loops: int, log: seq<Access>, done: bool)
    decreases |log|, 2
  {
    if loops == 0 then log == [] else LockCode(loops - 1, log, done)
  }

  /** futex_wait_lock: the first read and the test for 0 */
  predicate LockCode(l: int, log: seq<Access>, done: bool)
    decreases |log|, 1
  {
    if log == [] then !done
    else
      log[0].Load? &&
      var status := AsInt(log[0].seen);
      if status == 0 then TakeCode(l, log[1..], done) else LoopCode(status, l, log[1..], done)
  }

  predicate TakeCode(l: int, log: seq<Access>, done: bool)
    decreases |log|, 0
  {
    if log == [] then !done else Exchanges(log[0], 0, 1) && LoopCode(AsInt(log[0].seen), l, log[1..], done)
  }

  /** while (status != 0), and in it the test for 1 */
  predicate LoopCode(status: int, l: int, log: seq<Access>, done: bool)
    decreases |log|, 2
  {
    if status == 0 then UnlockCode(l, log, done)
    else if status == 1 then UpgradeCode(l, log, done)
    else SleepCode(status, l, log, done)
  }

  predicate UpgradeCode(l: int, log: seq<Access>, done: bool)
    decreases |log|, 0
  {
    if log == [] then !done else Exchanges(log[0], 1, 2) && SleepCode(AsInt(log[0].seen), l, log[1..], done)
  }

  /** if (status != 0): futex_wait and a plain read of the word */
  predicate SleepCode(status: int, l: int, log: seq<Access>, done: bool)
    decreases |log|, 1
  {
    if status != 0 then WaitCode(l, log, done) else RetakeCode(l, log, done)
  }

  predicate WaitCode(l: int, log: seq<Access>, done: bool)
    decreases |log|, 0
  {
    if log == [] then !done else Waits(log[0], 2) && BackCode(log[0].blocks, l, log[1..], done)
  }

  predicate BackCode(blocked: bool, l: int, log: seq<Access>, done: bool)
    decreases |log|, 1
  {
    if blocked && log != [] && log[0] == Back then RereadCode(l, log[1..], done) else RereadCode(l, log, done)
  }

  predicate RereadCode(l: int, log: seq<Access>, done: bool)
    decreases |log|, 0
  {
    if log == [] then !done
    else
      log[0].Load? &&
      var status := AsInt(log[0].seen);
      if status == 0 then RetakeCode(l, log[1..], done) else LoopCode(status, l, log[1..], done)
  }

  predicate RetakeCode(l: int, log: seq<Access>, done: bool)
    decreases |log|, 0
  {
    if log == [] then !done else Exchanges(log[0], 0, 2) && LoopCode(AsInt(log[0].seen), l, log[1..], done)
  }

  /** futex_cmpxchg_unlock: the read and the test for 1 */
  predicate UnlockCode(l: int, log: seq<Access>, done: bool)
    decreases |log|, 0
  {
    if log == [] then !done
    else
      log[0].Load? &&
      var status := AsInt(log[0].seen);
      if status == 1 then ReleaseCode(l, log[1..], done) else HandOverCode(status, l, log[1..], done)
  }

  predicate ReleaseCode(l: int, log: seq<Access>, done: bool)
    decreases |log|, 0
  {
    if log == [] then !done else Exchanges(log[0], 1, 0) && HandOverCode(AsInt(log[0].seen), l, log[1..], done)
  }

  /** if (status == 2): the exchange whose result is ignored, and the wake */
  predicate HandOverCode(status: int, l: int, log: seq<Access>, done: bool)
    decreases |log|, 3
  {
    if status == 2 then DropCode(l, log, done) else Rounds(l, log, done)
  }

  predicate DropCode(l: int, log: seq<Access>, done: bool)
    decreases |log|, 0
  {
    if log == [] then !done else Exchanges(log[0], 2, 0) && WakeCode(l, log[1..], done)
  }

  predicate WakeCode(l: int, log: seq<Access>, done: bool)
    decreases |log|, 0
  {
    if log == [] then !done else Wakes(log[0], 1) && Rounds(l, log[1..], done)
  }

  // ---------------------------------------------------------------- the log of a run

  /** The access made in an event; the loop test makes none. */
  function Emits(s: State, e: Event): seq<Did<Access>>
    requires Enabled(s, e)
  {
    match e
    case Spurious(t) => [Did(t, Back)]
    case WakeOne(t, u) => [Did(t, FutexWake(1, {u}))]
    case Run(t) =>
      match s.ts[t].pc
      case Head => []
      case Read => [Did(t, Load(s.word))]
      case Cas01 => [Did(t, Xchg(0, 1, s.word))]
      case Cas12 => [Did(t, Xchg(1, 2, s.word))]
      case Wait => [Did(t, FutexWait(2, s.word == 2))]
      case Reread => [Did(t, Load(s.word))]
      case Cas02 => [Did(t, Xchg(0, 2, s.word))]
      case Locked => [Did(t, Load(s.word))]
      case Cas10 => [Did(t, Xchg(1, 0, s.word))]
      case Cas20 => [Did(t, Xchg(2, 0, s.word))]
      case Wake => [Did(t, FutexWake(1, {}))]
  }

  function Trace(s: State, es: seq<Event>): seq<Did<Access>>
    requires Valid(s, es)
    decreases |es|
  {
    if es == [] then [] else Emits(s, es[0]) + Trace(Apply(s, es[0]), es[1..])
  }

  // ---------------------------------------------------------------- program order

  /** What a thread at its position may still do. */
  predicate Ahead(th: Thread, log: seq<Access>, done: bool) {
    var l := th.loops;
    match th.pc
    case Head => Rounds(l, log, done)
    case Read => LockCode(l, log, done)
    case Cas01 => TakeCode(l, log, done)
    case Cas12 => UpgradeCode(l, log, done)
    case Wait => WaitCode(l, log, done)
    case Asleep => BackCode(true, l, log, done)
    case Reread => RereadCode(l, log, done)
    case Cas02 => RetakeCode(l, log, done)
    case Locked => UnlockCode(l, log, done)
    case Cas10 => ReleaseCode(l, log, done)
    case Cas20 => DropCode(l, log, done)
    case Wake => WakeCode(l, log, done)
    case Done => log == [] && done
  }

  /** An access by t takes it to the point of its code that comes next. */
  lemma ActorAhead(s: State, e: Event, t: nat, rest: seq<Access>, done: bool)
    requires Enabled(s, e) && e.t == t && t < |s.ts| && Ahead(Apply(s, e).ts[t], rest, done)
    ensures Ahead(s.ts[t], LogOf(Emits(s, e), t) + rest, done)
  {
    if e.Run? && s.ts[t].pc == Head {
      assert LogOf(Emits(s, e), t) + rest == rest;
    } else {
      var d := Emits(s, e)[0];
      LogOfOne(d, t);
      assert ([d.a] + rest)[0] == d.a && ([d.a] + rest)[1..] == rest;
      AccessAhead(s, e, d.a, [d.a] + rest, done);
    }
  }

  lemma AccessAhead(s: State, e: Event, a: Access, log: seq<Access>, done: bool)
    requires Enabled(s, e) && Emits(s, e) == [Did(e.t, a)] && log != [] && log[0] == a
    requires Ahead(Apply(s, e).ts[e.t], log[1..], done)
    ensures Ahead(s.ts[e.t], log, done)
  {
  }

  /** Others leave it there, but for a wake-up. */
  lemma OtherAhead(s: State, e: Event, t: nat, rest: seq<Access>, done: bool)
    requires Enabled(s, e) && e.t != t && t < |s.ts| && Ahead(Apply(s, e).ts[t], rest, done)
    ensures Ahead(s.ts[t], LogOf(Emits(s, e), t) + rest, done)
  {
    OthersStay(s, e, t);
    if Emits(s, e) != [] {
      LogOfOne(Emits(s, e)[0], t);
    }
    assert LogOf(Emits(s, e), t) + rest == rest;
  }

  lemma {:induction false} RunAhead(s: State, es: seq<Event>, t: nat)
    requires Valid(s, es) && t < |s.ts|
    ensures Ahead(s.ts[t], LogOf(Trace(s, es), t), Exec(s, es).ts[t].pc == Done)
    decreases |es|
  {
    var done := Exec(s, es).ts[t].pc == Done;
    if es != [] {
      var e := es[0];
      var rest := Trace(Apply(s, e), es[1..]);
      RunAhead(Apply(s, e), es[1..], t);
      LogOfConcat(Emits(s, e), rest, t);
      if e.t == t {
        ActorAhead(s, e, t, LogOf(rest, t), done);
      } else {
        OtherAhead(s, e, t, LogOf(rest, t), done);
      }
    }
  }

  // ---------------------------------------------------------------- one word

  predicate History(w: Word, tr: seq<Did<Access>>)
    decreases |tr|
  {
    tr == [] || (Allowed(w, tr[0].t, tr[0].a) && History(After(w, tr[0].t, tr[0].a), tr[1..]))
  }

  function Memory(s: State): Word {
    Word(s.word, set t: nat | t < |s.ts| && s.ts[t].pc == Asleep)
  }

  predicate OneStep(s: State, e: Event)
    requires Enabled(s, e)
  {
    var (w, w', did) := (Memory(s), Memory(Apply(s, e)), Emits(s, e));
    if did == [] then w' == w
    else |did| == 1 && Allowed(w, did[0].t, did[0].a) && w' == After(w, did[0].t, did[0].a)
  }

  lemma MemoryMeans(s: State, t: nat)
    ensures Memory(s).value == s.word && (t in Memory(s).sleepers <==> t < |s.ts| && s.ts[t].pc == Asleep)
  {
  }

  lemma WakeOnWord(s: State, e: Event)
    requires Enabled(s, e) && (e.WakeOne? || (e.Run? && s.ts[e.t].pc == Wake))
    ensures OneStep(s, e)
  {
    SleepersFollow(s, e);
    MemoryMeans(s, e.t);
    if e.WakeOne? {
      assert {e.u} <= Memory(s).sleepers;
      assert |Memory(s).sleepers - {e.u}| == |Memory(s).sleepers| - 1;
    } else {
      assert Memory(s).sleepers == {};
    }
  }

  lemma OtherOnWord(s: State, e: Event)
    requires Enabled(s, e) && !e.WakeOne? && s.ts[e.t].pc != Wake
    ensures OneStep(s, e)
  {
    SleepersFollow(s, e);
    MemoryMeans(s, e.t);
    MemoryMeans(Apply(s, e), e.t);
    hide Memory;
  }

  /** Each event is one step of the word, or touches neither word nor sleepers. */
  lemma EventOnWord(s: State, e: Event)
    requires Enabled(s, e)
    ensures OneStep(s, e)
  {
    hide OneStep, Apply;
    if e.WakeOne? || s.ts[e.t].pc == Wake {
      WakeOnWord(s, e);
    } else {
      OtherOnWord(s, e);
    }
  }

  lemma SleepersFollow(s: State, e: Event)
    requires Enabled(s, e)
    ensures Memory(Apply(s, e)).sleepers ==
            if e.Spurious? then Memory(s).sleepers - {e.t}
            else if e.WakeOne? then Memory(s).sleepers - {e.u}
            else if s.ts[e.t].pc == Wait && s.word == 2 then Memory(s).sleepers + {e.t}
            else Memory(s).sleepers
  {
  }

  lemma {:induction false} RunOnWord(s: State, es: seq<Event>)
    requires Valid(s, es)
    ensures History(Memory(s), Trace(s, es))
    decreases |es|
  {
    if es != [] {
      EventOnWord(s, es[0]);
      RunOnWord(Apply(s, es[0]), es[1..]);
      var did, rest := Emits(s, es[0]), Trace(Apply(s, es[0]), es[1..]);
      if did == [] {
        assert did + rest == rest;
      } else {
        assert (did + rest)[1..] == rest;
      }
    }
  }

  /** The model is the code, on every run: the accesses are a history of one word that starts at 0
      with nobody asleep, and what each thread does is what futex_wait_test(futex, loops) does, up to some point or, if
      the thread is done, to the end. */
  lemma ProgramOrder(s: State, n: nat, loops: nat, es: seq<Event>)
    requires Init(s, n, loops) && Valid(s, es)
    ensures History(Word(0, {}), Trace(s, es))
    ensures forall t :: 0 <= t < n ==> Rounds(loops, LogOf(Trace(s, es), t), Exec(s, es).ts[t].pc == Done)
  {
    RunOnWord(s, es);
    assert Memory(s) == Word(0, {});
    forall t | 0 <= t < n ensures Rounds(loops, LogOf(Trace(s, es), t), Exec(s, es).ts[t].pc == Done) {
      RunAhead(s, es, t);
    }
  }

  // ---------------------------------------------------------------- nothing is missing

  lemma WakesOne(s: State, woken: set<nat>)
    requires woken <= Memory(s).sleepers && |woken| == if 1 < |Memory(s).sleepers| then 1 else |Memory(s).sleepers|
    ensures woken == {} ==> forall u :: 0 <= u < |s.ts| ==> s.ts[u].pc != Asleep
    ensures woken != {} ==> exists u :: u in woken && woken == {u} && At(s, u, Asleep)
  {
    if woken == {} {
      assert Memory(s).sleepers == {};
      forall u | 0 <= u < |s.ts| ensures s.ts[u].pc != Asleep {
        assert u !in Memory(s).sleepers;
      }
    } else {
      var u :| u in woken;
      assert |woken - {u}| == 0;
      assert woken == {u} && u in Memory(s).sleepers;
    }
  }

  /** The model leaves nothing out: an access that comes next in the code of a thread and that the word
      allows, whichever sleeper it wakes, is made by some event, after the loop test at most. */
  lemma AccessPossible(s: State, t: nat, a: Access) returns (e: Event)
    requires t < |s.ts| && Ahead(s.ts[t], [a], false) && Allowed(Memory(s), t, a) && (a == Back ==> s.spurious > 0)
    ensures Enabled(s, e)
    ensures if s.ts[t].pc == Head then e == Run(t) && Emits(s, e) == [] else Emits(s, e) == [Did(t, a)]
  {
    e := if s.ts[t].pc == Asleep then Spurious(t) else Run(t);
    if s.ts[t].pc == Wake {
      WakesOne(s, a.woken);
      if a.woken != {} {
        var u :| u in a.woken && a.woken == {u} && At(s, u, Asleep);
        e := WakeOne(t, u);
      }
    }
  }
}
