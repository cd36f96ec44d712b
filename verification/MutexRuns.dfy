/** Whole runs of the futex mutex: refinement of a simple lock, exact work counts and
    termination under every schedule. */
module MutexRuns {
  import opened Words
  import opened Sums
  import opened Mutex

  // ---------------------------------------------------------------- refinement

  /** The lock a client wants: nobody or one thread holds it. */
  datatype Lock = Free | Held(owner: nat)
  datatype Action = Acquire(t: nat) | Release(t: nat) | Silent

  predicate LockStep(l: Lock, a: Action, l': Lock) {
    match a
    case Acquire(t) => l == Free && l' == Held(t)
    case Release(t) => l == Held(t) && l' == Free
    case Silent => l' == l
  }

  /** The lock seen through a mutex state. */
  ghost function View(s: State): Lock {
    if exists t :: 0 <= t < |s.ts| && Owns(s.ts[t].pc)
    then Held(var t :| 0 <= t < |s.ts| && Owns(s.ts[t].pc); t)
    else Free
  }

  /** What an event does to the lock, told from the actor's own position only. */
  function ActionOf(s: State, e: Event): Action
    requires Enabled(s, e)
  {
    var before, after := Owns(s.ts[e.t].pc), Owns(Apply(s, e).ts[e.t].pc);
    if before == after then Silent else if after then Acquire(e.t) else Release(e.t)
  }

  function Actions(s: State, es: seq<Event>): (acts: seq<Action>)
    requires Valid(s, es)
    ensures |acts| == |es|
    decreases |es|
  {
    if es == [] then [] else [ActionOf(s, es[0])] + Actions(Apply(s, es[0]), es[1..])
  }

  /** The actions lead the simple lock from l to l'. */
  predicate LockRun(l: Lock, acts: seq<Action>, l': Lock)
    decreases |acts|
  {
    if acts == [] then l == l'
    else
      match acts[0]
      case Acquire(t) => l == Free && LockRun(Held(t), acts[1..], l')
      case Release(t) => l == Held(t) && LockRun(Free, acts[1..], l')
      case Silent => LockRun(l, acts[1..], l')
  }

  lemma ViewIs(s: State, t: nat)
    requires Ownership(s) && t < |s.ts| && Owns(s.ts[t].pc)
    ensures View(s) == Held(t)
  {
  }

  lemma StepRefines(s: State, e: Event)
    requires Inv(s) && Enabled(s, e)
    ensures LockStep(View(s), ActionOf(s, e), View(Apply(s, e)))
  {
    var s', t := Apply(s, e), e.t;
    EventChange(s, e);
    OwnershipKept(s, e);
    if Owns(s.ts[t].pc) {
      ViewIs(s, t);
    }
    if Owns(s'.ts[t].pc) {
      ViewIs(s', t);
    }
    if !Owns(s.ts[t].pc) && !Owns(s'.ts[t].pc) && s.word != 0 {
      var o :| 0 <= o < |s.ts| && Owns(s.ts[o].pc);
      assert SameOwning(s.ts[o], s'.ts[o]);
      ViewIs(s, o);
      ViewIs(s', o);
    }
  }

  /** Every run of the mutex is a run of the simple lock. */
  lemma {:induction false} RunRefines(s: State, es: seq<Event>)
    requires Inv(s) && Valid(s, es)
    ensures LockRun(View(s), Actions(s, es), View(Exec(s, es)))
    decreases |es|
  {
    if es != [] {
      var s' := Apply(s, es[0]);
      InvKept(s, es[0]);
      StepRefines(s, es[0]);
      RunRefines(s', es[1..]);
      assert Actions(s, es)[1..] == Actions(s', es[1..]);
    }
  }

  function Count(acts: seq<Action>, a: Action): nat {
    if acts == [] then 0 else (if acts[0] == a then 1 else 0) + Count(acts[1..], a)
  }

  /** On the simple lock every acquisition is matched by a release, except of the holder. */
  lemma {:induction false} AcquiresAreReleased(l: Lock, acts: seq<Action>, l': Lock, t: nat)
    requires LockRun(l, acts, l')
    ensures Count(acts, Acquire(t)) + (if l == Held(t) then 1 else 0) ==
            Count(acts, Release(t)) + (if l' == Held(t) then 1 else 0)
    decreases |acts|
  {
    if acts != [] {
      var l1 := match acts[0] case Acquire(u) => Held(u) case Release(_) => Free case Silent => l;
      AcquiresAreReleased(l1, acts[1..], l', t);
    }
  }

  // ---------------------------------------------------------------- work counts

  predicate Locking(pc: Pc) {
    pc == Read || pc == Cas01 || pc == Asleep || Contending(pc)
  }

  /** Rounds whose lock has not been taken yet. */
  function Remaining(th: Thread): int {
    if th.pc == Done then 0 else th.loops + if Locking(th.pc) then 1 else 0
  }

  function RemainingAll(s: State): seq<int> {
    seq(|s.ts|, t requires 0 <= t < |s.ts| => Remaining(s.ts[t]))
  }

  function CountAcquires(acts: seq<Action>): nat {
    if acts == [] then 0 else (if acts[0].Acquire? then 1 else 0) + CountAcquires(acts[1..])
  }

  lemma ActorRemaining(s: State, t: nat)
    requires Ownership(s) && t < |s.ts| && Awake(s.ts[t].pc)
    ensures Remaining(Advance(s, t).ts[t]) ==
            Remaining(s.ts[t]) - if !Owns(s.ts[t].pc) && Owns(Advance(s, t).ts[t].pc) then 1 else 0
  {
  }

  lemma OthersKeepLoops(s: State, e: Event)
    requires Enabled(s, e)
    ensures forall u :: 0 <= u < |s.ts| && u != e.t ==> Remaining(Apply(s, e).ts[u]) == Remaining(s.ts[u])
  {
  }

  lemma StepRemaining(s: State, e: Event)
    requires Ownership(s) && Enabled(s, e)
    ensures RemainingAll(Apply(s, e)) ==
            RemainingAll(s)[e.t := Remaining(s.ts[e.t]) - if ActionOf(s, e).Acquire? then 1 else 0]
  {
    var r, r' := RemainingAll(s), RemainingAll(Apply(s, e));
    if !e.Spurious? {
      ActorRemaining(s, e.t);
      hide Advance;
    }
    assert forall u :: 0 <= u < |s.ts| && u != e.t ==> r'[u] == r[u] by {
      OthersKeepLoops(s, e);
    }
  }

  /** Each thread takes the lock once per round, in every run. */
  lemma {:induction false} AcquiresPerThread(s: State, es: seq<Event>, t: nat)
    requires Inv(s) && Valid(s, es) && t < |s.ts|
    ensures Count(Actions(s, es), Acquire(t)) + Remaining(Exec(s, es).ts[t]) == Remaining(s.ts[t])
    decreases |es|
  {
    if es != [] {
      var s' := Apply(s, es[0]);
      InvKept(s, es[0]);
      StepRemaining(s, es[0]);
      assert RemainingAll(s')[t] == Remaining(s'.ts[t]);
      AcquiresPerThread(s', es[1..], t);
      assert Actions(s, es)[1..] == Actions(s', es[1..]);
    }
  }

  /** Summed over all threads. */
  lemma {:induction false} AcquiresInAll(s: State, es: seq<Event>)
    requires Inv(s) && Valid(s, es)
    ensures CountAcquires(Actions(s, es)) + Sum(RemainingAll(Exec(s, es))) == Sum(RemainingAll(s))
    decreases |es|
  {
    if es != [] {
      var s' := Apply(s, es[0]);
      InvKept(s, es[0]);
      StepRemaining(s, es[0]);
      SumUpdate(RemainingAll(s), es[0].t, RemainingAll(s')[es[0].t]);
      AcquiresInAll(s', es[1..]);
      assert Actions(s, es)[1..] == Actions(s', es[1..]);
    }
  }

  // ---------------------------------------------------------------- termination

  /** How often the word can still change: per round one acquisition, one upgrade 1 -> 2 and
      one release. */
  ghost function Changes(s: State): int {
    3 * Sum(RemainingAll(s)) + if s.word == 0 then 0 else if s.word == 1 then 2 else 1
  }

  /** How many steps a thread can take, at most, before it changes the word or sleeps, while
      the word does not change. Waking somebody costs what the woken thread may then do. */
  function Rank(pc: Pc, word: u32): (r: nat)
    ensures r <= 6
  {
    match pc
    case Head => 3
    case Read => 2
    case Cas01 => if word == 0 then 1 else 2
    case Cas12 => if word == 1 then 1 else 2
    case Cas02 => if word == 0 then 1 else 2
    case Wait => if word == 2 then 1 else 3
    case Reread => 2
    case Locked => 3
    case Cas10 => 2
    case Cas20 => 1
    case Wake => 6
    case Asleep => 0
    case Done => 0
  }

  function Ranks(s: State): seq<int> {
    seq(|s.ts|, t requires 0 <= t < |s.ts| => Rank(s.ts[t].pc, s.word))
  }

  /** Every event makes this smaller. */
  ghost function Measure(s: State): int {
    Weigh(Changes(s), 6 * |s.ts|, Sum(Ranks(s)) + 3 * s.spurious)
  }

  /** The pair (changes, steps) as one number, where one change is worth k + 1 steps. */
  function Weigh(changes: int, k: nat, steps: int): int {
    changes * (k + 1) + steps
  }

  lemma WeighDrops(c: int, c': int, r: int, r': int, k: nat)
    requires c' <= c
    requires if c' < c then r' <= r + k else r' < r
    ensures Weigh(c', k, r') < Weigh(c, k, r)
  {
    if c' < c {
      Product(c' + 1, c, k + 1);
    }
  }

  lemma MeasureNonNegative(s: State)
    requires Ownership(s)
    ensures Changes(s) >= 0 && 0 <= Sum(Ranks(s)) <= 6 * |s.ts| && Measure(s) >= 0
  {
    SumNonNegative(RemainingAll(s));
    SumBounds(Ranks(s), 6);
    Product(0, Changes(s), 6 * |s.ts| + 1);
  }

  lemma Product(a: int, b: int, k: nat)
    requires a <= b
    ensures a * k <= b * k
  {
  }

  lemma StepChanges(s: State, e: Event)
    requires Ownership(s) && Enabled(s, e)
    ensures Apply(s, e).word == s.word ==> Changes(Apply(s, e)) == Changes(s)
    ensures Apply(s, e).word != s.word ==> Changes(Apply(s, e)) < Changes(s)
  {
    EventChange(s, e);
    StepRemaining(s, e);
    SumUpdate(RemainingAll(s), e.t, RemainingAll(Apply(s, e))[e.t]);
  }

  /** While the word stays, a step of t uses up one of its steps; a wake-up uses up three. */
  lemma ActorRank(s: State, t: nat)
    requires Ownership(s) && t < |s.ts| && Awake(s.ts[t].pc) && Advance(s, t).word == s.word
    ensures Rank(Advance(s, t).ts[t].pc, s.word) + (if s.ts[t].pc == Wake then 3 else 1) <= Rank(s.ts[t].pc, s.word)
  {
  }

  lemma RanksPut(s: State, s': State, t: nat)
    requires s'.word == s.word && t < |s.ts| == |s'.ts| && s'.ts == s.ts[t := s'.ts[t]]
    ensures Sum(Ranks(s')) == Sum(Ranks(s)) - Rank(s.ts[t].pc, s.word) + Rank(s'.ts[t].pc, s.word)
  {
    var r, r' := Ranks(s), Ranks(s');
    assert r' == r[t := r'[t]];
    SumUpdate(r, t, r'[t]);
  }

  lemma AdvanceShape(s: State, t: nat)
    requires t < |s.ts|
    ensures Advance(s, t).ts == s.ts[t := Advance(s, t).ts[t]] && Advance(s, t).spurious == s.spurious
  {
    assert s.ts == s.ts[t := s.ts[t]];
  }

  lemma StepRanks(s: State, e: Event)
    requires Ownership(s) && Enabled(s, e) && Apply(s, e).word == s.word
    ensures Sum(Ranks(Apply(s, e))) + 3 * Apply(s, e).spurious < Sum(Ranks(s)) + 3 * s.spurious
  {
    if e.Spurious? {
      RanksPut(s, Apply(s, e), e.t);
    } else {
      var s1 := Advance(s, e.t);
      AdvanceShape(s, e.t);
      ActorRank(s, e.t);
      hide Advance;
      RanksPut(s, s1, e.t);
      if e.WakeOne? {
        RanksPut(s1, Apply(s, e), e.u);
      }
    }
  }

  lemma StepDecreases(s: State, e: Event)
    requires Ownership(s) && Enabled(s, e)
    ensures Measure(Apply(s, e)) < Measure(s)
  {
    StepChanges(s, e);
    OwnershipKept(s, e);
    AdvanceShape(s, e.t);
    var s' := Apply(s, e);
    if s'.word == s.word {
      StepRanks(s, e);
    }
    MeasureNonNegative(s');
    MeasureNonNegative(s);
    WeighDrops(Changes(s), Changes(s'), Sum(Ranks(s)) + 3 * s.spurious, Sum(Ranks(s')) + 3 * s'.spurious, 6 * |s.ts|);
  }

  /** Every run is finite, whatever the scheduler does. */
  lemma {:induction false} RunLength(s: State, es: seq<Event>)
    requires Inv(s) && Valid(s, es)
    ensures |es| + Measure(Exec(s, es)) <= Measure(s)
    decreases |es|
  {
    if es != [] {
      InvKept(s, es[0]);
      StepDecreases(s, es[0]);
      RunLength(Apply(s, es[0]), es[1..]);
    }
  }

  function WordChanges(s: State, es: seq<Event>): nat
    requires Valid(s, es)
    decreases |es|
  {
    if es == [] then 0
    else (if Apply(s, es[0]).word != s.word then 1 else 0) + WordChanges(Apply(s, es[0]), es[1..])
  }

  lemma {:induction false} WordChangesBounded(s: State, es: seq<Event>)
    requires Inv(s) && Valid(s, es)
    ensures WordChanges(s, es) + Changes(Exec(s, es)) <= Changes(s)
    decreases |es|
  {
    if es != [] {
      InvKept(s, es[0]);
      StepChanges(s, es[0]);
      WordChangesBounded(Apply(s, es[0]), es[1..]);
    }
  }

  predicate Stuck(s: State) {
    forall t :: 0 <= t < |s.ts| ==> !Awake(s.ts[t].pc)
  }

  lemma {:induction false} Extend(s: State, es: seq<Event>, e: Event)
    requires Valid(s, es) && Enabled(Exec(s, es), e)
    ensures Valid(s, es + [e]) && Exec(s, es + [e]) == Apply(Exec(s, es), e)
    decreases |es|
  {
    hide Enabled, Apply;
    if es == [] {
      assert es + [e] == [e];
    } else {
      Extend(Apply(s, es[0]), es[1..], e);
      assert (es + [e])[1..] == es[1..] + [e];
    }
  }

  /** No thread awake means that no event is possible, spurious returns included, and conversely. */
  lemma StuckMeans(s: State)
    requires Inv(s)
    ensures Stuck(s) <==> forall e :: !Enabled(s, e)
  {
    if Stuck(s) {
      NeverAllAsleep(s);
    } else {
      var t :| 0 <= t < |s.ts| && Awake(s.ts[t].pc);
      var e := AwakeCanAct(s, t);
    }
  }

  lemma InitMeasure(s: State, n: nat, loops: nat)
    requires Init(s, n, loops)
    ensures Inv(s)
    ensures Sum(RemainingAll(s)) == n * loops && Changes(s) == 3 * (n * loops)
    ensures Measure(s) == 3 * (n * loops) * (6 * n + 1) + 3 * n + 3 * s.spurious
  {
    SumConst(RemainingAll(s), loops);
    SumConst(Ranks(s), 3);
    assert loops * n == n * loops;
  }

  /** A run that cannot be continued has done all its rounds: each thread took and released the
      lock exactly L times, the word is 0 and nobody sleeps. */
  lemma FinishedRun(s: State, n: nat, loops: nat, es: seq<Event>)
    requires Init(s, n, loops) && Valid(s, es) && Stuck(Exec(s, es))
    ensures Exec(s, es).word == 0 && View(Exec(s, es)) == Free
    ensures CountAcquires(Actions(s, es)) == n * loops
    ensures forall t :: 0 <= t < n ==>
              && Exec(s, es).ts[t].pc == Done
              && Count(Actions(s, es), Acquire(t)) == loops
              && Count(Actions(s, es), Release(t)) == loops
  {
    hide Inv, Actions, Valid, Exec, Measure, Changes;
    var s' := Exec(s, es);
    InitMeasure(s, n, loops);
    InvOnRuns(s, es);
    RunRefines(s, es);
    NeverAllAsleep(s');
    AcquiresInAll(s, es);
    SumConst(RemainingAll(s'), 0);
    forall t | 0 <= t < n
      ensures Count(Actions(s, es), Acquire(t)) == loops && Count(Actions(s, es), Release(t)) == loops
    {
      AcquiresAreReleased(Free, Actions(s, es), Free, t);
      AcquiresPerThread(s, es, t);
    }
  }

  /** Termination without fairness. From the start, with N threads, L rounds each and at most B
      spurious returns, no run is longer than 3NL(6N+1) + 3N + 3B events, the word changes at most
      3NL times, and the run is one of the simple lock from free. */
  lemma Termination(s: State, n: nat, loops: nat, es: seq<Event>)
    requires Init(s, n, loops) && Valid(s, es)
    ensures |es| <= 3 * (n * loops) * (6 * n + 1) + 3 * n + 3 * s.spurious
    ensures WordChanges(s, es) <= 3 * (n * loops)
    ensures LockRun(Free, Actions(s, es), View(Exec(s, es)))
  {
    InitMeasure(s, n, loops);
    InvOnRuns(s, es);
    MeasureNonNegative(Exec(s, es));
    RunLength(s, es);
    WordChangesBounded(s, es);
    RunRefines(s, es);
  }
}
