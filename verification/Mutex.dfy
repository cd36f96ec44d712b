/** The three-state futex mutex of performance/futex_wait.c as a transition system.

    The word is 0 (free), 1 (held) or 2 (held, maybe with waiters). N threads each run
    `loops` rounds of lock and unlock. One event is one access to the shared word or one
    system call; the local branch that follows it depends on the thread's own `status`
    only and is taken in the same event. Between two events of a thread any other thread
    may run, so `status` goes stale. */
module Mutex {
  import opened Words

  /** Where a thread is, named after the access it makes next. */
  datatype Pc =
    | Head                  // while (loops--)
    | Read                  // lock: status = *futex
    | Cas01                 // lock: uncontended cmpxchg 0 -> 1
    | Cas12                 // lock: cmpxchg 1 -> 2
    | Wait                  // lock: futex_wait(2)
    | Asleep                // blocked in futex_wait
    | Reread                // lock: status = *futex after futex_wait
    | Cas02                 // lock: contended cmpxchg 0 -> 2
    | Locked                // lock has returned; unlock reads the word next
    | Cas10                 // unlock: cmpxchg 1 -> 0
    | Cas20                 // unlock: cmpxchg 2 -> 0
    | Wake                  // unlock: futex_wake(1)
    | Done                  // the loop has ended

  datatype Thread = Thread(pc: Pc, status: int, loops: int)

  /** `spurious` bounds how many more times FUTEX_WAIT may return without a wake-up.
      Any finite run is a run from a large enough bound. */
  datatype State = State(word: u32, ts: seq<Thread>, spurious: nat)

  /** `Run(t)`: t makes its next access. `WakeOne(t, u)`: t's futex_wake dequeues u.
      `Spurious(t)`: t's futex_wait returns although nobody woke it. */
  datatype Event = Run(t: nat) | WakeOne(t: nat, u: nat) | Spurious(t: nat)

  /** From the loop test `while (status != 0)` to the next access. */
  function LoopPc(status: int): Pc {
    if status == 0 then Locked else if status == 1 then Cas12 else Wait
  }

  /** From the `status` read by unlock to its next access; any other value just returns. */
  function UnlockPc(status: int): Pc {
    if status == 1 then Cas10 else if status == 2 then Cas20 else Head
  }

  function Put(s: State, t: nat, word: u32, pc: Pc, status: int): State
    requires t < |s.ts|
  {
    s.(word := word, ts := s.ts[t := s.ts[t].(pc := pc, status := status)])
  }

  /** One access by thread t that wakes nobody. */
  function Advance(s: State, t: nat): (s': State)
    requires t < |s.ts|
    ensures |s'.ts| == |s.ts| && s'.spurious == s.spurious
    ensures forall u :: 0 <= u < |s.ts| && u != t ==> s'.ts[u] == s.ts[u]
  {
    var th := s.ts[t];
    var seen := AsInt(s.word);
    match th.pc
    case Head =>
      s.(ts := s.ts[t := Thread(if th.loops == 0 then Done else Read, th.status, th.loops - 1)])
    case Read => Put(s, t, s.word, if seen == 0 then Cas01 else LoopPc(seen), seen)
    case Cas01 => Put(s, t, Cas(s.word, 0, 1), LoopPc(seen), seen)
    case Cas12 => Put(s, t, Cas(s.word, 1, 2), if seen != 0 then Wait else Cas02, seen)
    case Wait => Put(s, t, s.word, if s.word == 2 then Asleep else Reread, th.status)
    case Reread => Put(s, t, s.word, if seen == 0 then Cas02 else LoopPc(seen), seen)
    case Cas02 => Put(s, t, Cas(s.word, 0, 2), LoopPc(seen), seen)
    case Locked => Put(s, t, s.word, UnlockPc(seen), seen)
    case Cas10 => Put(s, t, Cas(s.word, 1, 0), if seen == 2 then Cas20 else Head, seen)
    case Cas20 => Put(s, t, Cas(s.word, 2, 0), Wake, th.status)
    case Wake => Put(s, t, s.word, Head, th.status)
    case Asleep => s
    case Done => s
  }

  predicate At(s: State, t: nat, pc: Pc) {
    t < |s.ts| && s.ts[t].pc == pc
  }

  predicate Awake(pc: Pc) {
    pc != Asleep && pc != Done
  }

  /** futex_wake(1) wakes nobody only when nobody sleeps. */
  predicate Enabled(s: State, e: Event) {
    match e
    case Run(t) =>
      && t < |s.ts| && Awake(s.ts[t].pc)
      && (s.ts[t].pc == Wake ==> forall u :: 0 <= u < |s.ts| ==> s.ts[u].pc != Asleep)
    case WakeOne(t, u) => At(s, t, Wake) && At(s, u, Asleep)
    case Spurious(t) => At(s, t, Asleep) && s.spurious > 0
  }

  function Apply(s: State, e: Event): State
    requires Enabled(s, e)
  {
    match e
    case Run(t) => Advance(s, t)
    case WakeOne(t, u) => Advance(s, t).(ts := Advance(s, t).ts[u := s.ts[u].(pc := Reread)])
    case Spurious(t) => Put(s, t, s.word, Reread, s.ts[t].status).(spurious := s.spurious - 1)
  }

  predicate Init(s: State, n: nat, loops: nat) {
    && s.word == 0
    && |s.ts| == n
    && forall t :: 0 <= t < n ==> s.ts[t] == Thread(Head, 0, loops)
  }

  /** A run is the sequence of events of one schedule. */
  predicate Valid(s: State, es: seq<Event>)
    decreases |es|
  {
    es == [] || (Enabled(s, es[0]) && Valid(Apply(s, es[0]), es[1..]))
  }

  function Exec(s: State, es: seq<Event>): (s': State)
    requires Valid(s, es)
    ensures |s'.ts| == |s.ts|
    decreases |es|
  {
    if es == [] then s else Exec(Apply(s, es[0]), es[1..])
  }

  // ---------------------------------------------------------------- invariant

  /** The thread holds the lock: its CAS took the word from 0 and has not put 0 back. */
  predicate Owns(pc: Pc) {
    pc == Locked || pc == Cas10 || pc == Cas20
  }

  /** Inside `while (status != 0)` and not asleep. */
  predicate Contending(pc: Pc) {
    pc == Cas12 || pc == Wait || pc == Reread || pc == Cas02
  }

  /** A thread leaves the contended loop only by its own step: by going to sleep on a word that is 2,
      or with the lock, by its own exchange of 0 for 2. */
  lemma ContendingLeaves(s: State, e: Event, t: nat)
    requires Enabled(s, e) && t < |s.ts| && Contending(s.ts[t].pc)
    ensures var s' := Apply(s, e);
            Contending(s'.ts[t].pc) ||
            (e == Run(t) &&
             (|| (s.ts[t].pc == Wait && s'.ts[t].pc == Asleep && s.word == 2 == s'.word)
              || (s.ts[t].pc == Cas02 && s'.ts[t].pc == Locked && s.word == 0 && s'.word == 2)))
  {
    if e.t != t {
      OthersStay(s, e, t);
    }
  }

  /** What a thread in the contended loop has seen: it goes to futex_wait only with a word other than
      0, it tries the exchange of 0 for 2 only after it has seen 0 in its own exchange or read, and
      from futex_wait, blocked or not, it goes on to that read. */
  lemma ContendingSees(s: State, e: Event, t: nat)
    requires Enabled(s, e) && t < |s.ts|
    ensures var (pc, pc') := (s.ts[t].pc, Apply(s, e).ts[t].pc);
            && (pc != Wait && pc' == Wait ==> e == Run(t) && s.word != 0)
            && (pc != Cas02 && pc' == Cas02 ==> e == Run(t) && pc in {Cas12, Reread} && s.word == 0)
            && (pc == Wait ==> pc' in {Wait, Asleep, Reread}) && (pc == Asleep ==> pc' in {Asleep, Reread})
  {
    if e.t != t {
      OthersStay(s, e, t);
    }
  }

  predicate Ownership(s: State) {
    && s.word <= 2
    && (forall t, u :: 0 <= t < |s.ts| && 0 <= u < |s.ts| && Owns(s.ts[t].pc) && Owns(s.ts[u].pc) ==> t == u)
    && (s.word == 0 ==> forall t :: 0 <= t < |s.ts| ==> !Owns(s.ts[t].pc))
    && (s.word != 0 ==> exists t :: 0 <= t < |s.ts| && Owns(s.ts[t].pc))
    && (forall t :: 0 <= t < |s.ts| && s.ts[t].pc == Cas20 ==> s.word == 2)
    && (forall t :: 0 <= t < |s.ts| && s.ts[t].pc != Done ==> s.ts[t].loops >= 0)
  }

  /** Somebody will look after the sleepers without further help. */
  predicate Rescued(s: State) {
    || s.word == 2
    || (exists t :: 0 <= t < |s.ts| && s.ts[t].pc == Wake)
    || (exists t :: 0 <= t < |s.ts| && Contending(s.ts[t].pc))
  }

  predicate NoLostWakeup(s: State) {
    (exists t :: 0 <= t < |s.ts| && s.ts[t].pc == Asleep) ==> Rescued(s)
  }

  predicate Inv(s: State) {
    Ownership(s) && NoLostWakeup(s)
  }

  /** What an event of t does to ownership: nothing, take the lock, or give it back. */
  predicate OwnerChange(s: State, t: nat, s': State)
    requires t < |s.ts| == |s'.ts|
  {
    && (forall u :: 0 <= u < |s.ts| && u != t ==> SameOwning(s.ts[u], s'.ts[u]))
    && (s'.ts[t].pc != Done ==> s'.ts[t].loops >= 0)
    && if Owns(s.ts[t].pc) == Owns(s'.ts[t].pc)
       then (s'.word == s.word || (s.word == 1 && s'.word == 2)) && (s'.ts[t].pc == Cas20 ==> s'.word == 2)
       else if Owns(s.ts[t].pc) then s'.word == 0
       else s.word == 0 && s'.word in {1, 2} && s'.ts[t].pc == Locked
  }

  predicate SameOwning(a: Thread, b: Thread) {
    && Owns(a.pc) == Owns(b.pc) && a.loops == b.loops
    && (a.pc == Cas20 <==> b.pc == Cas20) && (a.pc == Done <==> b.pc == Done)
  }

  /** The actor's own part of it. */
  lemma ActorChange(s: State, t: nat)
    requires Ownership(s) && t < |s.ts| && Awake(s.ts[t].pc)
    ensures OwnerChange(s, t, Advance(s, t))
  {
  }

  lemma EventChange(s: State, e: Event)
    requires Ownership(s) && Enabled(s, e)
    ensures OwnerChange(s, e.t, Apply(s, e))
  {
    if !e.Spurious? {
      ActorChange(s, e.t);
      hide Advance;
    }
  }

  /** An event of t leaves the other threads alone, but for the one it wakes. */
  lemma OthersStay(s: State, e: Event, t: nat)
    requires Enabled(s, e) && t < |s.ts|
    ensures t != e.t ==> Apply(s, e).ts[t] == s.ts[t] || (s.ts[t].pc == Asleep && Apply(s, e).ts[t].pc == Reread)
    ensures s.ts[t].pc == Done ==> t != e.t && Apply(s, e).ts[t] == s.ts[t]
  {
  }

  lemma ChangeKeepsOwnership(s: State, t: nat, s': State)
    requires Ownership(s) && t < |s.ts| == |s'.ts| && OwnerChange(s, t, s')
    ensures Ownership(s')
  {
    if s'.word != 0 {
      var o := if s.word == 0 then t else var o :| 0 <= o < |s.ts| && Owns(s.ts[o].pc); o;
      assert Owns(s'.ts[o].pc);
    }
  }

  lemma OwnershipKept(s: State, e: Event)
    requires Ownership(s) && Enabled(s, e)
    ensures Ownership(Apply(s, e))
  {
    EventChange(s, e);
    ChangeKeepsOwnership(s, e.t, Apply(s, e));
  }

  lemma RescueKept(s: State, e: Event)
    requires Inv(s) && Enabled(s, e)
    ensures NoLostWakeup(Apply(s, e))
  {
    var s' := Apply(s, e);
    var t := e.t;
    if w :| 0 <= w < |s'.ts| && s'.ts[w].pc == Asleep {
      if e.WakeOne? {
        assert Contending(s'.ts[e.u].pc);
      } else if e.Spurious? {
        assert Contending(s'.ts[t].pc);
      } else if s.ts[t].pc == Cas20 {
        assert s'.ts[t].pc == Wake;
      } else if s'.word != 2 {
        // t did not go to sleep now, so w slept before
        assert s.ts[w].pc == Asleep;
        assert s.word != 2;
        if r :| 0 <= r < |s.ts| && s.ts[r].pc == Wake {
          assert s'.ts[r].pc == Wake;
        } else {
          var r :| 0 <= r < |s.ts| && Contending(s.ts[r].pc);
          assert Contending(s'.ts[r].pc);
        }
      }
    }
  }

  lemma InvKept(s: State, e: Event)
    requires Inv(s) && Enabled(s, e)
    ensures Inv(Apply(s, e))
  {
    OwnershipKept(s, e);
    RescueKept(s, e);
  }

  /** Every state of every run is covered by the invariant, for every schedule, with stale
      copies of the word and with spurious returns of futex_wait. */
  lemma {:induction false} InvOnRuns(s: State, es: seq<Event>)
    requires Inv(s) && Valid(s, es)
    ensures Inv(Exec(s, es))
    decreases |es|
  {
    if es != [] {
      InvKept(s, es[0]);
      InvOnRuns(Apply(s, es[0]), es[1..]);
    }
  }

  // ---------------------------------------------------------------- consequences

  /** Mutual exclusion on every run from the start: the word stays in {0,1,2} and is nonzero
      exactly when one thread, and no other, is between its acquiring and releasing exchange. */
  lemma MutualExclusion(s: State, n: nat, loops: nat, es: seq<Event>)
    requires Init(s, n, loops) && Valid(s, es)
    ensures Exec(s, es).word in {0, 1, 2}
    ensures Exec(s, es).word != 0 <==> exists t :: 0 <= t < n && Owns(Exec(s, es).ts[t].pc)
    ensures forall t, u ::
              0 <= t < n && 0 <= u < n && Owns(Exec(s, es).ts[t].pc) && Owns(Exec(s, es).ts[u].pc) ==> t == u
  {
    InvOnRuns(s, es);
  }

  /** futex_wait_lock returns only to a thread whose own exchange, in that very event, took
      the word from 0 to 1 or from 0 to 2. */
  lemma LockReturnsToWinner(s: State, e: Event, t: nat)
    requires Enabled(s, e) && t < |s.ts|
    requires s.ts[t].pc != Locked && Apply(s, e).ts[t].pc == Locked
    ensures e == Run(t) && s.word == 0
    ensures (s.ts[t].pc == Cas01 && Apply(s, e).word == 1) || (s.ts[t].pc == Cas02 && Apply(s, e).word == 2)
  {
    assert e.WakeOne? ==> t != e.t;
  }

  /** What the owner's own step does. */
  lemma OwnerStep(s: State, e: Event)
    requires Ownership(s) && Enabled(s, e) && Owns(s.ts[e.t].pc)
    ensures e.Run? && |Apply(s, e).ts| == |s.ts|
    ensures Apply(s, e).word == 0 ==> Apply(s, e).ts[e.t].pc == if s.word == 2 then Wake else Head
    ensures s.ts[e.t].pc == Cas20 ==> Apply(s, e).word == 0
  {
  }

  /** futex_cmpxchg_unlock in every run: the owner always sees 1 or 2, never returns without having
      released, puts 0 exactly once, and goes on to futex_wake exactly if it released from 2. Its
      2 -> 0 exchange always succeeds. Nobody else puts 0; others can only raise 1 to 2. */
  lemma UnlockReleasesOnce(s0: State, n: nat, loops: nat, es: seq<Event>, s: State, e: Event)
    requires Init(s0, n, loops) && Valid(s0, es) && s == Exec(s0, es) && Enabled(s, e)
    ensures s.word != 0 && Apply(s, e).word == 0 ==> e.Run? && Owns(s.ts[e.t].pc)
    ensures Owns(s.ts[e.t].pc) ==>
              && e.Run? && s.word in {1, 2}
              && (Apply(s, e).word == 0 <==> !Owns(Apply(s, e).ts[e.t].pc))
              && (Apply(s, e).word == 0 ==> Apply(s, e).ts[e.t].pc == if s.word == 2 then Wake else Head)
              && (s.ts[e.t].pc == Cas20 ==> Apply(s, e).word == 0)
    ensures forall t :: 0 <= t < n && t != e.t && Owns(s.ts[t].pc) ==>
                          Apply(s, e).word == s.word || (s.word == 1 && Apply(s, e).word == 2)
  {
    InvOnRuns(s0, es);
    hide Init, Valid, Exec, NoLostWakeup, Apply;
    EventChange(s, e);
    if Owns(s.ts[e.t].pc) {
      OwnerStep(s, e);
    }
  }

  /** A state in which no thread is awake is one in which all rounds are done and the lock is free. */
  lemma NeverAllAsleep(s: State)
    requires Inv(s)
    requires forall t :: 0 <= t < |s.ts| ==> !Awake(s.ts[t].pc)
    ensures s.word == 0
    ensures forall t :: 0 <= t < |s.ts| ==> s.ts[t].pc == Done
  {
  }

  /** No lost wake-up, on every run: a sleeper implies that the word is 2, or an unlocker has its
      futex_wake still to do, or an awake thread is in the contended loop. So no reachable state
      has all unfinished threads asleep. */
  lemma WakeupsNotLost(s0: State, n: nat, loops: nat, es: seq<Event>, s: State)
    requires Init(s0, n, loops) && Valid(s0, es) && s == Exec(s0, es)
    ensures (exists t :: 0 <= t < n && s.ts[t].pc == Asleep) ==> Rescued(s)
    ensures (exists t :: 0 <= t < n && s.ts[t].pc != Done) ==> exists t :: 0 <= t < n && Awake(s.ts[t].pc)
  {
    InvOnRuns(s0, es);
    if forall t :: 0 <= t < n ==> !Awake(s.ts[t].pc) {
      NeverAllAsleep(s);
    }
  }

  /** An awake thread always has an event of its own. */
  lemma AwakeCanAct(s: State, t: nat) returns (e: Event)
    requires t < |s.ts| && Awake(s.ts[t].pc)
    ensures Enabled(s, e) && !e.Spurious? && e.t == t
  {
    if s.ts[t].pc == Wake && exists u :: 0 <= u < |s.ts| && s.ts[u].pc == Asleep {
      var u :| 0 <= u < |s.ts| && s.ts[u].pc == Asleep;
      e := WakeOne(t, u);
    } else {
      e := Run(t);
    }
  }
}
