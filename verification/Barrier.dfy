/** The thread barrier of performance/harness.h: N workers count `threads` down and block on
    `unblock`; the main thread blocks on `threads` and then opens `unblock` with a value. */
module Barrier {
  import opened Words
  import opened Sums

  /** A worker in barrier_sync. */
  datatype WPc =
    | Away                  // has not called barrier_sync; futex_dec comes next
    | Test                  // re-reads `threads`
    | WakeMain              // futex_wake(threads, 1)
    | Check                 // reads `unblock` in the loop test
    | Wait                  // futex_wait(unblock, 0)
    | Asleep
    | Return                // reads `unblock` for the return value
    | Left(value: int)      // barrier_sync has returned `value`

  /** The main thread in barrier_wait and barrier_unblock. */
  datatype MPc =
    | Idle                  // has called neither
    | Reading               // reads `threads` in the loop test
    | Waiting(seen: int)    // futex_wait(threads, seen)
    | Sleeping
    | Ready                 // barrier_wait has returned
    | Waking                // `unblock` is written; futex_wake(unblock, INT_MAX) comes next
    | Gone                  // barrier_unblock has returned

  /** `spurious` bounds the futex_wait calls that may still return without a wake-up. */
  datatype State = State(threads: u32, unblock: u32, ws: seq<WPc>, main: MPc, spurious: nat)

  datatype Event =
    | Worker(t: nat)
    | Main
    | Begin                 // main calls barrier_wait
    | Open(value: int)      // main stores `value` in `unblock`
    | SpuriousWorker(t: nat)
    | SpuriousMain

  /** barrier_init, before any worker or the main thread has come. */
  function Fresh(n: nat, spurious: nat): State {
    State(AsU32(n), 0, seq(n, _ => Away), Idle, spurious)
  }

  function StepWorker(s: State, t: nat): State
    requires t < |s.ws|
  {
    match s.ws[t]
    case Away => s.(threads := AsU32(s.threads - 1), ws := s.ws[t := Test])
    case Test => s.(ws := s.ws[t := if s.threads == 0 then WakeMain else Check])
    case WakeMain => s.(ws := s.ws[t := Check], main := if s.main == Sleeping then Reading else s.main)
    case Check => s.(ws := s.ws[t := if s.unblock == 0 then Wait else Return])
    case Wait => s.(ws := s.ws[t := if s.unblock == 0 then Asleep else Check])
    case Return => s.(ws := s.ws[t := Left(AsInt(s.unblock))])
    case Asleep => s
    case Left(_) => s
  }

  function WokenAll(ws: seq<WPc>): (r: seq<WPc>)
    ensures |r| == |ws|
  {
    seq(|ws|, t requires 0 <= t < |ws| => if ws[t] == Asleep then Check else ws[t])
  }

  function StepMain(s: State): State {
    match s.main
    case Reading => s.(main := if AsInt(s.threads) > 0 then Waiting(AsInt(s.threads)) else Ready)
    case Waiting(seen) => s.(main := if s.threads == AsU32(seen) then Sleeping else Reading)
    case Waking => s.(main := Gone, ws := WokenAll(s.ws))
    case _ => s
  }

  predicate CanWork(pc: WPc) {
    pc != Asleep && !pc.Left?
  }

  predicate Enabled(s: State, e: Event) {
    match e
    case Worker(t) => t < |s.ws| && CanWork(s.ws[t])
    case Main => s.main in {Reading, Waking} || s.main.Waiting?
    case Begin => s.main == Idle
    case Open(v) => (s.main == Idle || s.main == Ready) && v != 0 && -TWO_31 <= v <= INT_MAX
    case SpuriousWorker(t) => t < |s.ws| && s.ws[t] == Asleep && s.spurious > 0
    case SpuriousMain => s.main == Sleeping && s.spurious > 0
  }

  function Apply(s: State, e: Event): (s': State)
    requires Enabled(s, e)
    ensures |s'.ws| == |s.ws|
  {
    match e
    case Worker(t) => StepWorker(s, t)
    case Main => StepMain(s)
    case Begin => s.(main := Reading)
    case Open(v) => s.(main := Waking, unblock := AsU32(v))
    case SpuriousWorker(t) => s.(ws := s.ws[t := Check], spurious := s.spurious - 1)
    case SpuriousMain => s.(main := Reading, spurious := s.spurious - 1)
  }

  // ---------------------------------------------------------------- invariant

  function AwayBit(pc: WPc): int {
    if pc == Away then 1 else 0
  }

  function AwayBits(s: State): seq<int> {
    seq(|s.ws|, t requires 0 <= t < |s.ws| => AwayBit(s.ws[t]))
  }

  /** Main may be waiting for the countdown only while it is still to finish, or while a worker
      that counted down has yet to test it and wake. */
  predicate MainRescued(s: State) {
    s.main == Sleeping ==> s.threads > 0 || exists t :: 0 <= t < |s.ws| && s.ws[t] in {Test, WakeMain}
  }

  ghost predicate Inv(s: State) {
    && 1 <= |s.ws| <= INT_MAX
    && s.threads == Sum(AwayBits(s)) <= |s.ws|
    && (s.unblock == 0 <==> s.main !in {Waking, Gone})
    && (s.main.Waiting? ==> 0 < s.main.seen <= INT_MAX)
    && (s.main == Ready ==> s.threads == 0)
    && MainRescued(s)
    && (forall t :: 0 <= t < |s.ws| ==>
          && (s.ws[t] == Asleep ==> s.main != Gone)
          && (s.ws[t] == WakeMain ==> s.threads == 0)
          && (s.ws[t] == Return ==> s.unblock != 0)
          && (s.ws[t].Left? ==> s.unblock != 0 && s.ws[t].value == AsInt(s.unblock)))
  }

  lemma FreshInv(n: nat, spurious: nat)
    requires 1 <= n <= INT_MAX
    ensures Inv(Fresh(n, spurious))
  {
    SumConst(AwayBits(Fresh(n, spurious)), 1);
  }

  /** Counting a worker out lowers the word by exactly one, without wrap-around. */
  lemma AwayStep(s: State, s': State, t: nat)
    requires Inv(s) && t < |s.ws| == |s'.ws| && s'.ws == s.ws[t := s'.ws[t]]
    ensures Sum(AwayBits(s')) == s.threads - AwayBit(s.ws[t]) + AwayBit(s'.ws[t])
    ensures s.ws[t] == Away ==> s.threads > 0
  {
    SumUpdate(AwayBits(s), t, AwayBit(s'.ws[t]));
    assert AwayBits(s') == AwayBits(s)[t := AwayBit(s'.ws[t])];
    if s.ws[t] == Away && s.threads == 0 {
      ZeroSum(AwayBits(s), t);
    }
  }

  lemma WorkerKept(s: State, t: nat)
    requires Inv(s) && Enabled(s, Worker(t))
    ensures Inv(Apply(s, Worker(t)))
  {
    var s' := Apply(s, Worker(t));
    AwayStep(s, s', t);
    if s'.main == Sleeping {
      if s.ws[t] == Away {
        assert s'.ws[t] == Test;
      } else if s.threads == 0 {
        var u :| 0 <= u < |s.ws| && s.ws[u] in {Test, WakeMain};
        assert s'.ws[u] in {Test, WakeMain};
      }
    }
  }

  lemma MainKept(s: State, e: Event)
    requires Inv(s) && Enabled(s, e) && !e.Worker? && !e.SpuriousWorker?
    ensures Inv(Apply(s, e))
  {
    var s' := Apply(s, e);
    assert AwayBits(s') == AwayBits(s);
    if e.Open? {
      SignedRoundTrip(e.value, 0);
    }
    if s.main.Waiting? && s'.main == Sleeping {
      assert AsU32(s.main.seen) == s.threads;
      SignedRoundTrip(s.main.seen, s.threads);
    }
  }

  lemma InvKept(s: State, e: Event)
    requires Inv(s) && Enabled(s, e)
    ensures Inv(Apply(s, e))
  {
    match e
    case Worker(t) => WorkerKept(s, t);
    case SpuriousWorker(t) =>
      AwayStep(s, Apply(s, e), t);
      if s.main == Sleeping && s.threads == 0 {
        var u :| 0 <= u < |s.ws| && s.ws[u] in {Test, WakeMain};
        assert Apply(s, e).ws[u] in {Test, WakeMain};
      }
    case _ => MainKept(s, e);
  }

  // ---------------------------------------------------------------- consequences

  /** Countdown arithmetic: the signed reading in barrier_wait is the exact number of workers
      that have not counted down; it is 0 exactly when all have. */
  lemma CountdownExact(s: State)
    requires Inv(s)
    ensures AsInt(s.threads) == Sum(AwayBits(s)) && 0 <= AsInt(s.threads) <= |s.ws|
    ensures AsInt(s.threads) == 0 <==> forall t :: 0 <= t < |s.ws| ==> s.ws[t] != Away
  {
    if s.threads == 0 {
      forall t | 0 <= t < |s.ws| ensures s.ws[t] != Away {
        ZeroSum(AwayBits(s), t);
      }
    } else if forall t :: 0 <= t < |s.ws| ==> s.ws[t] != Away {
      SumConst(AwayBits(s), 0);
    }
  }

  /** Main is never stranded: if it sleeps, some worker can still run, and is on the way to
      its test of the countdown. */
  lemma MainNotStranded(s: State) returns (t: nat)
    requires Inv(s) && s.main == Sleeping
    ensures t < |s.ws| && s.ws[t] in {Away, Test, WakeMain} && Enabled(s, Worker(t))
  {
    CountdownExact(s);
    t :| 0 <= t < |s.ws| && s.ws[t] in {Away, Test, WakeMain};
  }

  /** No worker is stranded: one asleep means the barrier is still shut or main has the wake
      of everybody still to do. And all workers that return, return the value main stored. */
  lemma WorkersNotStranded(s: State)
    requires Inv(s)
    ensures (exists t :: 0 <= t < |s.ws| && s.ws[t] == Asleep) ==> s.unblock == 0 || Enabled(s, Main)
    ensures forall t, u :: 0 <= t < |s.ws| && 0 <= u < |s.ws| && s.ws[t].Left? && s.ws[u].Left? ==> s.ws[t] == s.ws[u]
  {
  }

  /** Main is taken out of its sleep only with the countdown at 0, or by itself. */
  lemma MainWokenAtZero(s: State, e: Event)
    requires Inv(s) && Enabled(s, e) && s.main == Sleeping && Apply(s, e).main != Sleeping
    ensures e == SpuriousMain || (e.Worker? && s.threads == 0)
  {
  }

  /** `unblock` is written at most once, and what was written survives the unsigned word: a
      worker that returns gets the stored int back, negative ones included. */
  lemma OpenedOnce(s: State, e: Event)
    requires Inv(s) && Enabled(s, e)
    ensures e.Open? ==> s.unblock == 0 && AsInt(Apply(s, e).unblock) == e.value
    ensures !e.Open? ==> Apply(s, e).unblock == s.unblock
    ensures forall t :: 0 <= t < |s.ws| && s.ws[t].Left? ==> Apply(s, e).ws[t] == s.ws[t]
  {
    if e.Open? {
      SignedRoundTrip(e.value, 0);
    }
  }

  // ---------------------------------------------------------------- termination

  /** Steps a worker can still take; a shut barrier is worth more than an open one. */
  function Rank(pc: WPc, unblock: u32): (r: nat)
    ensures r <= 14
  {
    match pc
    case Away => 14
    case Test => 11
    case WakeMain => 10
    case Check => if unblock == 0 then 7 else 2
    case Wait => if unblock == 0 then 6 else 3
    case Asleep => if unblock == 0 then 5 else 4
    case Return => 1
    case Left(_) => 0
  }

  function MainRank(s: State): (r: nat)
    ensures r <= 7
  {
    match s.main
    case Idle => 7
    case Reading => 5
    case Waiting(seen) => if s.threads == AsU32(seen) then 4 else 6
    case Sleeping => 3
    case Ready => 2
    case Waking => 1
    case Gone => 0
  }

  function Ranks(s: State): seq<int> {
    seq(|s.ws|, t requires 0 <= t < |s.ws| => Rank(s.ws[t], s.unblock))
  }

  ghost function Measure(s: State): int {
    Sum(Ranks(s)) + MainRank(s) + 3 * s.spurious
  }

  lemma MeasureBounds(s: State)
    ensures 0 <= Measure(s) <= 14 * |s.ws| + 7 + 3 * s.spurious
  {
    SumBounds(Ranks(s), 14);
  }

  lemma WorkerDecreases(s: State, s': State, t: nat)
    requires |s'.ws| == |s.ws| && t < |s.ws| && s'.ws == s.ws[t := s'.ws[t]] && s'.unblock == s.unblock
    ensures Sum(Ranks(s')) == Sum(Ranks(s)) - Rank(s.ws[t], s.unblock) + Rank(s'.ws[t], s.unblock)
  {
    SumUpdate(Ranks(s), t, Ranks(s')[t]);
    assert Ranks(s') == Ranks(s)[t := Ranks(s')[t]];
  }

  lemma MainDecreases(s: State, e: Event)
    requires Inv(s) && Enabled(s, e) && !e.Worker? && !e.SpuriousWorker?
    ensures Measure(Apply(s, e)) < Measure(s)
  {
    if s.main == Reading {
      SignedRoundTrip(0, s.threads);
    }
    assert e.Open? ==> s.unblock == 0;
    hide Inv;
    SumMonotone(Ranks(s), Ranks(Apply(s, e)));
  }

  lemma WorkerEventDecreases(s: State, e: Event)
    requires Inv(s) && Enabled(s, e) && (e.Worker? || e.SpuriousWorker?)
    ensures Measure(Apply(s, e)) < Measure(s)
  {
    hide Inv;
    WorkerDecreases(s, Apply(s, e), e.t);
  }

  lemma StepDecreases(s: State, e: Event)
    requires Inv(s) && Enabled(s, e)
    ensures Measure(Apply(s, e)) < Measure(s)
  {
    hide Inv, Apply, Measure;
    if e.Worker? || e.SpuriousWorker? {
      WorkerEventDecreases(s, e);
    } else {
      MainDecreases(s, e);
    }
  }
}
