/** The futex operations of include/futextest.h and the counters of include/atomic.h, updated in
    place. Every method is one atomic step. */
module FutexWord {
  import opened Words

  /** A futex word and the threads blocked on it in FUTEX_WAIT. */
  class Futex {
    var word: u32
    var sleepers: set<nat>

    constructor (value: u32)
      ensures word == value && sleepers == {}
    {
      word := value;
      sleepers := {};
    }

    /** futex_cmpxchg: returns the old word. */
    method CmpXchg(expected: u32, desired: u32) returns (seen: u32)
      modifies this`word
      ensures seen == old(word) && word == Cas(old(word), expected, desired)
      ensures seen == expected ==> word == desired
      ensures seen != expected ==> word == old(word)
    {
      seen := word;
      if word == expected {
        word := desired;
      }
    }

    /** futex_dec: wraps below zero; returns the new word. */
    method Dec() returns (now: u32)
      modifies this`word
      ensures now == word == AsU32(old(word) - 1)
      ensures old(word) > 0 ==> word == old(word) - 1
    {
      word := AsU32(word - 1);
      now := word;
    }

    /** futex_set, and a plain store of an int; returns the new word. */
    method Set(value: int) returns (now: u32)
      modifies this`word
      ensures now == word == AsU32(value)
    {
      word := AsU32(value);
      now := word;
    }

    /** FUTEX_WAIT: blocks the caller if the word still is `value`, otherwise EWOULDBLOCK. */
    method Wait(t: nat, value: u32) returns (blocked: bool)
      modifies this`sleepers
      ensures blocked <==> word == value
      ensures sleepers == if blocked then old(sleepers) + {t} else old(sleepers)
    {
      blocked := word == value;
      if blocked {
        sleepers := sleepers + {t};
      }
    }

    /** FUTEX_WAIT returns although nobody woke the caller. */
    method ReturnSpuriously(t: nat)
      modifies this`sleepers
      ensures sleepers == old(sleepers) - {t}
    {
      sleepers := sleepers - {t};
    }

    /** FUTEX_WAKE: unblocks n sleepers, or all if there are fewer, in any order. */
    method Wake(n: nat) returns (woken: set<nat>)
      modifies this`sleepers
      ensures woken <= old(sleepers) && sleepers == old(sleepers) - woken
      ensures |woken| == if n < |old(sleepers)| then n else |old(sleepers)|
      ensures |old(sleepers)| <= n ==> sleepers == {}
    {
      woken := {};
      while |woken| < n && sleepers != {}
        invariant woken + sleepers == old(sleepers) && woken !! sleepers
        invariant |woken| <= n && |woken| + |sleepers| == |old(sleepers)|
        decreases |sleepers|
      {
        var t :| t in sleepers;
        woken, sleepers := woken + {t}, sleepers - {t};
      }
    }

    /** FUTEX_WAKE of one thread: any sleeper, if there is one. */
    method WakeAny() returns (found: bool, t: nat)
      modifies this`sleepers
      ensures found <==> old(sleepers) != {}
      ensures found ==> t in old(sleepers)
      ensures sleepers == if found then old(sleepers) - {t} else {}
    {
      var woken := Wake(1);
      found, t := woken != {}, 0;
      if found {
        t :| t in woken;
        assert |woken - {t}| == 0;
        assert woken == {t};
      }
    }
  }

  /** atomic_t */
  class AtomicInt {
    var val: int

    constructor (v: int)
      ensures val == v
    {
      val := v;
    }

    /** atomic_inc */
    method Inc() returns (now: int)
      modifies this
      ensures now == val == old(val) + 1
    {
      val := val + 1;
      now := val;
    }

    /** atomic_set */
    method Set(v: int) returns (now: int)
      modifies this
      ensures now == val == v
    {
      val := v;
      now := v;
    }
  }
}
