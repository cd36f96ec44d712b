/** What a futex word shows to the threads that use it: a reference for the histories of accesses,
    independent of any program. Accesses take effect one after the other; a thread blocked in
    futex_wait makes none until it is woken or the call returns by itself. */
module FutexHistory {
  import opened Words

  datatype Access =
    | Load(seen: u32)
    | Store(value: u32)
    | Xchg(expected: u32, desired: u32, seen: u32)    // futex_cmpxchg
    | Dec(now: u32)                                   // futex_dec
    | FutexWait(value: u32, blocks: bool)
    | FutexWake(limit: nat, woken: set<nat>)
    | Back                                            // futex_wait returns without a wake-up

  predicate Exchanges(a: Access, expected: u32, desired: u32) {
    a.Xchg? && a.expected == expected && a.desired == desired
  }

  predicate Waits(a: Access, value: u32) {
    a.FutexWait? && a.value == value
  }

  predicate Wakes(a: Access, limit: nat) {
    a.FutexWake? && a.limit == limit
  }

  datatype Word = Word(value: u32, sleepers: set<nat>)

  /** Thread t may make this access and see what it has seen. */
  predicate Allowed(w: Word, t: nat, a: Access) {
    match a
    case Load(seen) => t !in w.sleepers && seen == w.value
    case Store(_) => t !in w.sleepers
    case Xchg(_, _, seen) => t !in w.sleepers && seen == w.value
    case Dec(now) => t !in w.sleepers && now == AsU32(w.value - 1)
    case FutexWait(value, blocks) => t !in w.sleepers && (blocks <==> w.value == value)
    case FutexWake(limit, woken) =>
      && t !in w.sleepers && woken <= w.sleepers
      && |woken| == if limit < |w.sleepers| then limit else |w.sleepers|
    case Back => t in w.sleepers
  }

  function After(w: Word, t: nat, a: Access): Word {
    match a
    case Load(_) => w
    case Store(value) => w.(value := value)
    case Xchg(expected, desired, _) => w.(value := Cas(w.value, expected, desired))
    case Dec(now) => w.(value := now)
    case FutexWait(_, blocks) => if blocks then w.(sleepers := w.sleepers + {t}) else w
    case FutexWake(_, woken) => w.(sleepers := w.sleepers - woken)
    case Back => w.(sleepers := w.sleepers - {t})
  }
}
