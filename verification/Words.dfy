/** The 32-bit words that futex operations act on, and the conversions C applies
    when a `futex_t` (unsigned) is stored in, compared with or returned as an `int`. */
module Words {

  const TWO_31 := 0x8000_0000
  const TWO_32 := 0x1_0000_0000
  const INT_MAX := 0x7fff_ffff

  /** The return codes of the tests. */
  const RET_PASS := 0
  const RET_ERROR := -1

  type u32 = x: int | 0 <= x < 0x1_0000_0000

  /** The signed reading of a word. */
  function AsInt(x: u32): (r: int)
    ensures -TWO_31 <= r <= INT_MAX
    ensures r == 0 <==> x == 0
  {
    if x < TWO_31 then x else x - TWO_32
  }

  /** The word that holds an `int`, reduced modulo 2^32. */
  function AsU32(x: int): (r: u32)
    ensures (r - x) % TWO_32 == 0
  {
    x % TWO_32
  }

  /** A word stored from an `int` reads back as that `int`, and the other way round. */
  lemma SignedRoundTrip(x: int, w: u32)
    ensures -TWO_31 <= x <= INT_MAX ==> AsInt(AsU32(x)) == x
    ensures AsU32(AsInt(w)) == w
  {
    if -TWO_31 <= x < 0 {
      assert (x + TWO_32) % TWO_32 == x % TWO_32;
    }
    if w >= TWO_31 {
      assert (w - TWO_32) % TWO_32 == w % TWO_32;
    }
  }

  /** __sync_val_compare_and_swap: the new contents of the word; the call returns the old ones. */
  function Cas(word: u32, expected: u32, desired: u32): u32 {
    if word == expected then desired else word
  }

  /** C's integer division truncates toward zero; only called on a non-negative dividend. */
  function Quotient(iterations: nat, threads: nat): (q: nat)
    requires threads >= 1
    ensures iterations - threads < threads * q <= iterations
  {
    iterations / threads
  }
}
