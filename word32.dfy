/** Unsigned 32-bit machine words, as the `unsigned int` counters of the
    object header behave: every increment, decrement, add and subtract wraps
    around modulo 2^32. */
module Word32 {

  const MODULUS: int := 0x1_0000_0000
  const MAX: int := 0xFFFF_FFFF

  type Word = x: int | 0 <= x < MODULUS

  /** Unsigned addition with wrap-around. */
  function Add(x: Word, y: Word): (r: Word)
    ensures x + y < MODULUS ==> r == x + y
    ensures x + y >= MODULUS ==> r == x + y - MODULUS
  {
    (x + y) % MODULUS
  }

  /** Unsigned subtraction with wrap-around. */
  function Sub(x: Word, y: Word): (r: Word)
    ensures y <= x ==> r == x - y
    ensures x < y ==> r == x - y + MODULUS
  {
    (x - y) % MODULUS
  }

  /** The value an atomic increment leaves behind. */
  function Inc(x: Word): (r: Word)
    ensures x < MAX ==> r == x + 1
    ensures x == MAX ==> r == 0
  {
    Add(x, 1)
  }

  /** The value an atomic decrement leaves behind. */
  function Dec(x: Word): (r: Word)
    ensures 0 < x ==> r == x - 1
    ensures x == 0 ==> r == MAX
  {
    Sub(x, 1)
  }

  /** Adding back what was subtracted recovers the prior value: this is how
      the C code reads the pre-update value of a counter after the atomic
      operation returned the new one. */
  lemma AddSubInverse(x: Word, y: Word)
    ensures Add(Sub(x, y), y) == x
    ensures Sub(Add(x, y), y) == x
  {
  }
}
