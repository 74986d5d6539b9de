/**
  The CPU's unsigned machine values: `unsigned char` cells and registers, and `unsigned short`
  opcodes and addresses. They are bounded integers, so every wrap-around is written out.
  Also the contents of a value-initialised array.
 */
module Words {
  newtype Byte = x: int | 0 <= x < 0x100
  newtype Word = x: int | 0 <= x < 0x1_0000

  /**
    Unsigned 16-bit addition, as `unsigned short += int` truncates it: the plain sum when it
    fits, and the sum less 2^16 when it overflows by less than 2^16.
   */
  function WrapAdd(a: Word, k: nat): (r: Word)
    ensures a as int + k < 0x1_0000 ==> r as int == a as int + k
    ensures 0x1_0000 <= a as int + k < 0x2_0000 ==> r as int == a as int + k - 0x1_0000
  {
    ((a as int + k) % 0x1_0000) as Word
  }

  /** n copies of x: what value-initialisation leaves in an array of n elements (zero, or null). */
  function Repeat<T>(x: T, n: nat): (s: seq<T>)
    ensures |s| == n
    ensures forall i :: 0 <= i < n ==> s[i] == x
  {
    seq(n, _ => x)
  }
}
