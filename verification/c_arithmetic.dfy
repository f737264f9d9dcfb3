/** The parts of C integer arithmetic the server relies on: division that truncates
    toward zero (section 6.5.5 of ISO/IEC 9899:1999) and conversion to a narrower type,
    which on the supported compilers keeps the value modulo the width. */
module CArithmetic {

  function Abs(n: int): int { if n < 0 then -n else n }

  function DivTrunc(n: int, d: int): int
    requires d > 0
  {
    if n < 0 then -((-n) / d) else n / d
  }

  function RemTrunc(n: int, d: int): int
    requires d > 0
  {
    if n < 0 then -((-n) % d) else n % d
  }

  predicate FitsInt16(n: int) { -0x8000 <= n < 0x8000 }

  predicate FitsInt32(n: int) { -0x8000_0000 <= n < 0x8000_0000 }

  function Uint16(n: int): (w: int)
    ensures 0 <= w < 0x1_0000 && (0 <= n < 0x1_0000 ==> w == n)
  {
    n % 0x1_0000
  }

  function Int16(n: int): (v: int)
    ensures FitsInt16(v) && (v - n) % 0x1_0000 == 0
    ensures FitsInt16(n) ==> v == n
  {
    if n % 0x1_0000 < 0x8000 then n % 0x1_0000 else n % 0x1_0000 - 0x1_0000
  }

  function Int32(n: int): (v: int)
    ensures FitsInt32(v) && (v - n) % 0x1_0000_0000 == 0
    ensures FitsInt32(n) ==> v == n
  {
    if n % 0x1_0000_0000 < 0x8000_0000 then n % 0x1_0000_0000 else n % 0x1_0000_0000 - 0x1_0000_0000
  }

  /** A 16-bit register returns a signed value unchanged: store it unsigned, read it signed. */
  lemma RegisterKeepsInt16(n: int)
    requires FitsInt16(n)
    ensures Int16(Uint16(n)) == n
  {
  }

  /** Bit k of a natural number. */
  function Bit(n: nat, k: nat): (b: nat)
    ensures b <= 1
  {
    if k == 0 then n % 2 else Bit(n / 2, k - 1)
  }
}
