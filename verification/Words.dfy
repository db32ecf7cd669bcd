/** Arithmetic of unsigned 64-bit words that saturates instead of wrapping around. */
module Words {
  const U64_MAX: nat := 0xFFFF_FFFF_FFFF_FFFF

  function SaturatingAdd(a: nat, b: nat): (n: nat)
    ensures n <= a + b
  {
    if a + b <= U64_MAX then a + b else U64_MAX
  }

  function SaturatingSub(a: nat, b: nat): nat { if a >= b then a - b else 0 }

  function SaturatingMul(a: nat, b: nat): (n: nat)
    ensures n <= a * b
  {
    if a * b <= U64_MAX then a * b else U64_MAX
  }
}
