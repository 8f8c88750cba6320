/** The bounds of the machine integers, and arithmetic that stops at them. */
module Words {
  const U8_MAX: nat := 0xFF
  const U32_MAX: nat := 0xFFFF_FFFF
  const U64_MAX: nat := 0xFFFF_FFFF_FFFF_FFFF
  const U128_MAX: nat := 0xFFFF_FFFF_FFFF_FFFF_FFFF_FFFF_FFFF_FFFF

  function SatAdd(a: nat, b: nat, max: nat := U128_MAX): nat {
    if a + b <= max then a + b else max
  }

  function SatMul(a: nat, b: nat): nat {
    if a * b <= U128_MAX then a * b else U128_MAX
  }

  function SatSub(a: nat, b: nat): nat {
    if b <= a then a - b else 0
  }
}
