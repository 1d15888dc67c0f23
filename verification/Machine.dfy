/** Fixed-width integers as the router's release build computes them: atomic
    adds and plain `u32` additions both wrap around. */
module Machine {
  const U32_MOD := 0x1_0000_0000
  const I64_MOD := 0x1_0000_0000_0000_0000
  const I64_HALF := 0x8000_0000_0000_0000

  type uint32 = x: int | 0 <= x < 0x1_0000_0000
  type int64 = x: int | -0x8000_0000_0000_0000 <= x < 0x8000_0000_0000_0000
  type pos32 = x: int | 0 < x < 0x1_0000_0000 witness 1

  function WrapU32(x: int): uint32 {
    x % U32_MOD
  }

  function WrapI64(x: int): int64 {
    (x + I64_HALF) % I64_MOD - I64_HALF
  }

  /** `x as i64` on a float: truncation toward zero. */
  function Trunc(x: real): int {
    if x >= 0.0 then x.Floor else -((-x).Floor)
  }

  /** Wrapping is a ring homomorphism: an atomic add on the wrapped counter is
      the wrapped sum. Chains of adds therefore commute with wrapping. */
  lemma WrapAdds(x: int, d: int)
    ensures WrapU32(WrapU32(x) + d) == WrapU32(x + d)
    ensures WrapI64(WrapI64(x) + d) == WrapI64(x + d)
  {
    SameResidueU32(x + d, WrapU32(x) + d, x / U32_MOD);
    SameResidueI64(x + d + I64_HALF, WrapI64(x) + d + I64_HALF, (x + I64_HALF) / I64_MOD);
  }

  lemma SameResidueU32(a: int, b: int, q: int)
    requires a == b + q * U32_MOD
    ensures a % U32_MOD == b % U32_MOD
  {
  }

  lemma SameResidueI64(a: int, b: int, q: int)
    requires a == b + q * I64_MOD
    ensures a % I64_MOD == b % I64_MOD
  {
  }

  lemma MulAtLeast(k: int, n: int)
    requires k >= 1 && n >= 0
    ensures k * n >= n
  {
  }
}
