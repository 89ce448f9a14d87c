/**
 * Rust's fixed-width integers, as ranges of the unbounded `int`, and the
 * wrapping and truncating operations the model needs on them.
 */
module MachineIntegers {
  const U32_LIMIT: int := 0x1_0000_0000
  const U32_MAX: int := U32_LIMIT - 1

  type U32 = x: int | 0 <= x < U32_LIMIT
  type I32 = x: int | -0x8000_0000 <= x < 0x8000_0000
  type U8 = x: int | 0 <= x < 0x100

  function Max(a: U32, b: U32): (m: U32)
  {
    if a >= b then a else b
  }

  /** `u32::wrapping_sub`. */
  function WrappingSub(a: U32, b: U32): (r: U32)
  {
    (a - b) % U32_LIMIT
  }

  /** `usize as u32` keeps the low 32 bits. */
  function TruncateU32(n: nat): (r: U32)
  {
    n % U32_LIMIT
  }

  /**
   * Ticks that wrapped past u32::MAX still measure the elapsed time: the
   * wrapping difference between a tick and one `elapsed` milliseconds later
   * is `elapsed`, as long as less than 2^32 milliseconds have passed.
   */
  lemma WrappingSubMeasuresElapsed(start: U32, elapsed: nat)
    requires elapsed < U32_LIMIT
    ensures WrappingSub((start + elapsed) % U32_LIMIT, start) == elapsed
  {
    if start + elapsed < U32_LIMIT {
      assert (start + elapsed) % U32_LIMIT == start + elapsed;
    } else {
      assert (start + elapsed) % U32_LIMIT == start + elapsed - U32_LIMIT;
      assert elapsed - U32_LIMIT < 0;
      assert (elapsed - U32_LIMIT) % U32_LIMIT == elapsed;
    }
  }
}
