/** Fixed-width unsigned integers of the AssemblyScript program, written as
    bounded Dafny integers with explicit wrap-around. */
module MachineInts {

  /** 2^32. Remainders and bounds in function bodies write the numeral
      `0x1_0000_0000` itself: the verifier's integer arithmetic handles a
      remainder by a numeral, but treats a remainder by a named constant as
      nonlinear. Contracts use the name. */
  const U32_MODULUS: int := 0x1_0000_0000

  /** An AssemblyScript `u32`. */
  newtype u32 = x: int | 0 <= x < 0x1_0000_0000

  /** The largest `u32`; also the sentinel the sequencer uses for "no act yet". */
  const U32_MAX: u32 := 0xFFFF_FFFF

  /** Truncation of an arbitrary integer to 32 bits, as `u32` arithmetic does. */
  function WrapU32(v: int): (r: u32)
    ensures 0 <= v < U32_MODULUS ==> r as int == v
    ensures v == U32_MODULUS ==> r == 0
  {
    (v % 0x1_0000_0000) as u32
  }
}
