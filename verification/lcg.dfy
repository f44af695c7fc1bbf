/** The demo's linear congruential generator: one `u32` seed, starting at
    12345, stepped by `seed * 1103515245 + 12345` in wrapping 32-bit
    arithmetic and then masked to 31 bits. Each step also yields a value in
    [0, 1], idealised here as an exact real quotient. */
module Lcg {
  import opened MachineInts

  const INITIAL_SEED: u32 := 12345
  /** `0x7fffffff`: both the mask and the divisor of the generator. */
  const MASK31: int := 0x7FFF_FFFF
  /** 2^31, the modulus the mask reduces by. Remainders below write the
      numeral `0x8000_0000` itself, for the reason given at `MachineInts.U32_MODULUS`. */
  const MOD31: int := 0x8000_0000

  /** One seed update as the code writes it: a wrapping `u32` multiply-add,
      then `& 0x7fffffff`, which on a non-negative 32-bit value keeps the low
      31 bits. */
  function NextSeedAsWritten(seed: u32): (r: u32)
    ensures r as int < MOD31
  {
    (WrapU32(seed as int * 1103515245 + 12345) as int % 0x8000_0000) as u32
  }

  /** The seed update as the rest of the model uses it, with one remainder:
      `(seed * 1103515245 + 12345) mod 2^31`. `NextSeedIsMod31` shows it
      equal to the code's two-stage update for every seed. */
  function NextSeed(seed: u32): (r: u32)
    ensures r as int < MOD31
  {
    ((seed as int * 1103515245 + 12345) % 0x8000_0000) as u32
  }

  /** Reducing modulo 2^32 and then modulo 2^31 is reducing modulo 2^31,
      since 2^31 divides 2^32. */
  lemma ModOfMod(v: int)
    ensures v % 0x1_0000_0000 % 0x8000_0000 == v % 0x8000_0000
  {
    var q := v / 0x1_0000_0000;
    var w := v % 0x1_0000_0000;
    assert v == q * 0x1_0000_0000 + w;
    assert q * 0x1_0000_0000 == (2 * q) * 0x8000_0000;
    ModAddMultiple(w, 2 * q);
  }

  lemma ModAddMultiple(w: int, k: int)
    ensures (k * 0x8000_0000 + w) % 0x8000_0000 == w % 0x8000_0000
  {
    var a := w / 0x8000_0000;
    var b := w % 0x8000_0000;
    assert k * 0x8000_0000 + w == (k + a) * 0x8000_0000 + b;
  }

  /** The code's wrapping-then-masking update is the mod-2^31 update. */
  lemma NextSeedIsMod31(seed: u32)
    ensures NextSeedAsWritten(seed) == NextSeed(seed)
  {
    ModOfMod(seed as int * 1103515245 + 12345);
  }

  /** The seed after n draws starting from `seed`. */
  function Draws(seed: u32, n: nat): u32 {
    if n == 0 then seed else NextSeed(Draws(seed, n - 1))
  }

  /** Drawing a then b times is drawing a + b times. */
  lemma {:induction false} DrawsAdd(seed: u32, a: nat, b: nat)
    ensures Draws(Draws(seed, a), b) == Draws(seed, a + b)
    decreases b
  {
    if b > 0 {
      DrawsAdd(seed, a, b - 1);
    }
  }

  /** The seed after n draws from the start of the program. */
  function SeedAfter(n: nat): u32 {
    Draws(INITIAL_SEED, n)
  }

  /** Every seed the program ever holds is at most `0x7fffffff`. */
  lemma SeedAfterBounded(n: nat)
    ensures SeedAfter(n) as int <= MASK31
  {
  }

  /** The first draws from 12345, pinned. */
  lemma FirstSeeds()
    ensures NextSeedAsWritten(INITIAL_SEED) == 1406932606
    ensures SeedAfter(1) == 1406932606
    ensures SeedAfter(2) == 654583775
    ensures SeedAfter(3) == 1449466924
  {
    assert NextSeed(INITIAL_SEED) == 1406932606;
    assert NextSeed(1406932606) == 654583775;
    assert NextSeed(654583775) == 1449466924;
    assert Draws(INITIAL_SEED, 1) == 1406932606;
    assert Draws(INITIAL_SEED, 2) == 654583775;
  }

  /** The uniform value `f32(seed) / f32(0x7fffffff)` of a freshly drawn seed,
      as an exact real. */
  function UnitValue(seed: u32): (v: real)
    requires seed as int <= MASK31
    ensures 0.0 <= v <= 1.0
  {
    seed as real / MASK31 as real
  }

  /** The outcome of one draw: the new seed and the value derived from it. */
  datatype Draw = Draw(seed: u32, value: real)

  /** `random()`: step the seed and return the value derived from it. */
  function Random(seed: u32): (d: Draw)
    ensures d.seed == NextSeed(seed)
    ensures 0.0 <= d.value <= 1.0
    ensures d.value * MASK31 as real == d.seed as real
  {
    var s := NextSeed(seed);
    Draw(s, UnitValue(s))
  }

  /** `randomRange(min, max)`: one draw mapped linearly onto [min, max]. */
  function RandomRange(seed: u32, lo: real, hi: real): (d: Draw)
    requires lo <= hi
    ensures d.seed == NextSeed(seed)
    ensures lo <= d.value <= hi
  {
    var u := Random(seed);
    ScaleWithin(u.value, lo, hi);
    Draw(u.seed, lo + u.value * (hi - lo))
  }

  lemma ScaleWithin(u: real, lo: real, hi: real)
    requires 0.0 <= u <= 1.0 && lo <= hi
    ensures lo <= lo + u * (hi - lo) <= hi
  {
    assert u * (hi - lo) <= 1.0 * (hi - lo);
  }
}
