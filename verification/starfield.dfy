/** The star pool: 150 stars moving towards the viewer, each recycled to the
    far plane when it passes the near limit, and the depth tier that picks a
    star's draw colour. Depth is an exact real standing in for the `f32`
    field; lateral coordinates and depths come from the generator of `Lcg`. */
module Starfield {
  import opened MachineInts
  import opened Lcg

  const STAR_COUNT: nat := 150
  const MAX_DISTANCE: real := 200.0
  const FAR_PLANE_DISTANCE: real := MAX_DISTANCE / 2.0
  const SPEED: real := 2.0
  /** A star whose depth falls below this is recycled. */
  const NEAR_LIMIT: real := 1.0
  /** Lateral coordinates are drawn from [-LATERAL, LATERAL]. */
  const LATERAL: real := 80.0

  datatype Star = Star(x: real, y: real, z: real)

  /** The depth range every star keeps, which makes `1.0 / z` well defined. */
  predicate ValidDepth(z: real) {
    NEAR_LIMIT <= z <= MAX_DISTANCE
  }

  predicate InLateralRange(s: Star) {
    -LATERAL <= s.x <= LATERAL && -LATERAL <= s.y <= LATERAL
  }

  predicate AllValid(stars: seq<Star>) {
    forall i :: 0 <= i < |stars| ==> ValidDepth(stars[i].z)
  }

  /** A star together with the generator seed after producing it. */
  datatype Respawn = Respawn(star: Star, seed: u32)

  /** `resetStar`: fresh x and y (one draw each, x first) and the far depth.
      Every field of the old star is overwritten, so only the seed matters. */
  function ResetStar(seed: u32): (r: Respawn)
    ensures r.star.z == MAX_DISTANCE
    ensures InLateralRange(r.star)
    ensures r.seed == Draws(seed, 2)
  {
    var dx := RandomRange(seed, -LATERAL, LATERAL);
    var dy := RandomRange(dx.seed, -LATERAL, LATERAL);
    assert Draws(seed, 2) == NextSeed(Draws(seed, 1));
    Respawn(Star(dx.value, dy.value, MAX_DISTANCE), dy.seed)
  }

  /** How one frame changes one star: either it moved SPEED closer and kept
      its lateral position, or its depth fell below the near limit and it was
      recycled to the far plane at a fresh lateral position. */
  predicate Advanced(before: Star, after: Star) {
    if Recycles(before) then
      after.z == MAX_DISTANCE && InLateralRange(after)
    else
      after.x == before.x && after.y == before.y && after.z == before.z - SPEED
  }

  /** The depth step of the frame loop: `z -= SPEED`, then `resetStar` if
      `z < 1`. */
  function AdvanceStar(star: Star, seed: u32): (r: Respawn)
    ensures Advanced(star, r.star)
    ensures star.z - SPEED >= NEAR_LIMIT ==> r.seed == seed
    ensures star.z - SPEED < NEAR_LIMIT ==> r.seed == Draws(seed, 2)
    ensures ValidDepth(star.z) ==> ValidDepth(r.star.z)
    ensures ValidDepth(star.z) ==> (r.star.z == MAX_DISTANCE <==> star.z - SPEED < NEAR_LIMIT)
  {
    var moved := star.(z := star.z - SPEED);
    if moved.z < NEAR_LIMIT then ResetStar(seed) else Respawn(moved, seed)
  }

  /** The star pool together with the generator seed after producing it. */
  datatype Pool = Pool(stars: seq<Star>, seed: u32)

  /** The depth steps of one frame over the whole pool, in index order, each
      recycled star drawing from the seed the previous one left. */
  function AdvancePool(stars: seq<Star>, seed: u32): (r: Pool)
    ensures |r.stars| == |stars|
    ensures forall i :: 0 <= i < |stars| ==> Advanced(stars[i], r.stars[i])
    ensures AllValid(stars) ==> AllValid(r.stars)
    decreases |stars|
  {
    if |stars| == 0 then Pool([], seed)
    else
      var first := AdvanceStar(stars[0], seed);
      var rest := AdvancePool(stars[1..], first.seed);
      Pool([first.star] + rest.stars, rest.seed)
  }

  /** Whether one frame's depth step recycles the star. */
  predicate Recycles(star: Star) {
    star.z - SPEED < NEAR_LIMIT
  }

  /** The number of stars one frame's depth step recycles. */
  function Recycled(stars: seq<Star>): (n: nat)
    ensures n <= |stars|
  {
    if |stars| == 0 then 0
    else (if Recycles(stars[0]) then 1 else 0) + Recycled(stars[1..])
  }

  /** The frame loop draws from one seed in index order: each recycled star
      uses two draws and every other star none, so the pool leaves the seed
      two draws per recycled star further on. */
  lemma {:induction false} AdvancePoolDraws(stars: seq<Star>, seed: u32)
    ensures AdvancePool(stars, seed).seed == Draws(seed, 2 * Recycled(stars))
    decreases |stars|
  {
    if |stars| > 0 {
      var first := AdvanceStar(stars[0], seed);
      var k := if Recycles(stars[0]) then 2 else 0;
      var later := 2 * Recycled(stars[1..]);
      assert first.seed == Draws(seed, k);
      assert AdvancePool(stars, seed).seed == AdvancePool(stars[1..], first.seed).seed;
      assert AdvancePool(stars[1..], first.seed).seed == Draws(first.seed, later) by {
        AdvancePoolDraws(stars[1..], first.seed);
      }
      assert Draws(Draws(seed, k), later) == Draws(seed, 2 * Recycled(stars)) by {
        assert k + later == 2 * Recycled(stars);
        DrawsAdd(seed, k, later);
      }
    }
  }

  /** One iteration of the set-up loop in `start`: a reset star (two draws)
      whose depth is then redrawn from [1, MAX_DISTANCE] (a third draw), so
      the initial field has no wavefront. */
  function SpawnStar(seed: u32): (r: Respawn)
    ensures ValidDepth(r.star.z) && InLateralRange(r.star)
    ensures r.seed == Draws(seed, 3)
  {
    var reset := ResetStar(seed);
    var dz := RandomRange(reset.seed, NEAR_LIMIT, MAX_DISTANCE);
    Respawn(reset.star.(z := dz.value), dz.seed)
  }

  /** `count` iterations of the set-up loop. */
  function SpawnStars(count: nat, seed: u32): (r: Pool)
    ensures |r.stars| == count
    ensures AllValid(r.stars)
    ensures forall i :: 0 <= i < count ==> InLateralRange(r.stars[i])
  {
    if count == 0 then Pool([], seed)
    else
      var first := SpawnStar(seed);
      var rest := SpawnStars(count - 1, first.seed);
      Pool([first.star] + rest.stars, rest.seed)
  }

  /** The set-up loop consumes exactly three draws per star. */
  lemma {:induction false} SpawnStarsDraws(count: nat, seed: u32)
    ensures SpawnStars(count, seed).seed == Draws(seed, 3 * count)
  {
    if count > 0 {
      var first := SpawnStar(seed);
      var rest := SpawnStars(count - 1, first.seed);
      assert SpawnStars(count, seed).seed == rest.seed;
      assert rest.seed == Draws(Draws(seed, 3), 3 * (count - 1)) by {
        SpawnStarsDraws(count - 1, first.seed);
      }
      assert Draws(Draws(seed, 3), 3 * (count - 1)) == Draws(seed, 3 * count) by {
        assert 3 + 3 * (count - 1) == 3 * count;
        DrawsAdd(seed, 3, 3 * (count - 1));
      }
    }
  }

  /** The draw-colour register value for a star at depth z: 2 (palette 1)
      beyond the far plane, 3 (palette 2) at or nearer than it. */
  function DepthTier(z: real): (c: bv16)
    ensures c == 2 || c == 3
    ensures c == 2 <==> z > FAR_PLANE_DISTANCE
  {
    if z > FAR_PLANE_DISTANCE then 2 else 3
  }
}
