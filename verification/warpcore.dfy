/** The frame controller of the demo: the global state, the one-time set-up
    `start`, and the per-frame `update` that runs `start` lazily, advances
    the star pool, runs one sequencer step and counts the frame. Drawing
    (screen clear, projection, scroller text) happens through host calls
    and is not part of this state. */
module Warpcore {
  import opened MachineInts
  import opened Lcg
  import opened Starfield
  import Sequencer
  import Pixels

  /** The program's globals: the star array, the generator seed, whether the
      scroller has been created (the flag `update` tests to decide whether
      `start` still has to run) and the sequencer's `frameCounter` and
      `lastBassAct`. */
  datatype Game = Game(stars: seq<Star>, seed: u32, started: bool, audio: Sequencer.State)

  /** The globals as the module initialises them, before any lifecycle call. */
  const INITIAL_GAME: Game := Game([], INITIAL_SEED, false, Sequencer.INITIAL)

  /** `start`: appends 150 freshly spawned stars to the array and creates the
      scroller. It has no guard of its own and does not reset the sequencer. */
  function Start(g: Game): (r: Game)
    ensures |r.stars| == |g.stars| + STAR_COUNT
    ensures r.stars[..|g.stars|] == g.stars
    ensures AllValid(g.stars) ==> AllValid(r.stars)
    ensures forall i :: |g.stars| <= i < |r.stars| ==> ValidDepth(r.stars[i].z)
    ensures forall i :: |g.stars| <= i < |r.stars| ==> InLateralRange(r.stars[i])
    ensures r.started
    ensures r.audio == g.audio
    ensures r.seed == Draws(g.seed, 3 * STAR_COUNT)
  {
    var spawned := SpawnStars(STAR_COUNT, g.seed);
    SpawnStarsDraws(STAR_COUNT, g.seed);
    g.(stars := g.stars + spawned.stars, seed := spawned.seed, started := true)
  }

  /** What one frame leaves behind: the new globals and the tones it
      triggered, in order. */
  datatype Frame = Frame(game: Game, events: seq<Sequencer.Tone>)

  /** `update`: `start` if the scroller is still unset, then the depth step
      of every star (the ones `start` just spawned included), then one
      sequencer step with `frameCounter++`. */
  function Update(g: Game): (r: Frame)
    ensures r.game.started
    ensures g.started ==> |r.game.stars| == |g.stars|
    ensures g.started ==> forall i :: 0 <= i < |g.stars| ==> Advanced(g.stars[i], r.game.stars[i])
    ensures !g.started ==> |r.game.stars| == |g.stars| + STAR_COUNT
    ensures !g.started ==>
      forall i :: 0 <= i < |Start(g).stars| ==> Advanced(Start(g).stars[i], r.game.stars[i])
    ensures AllValid(g.stars) ==> AllValid(r.game.stars)
    ensures r.game.audio.frameCounter == WrapU32(g.audio.frameCounter as int + 1)
    ensures r.game.audio.lastBassAct == Sequencer.ActIndex(g.audio.frameCounter)
    ensures Sequencer.BassCount(r.events) ==
      if Sequencer.ActIndex(g.audio.frameCounter) != g.audio.lastBassAct then 1 else 0
    ensures Sequencer.ArpCount(r.events) ==
      if g.audio.frameCounter as int % 8 == 0 then 1 else 0
    ensures r.events == Sequencer.Step(g.audio).events
  {
    var ready := if g.started then g else Start(g);
    var pool := AdvancePool(ready.stars, ready.seed);
    var tick := Sequencer.Step(ready.audio);
    Sequencer.StepEvents(ready.audio);
    Frame(Game(pool.stars, pool.seed, true, tick.state), tick.events)
  }

  /** The generator seed one frame leaves: the set-up's 450 draws if the
      scroller was still unset, then two draws per star the frame recycles,
      counted over the pool as it stood after the set-up. */
  lemma UpdateSeed(g: Game)
    ensures g.started ==> Update(g).game.seed == Draws(g.seed, 2 * Recycled(g.stars))
    ensures !g.started ==>
      Update(g).game.seed == Draws(g.seed, 3 * STAR_COUNT + 2 * Recycled(Start(g).stars))
  {
    if g.started {
      UpdateSeedStarted(g);
    } else {
      UpdateSeedFresh(g);
    }
  }

  /** A frame after set-up draws twice per recycled star. */
  lemma UpdateSeedStarted(g: Game)
    requires g.started
    ensures Update(g).game.seed == Draws(g.seed, 2 * Recycled(g.stars))
  {
    assert Update(g).game.seed == AdvancePool(g.stars, g.seed).seed;
    AdvancePoolDraws(g.stars, g.seed);
  }

  /** The first frame draws for the set-up, then twice per recycled star. */
  lemma UpdateSeedFresh(g: Game)
    requires !g.started
    ensures Update(g).game.seed == Draws(g.seed, 3 * STAR_COUNT + 2 * Recycled(Start(g).stars))
  {
    var ready := Start(g);
    var recycled := 2 * Recycled(ready.stars);
    var after := AdvancePool(ready.stars, ready.seed).seed;
    assert after == Draws(g.seed, 3 * STAR_COUNT + recycled) by {
      AdvancePoolDraws(ready.stars, ready.seed);
      assert ready.seed == Draws(g.seed, 3 * STAR_COUNT);
      DrawsAdd(g.seed, 3 * STAR_COUNT, recycled);
    }
    assert Update(g).game.seed == after;
  }

  /** The state every reachable game keeps: all depths in [1, MAX_DISTANCE],
      no stars before set-up and exactly 150 after it. */
  predicate Invariant(g: Game) {
    && AllValid(g.stars)
    && |g.stars| == (if g.started then STAR_COUNT else 0)
  }

  /** Before the first lifecycle call there are no stars and no scroller,
      the seed is 12345, the counter is 0 and `lastBassAct` is the
      sentinel. */
  lemma InitialInvariant()
    ensures Invariant(INITIAL_GAME)
    ensures !INITIAL_GAME.started && INITIAL_GAME.stars == []
    ensures INITIAL_GAME.seed == 12345
    ensures INITIAL_GAME.audio == Sequencer.State(0, U32_MAX)
  {
  }

  /** Each frame keeps the invariant: the lazy `start` fills an empty pool
      once, and no later frame adds or removes a star. */
  lemma UpdateKeepsInvariant(g: Game)
    requires Invariant(g)
    ensures Invariant(Update(g).game)
    ensures |Update(g).game.stars| == STAR_COUNT
  {
  }

  /** One frame seen from outside: the invariant holds again, the pool is
      full and, below the wrap point, the counter goes up by one. */
  lemma UpdateFrame(g: Game)
    requires Invariant(g) && g.audio.frameCounter < U32_MAX
    ensures Invariant(Update(g).game)
    ensures Update(g).game.started && |Update(g).game.stars| == STAR_COUNT
    ensures Update(g).game.audio.frameCounter as int == g.audio.frameCounter as int + 1
  {
    UpdateKeepsInvariant(g);
  }

  /** n frames starting from the globals g. */
  function Frames(g: Game, n: nat): Game {
    if n == 0 then g else Update(Frames(g, n - 1)).game
  }

  /** n frames from the initial globals. */
  function Play(n: nat): Game {
    Frames(INITIAL_GAME, n)
  }

  /** From any globals that keep the invariant, n frames keep it, fill the
      pool, and advance the counter by n as long as it does not wrap. */
  lemma {:induction false} FramesInvariant(g: Game, n: nat)
    requires Invariant(g) && g.audio.frameCounter as int + n < U32_MODULUS
    ensures Invariant(Frames(g, n))
    ensures Frames(g, n).audio.frameCounter as int == g.audio.frameCounter as int + n
    ensures n > 0 ==> Frames(g, n).started && |Frames(g, n).stars| == STAR_COUNT
  {
    if n > 0 {
      var before := Frames(g, n - 1);
      assert Invariant(before)
        && before.audio.frameCounter as int == g.audio.frameCounter as int + n - 1 by {
        FramesInvariant(g, n - 1);
      }
      assert Frames(g, n) == Update(before).game;
      UpdateFrame(before);
    }
  }

  /** After n >= 1 frames the pool holds 150 stars, all with depth in
      [1, MAX_DISTANCE], and the frame counter is n. */
  lemma PlayInvariant(n: nat)
    requires n < U32_MODULUS
    ensures Invariant(Play(n))
    ensures Play(n).audio.frameCounter as int == n
    ensures n > 0 ==> Play(n).started && |Play(n).stars| == STAR_COUNT
  {
    InitialInvariant();
    FramesInvariant(INITIAL_GAME, n);
  }

  /** The lazy set-up runs once: from any globals before set-up, the second
      `update` advances the stars the first one spawned instead of spawning
      new ones. */
  lemma SecondUpdateKeepsPool(g: Game)
    requires Invariant(g) && !g.started
    ensures |Update(g).game.stars| == STAR_COUNT
    ensures |Update(Update(g).game).game.stars| == STAR_COUNT
    ensures forall i :: 0 <= i < STAR_COUNT ==>
      Advanced(Update(g).game.stars[i], Update(Update(g).game).game.stars[i])
  {
    var first := Update(g).game;
    assert first.started && |first.stars| == STAR_COUNT;
    assert |Update(first).game.stars| == STAR_COUNT;
  }

  /** `start` itself is not idempotent: a second explicit call appends a
      second set of 150 stars. */
  lemma StartTwiceDoublesPool()
    ensures |Start(Start(INITIAL_GAME)).stars| == 2 * STAR_COUNT
  {
  }

  /** The tier colours always draw: a far star is drawn in palette entry 1
      and a near one in entry 2, and an on-screen `pset` with the tier
      colour stores that entry. */
  lemma TierColorDraws(fb: seq<bv8>, z: real, x: int, y: int)
    requires Pixels.IsFramebuffer(fb) && Pixels.InScreen(x, y)
    ensures Pixels.ColorIndex(DepthTier(z)) == if z > FAR_PLANE_DISTANCE then 1 else 2
    ensures Pixels.Pixel(Pixels.Pset(fb, DepthTier(z), x, y), x, y) ==
      if z > FAR_PLANE_DISTANCE then 1 else 2
  {
    Pixels.PsetThenPixel(fb, DepthTier(z), x, y);
  }
}
