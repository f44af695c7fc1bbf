# Warpcore starfield core, modelled in Dafny

Warpcore is a WASM-4 demo written in AssemblyScript. It shows a 3D starfield
on the console's 160 x 160 screen, which has 2 bits per pixel, and plays a
four-chord chiptune loop. Its core is `assembly/main.ts`. This project models
that file's integer and state-machine logic as pure Dafny functions over
immutable values:

- `Pixels` models the pixel writer `pset`. The framebuffer is a `seq<bv8>` of
  6400 bytes and the draw-colour register is a `bv16`. The writer ignores
  off-screen pixels. It reads the colour index from the register's low nibble,
  minus one, truncated to `u8`. It then rewrites one 2-bit slot of one byte.
- `Lcg` models the generator's seed update. The multiply-add wraps at 32 bits
  and the result is masked to 31 bits. The model states this update once as
  written and once as a single remainder modulo 2^31, and proves the two
  equal. The generator starts from 12345. `randomRange` is modelled over
  exact reals.
- `Starfield` models the star pool. Each frame a star moves `SPEED` closer.
  When its depth falls below 1 it is recycled to `MAX_DISTANCE`. The model
  also covers the 150-star set-up loop of `start` and the depth tier that
  picks a star's draw colour.
- `Sequencer` models the audio tracker. A frame's act is
  `(frameCounter / 960) % 4`. A bass tone fires when the act differs from
  `lastBassAct`, whose initial value is the sentinel `0xFFFFFFFF`. An arpeggio
  tone fires on every eighth frame. `frameCounter` is a wrapping `u32`. Each
  host `tone` call becomes an emitted `Tone` event.
- `Warpcore` models the program's globals and the two lifecycle entry points.
  `start` has no guard. `update` runs `start` lazily while the scroller is
  unset, advances the stars, runs one sequencer step and counts the frame.
- `MachineInts` provides the `u32` type and its explicit wrap-around.

Two behaviours of the code are worth stating, because a reader might
expect otherwise:

- `start` has no guard of its own. A second direct call appends another 150
  stars (`Warpcore.StartTwiceDoublesPool`) and leaves `frameCounter` and
  `lastBassAct` untouched. Only `update` is guarded, by testing whether the
  scroller exists.
- The first seed drawn from 12345 is 1406932606, so the first value of
  `random()` is about 0.655 (`Lcg.FirstSeeds`).

## Model

| member | source | states |
|---|---|---|
| `Pixels.ColorIndex` | assembly/main.ts:85-88 | The index is at most 3 exactly when the register's low nibble is 1..4, and the index is then the nibble minus one. A nibble of 0 wraps to 255, which `pset` ignores. |
| `Pixels.Pset` | assembly/main.ts:80-99 | The result is still a 6400-byte framebuffer. Off-screen coordinates, or a colour index above 3, leave the framebuffer unchanged. Every byte except the one at `(y*160+x)>>2` is unchanged. |
| `Pixels.WriteSlotSpec` | assembly/main.ts:92-98 | The read-modify-write with mask `3 << shift` puts the value in its slot and leaves the other three slots of the byte unchanged. |
| `Pixels.ByteIndexShared` | assembly/main.ts:91 | Two on-screen pixels share a byte exactly when they are on the same row and in the same aligned group of four columns. |
| `Pixels.PsetTargetByte` | assembly/main.ts:86-98 | After an effective `pset`, the target byte's slot `x & 3` holds the nibble minus one, and its other three slots keep their old values. |
| `Pixels.PsetThenPixel` | assembly/main.ts:80-99 | Round trip: after `pset` with low nibble n in 1..4, pixel (x, y) reads back as n - 1. |
| `Pixels.PsetFrame` | assembly/main.ts:80-99 | `pset` changes no on-screen pixel other than (x, y), whatever the coordinates and the register. |
| `Lcg.NextSeedAsWritten` | assembly/main.ts:146 | The seed update exactly as written: a `u32` multiply-add that wraps at 2^32, then `& 0x7fffffff`. The result is always below 2^31. |
| `Lcg.NextSeed` | assembly/main.ts:146 | The seed update in its one-remainder form `(seed * 1103515245 + 12345) mod 2^31`, which the rest of the model uses. The result is always below 2^31. |
| `Lcg.NextSeedIsMod31` | assembly/main.ts:146 | For every `u32` seed, the code's two-stage update (wrap at 2^32, then mask to 31 bits) equals the one-remainder form, so every draw in the model is the code's draw. |
| `Lcg.SeedAfterBounded` | assembly/main.ts:143-146 | Every seed the program holds, after any number of draws from 12345, is at most `0x7fffffff`. |
| `Lcg.FirstSeeds` | assembly/main.ts:143-146 | The generator is deterministic from 12345. The code's update takes 12345 to 1406932606, and the first three seeds are 1406932606, 654583775 and 1449466924. |
| `Lcg.Random` | assembly/main.ts:145-148 | `random()` advances the seed by one step and returns a value in [0, 1] that times `0x7fffffff` gives the new seed. |
| `Lcg.RandomRange` | assembly/main.ts:150-152 | `randomRange(min, max)` uses one draw, and its value lies in [min, max]. |
| `Lcg.DrawsAdd` | assembly/main.ts:145-148 | Drawing a times and then b times is the same as drawing a + b times. |
| `Starfield.ResetStar` | assembly/main.ts:157-161 | A reset star is at `MAX_DISTANCE`, its x and y lie in [-80, 80], and the reset uses two draws. |
| `Starfield.AdvanceStar` | assembly/main.ts:282-287 | Stars with depth in [1, MAX_DISTANCE] keep it. The new depth is exactly `MAX_DISTANCE` iff `z - SPEED < 1`. A star that is not recycled keeps x, y and the seed. |
| `Starfield.AdvancePool` | assembly/main.ts:278-288 | The pool keeps its length. Each star is advanced or recycled according to its own depth. If every depth was in [1, MAX_DISTANCE], every depth stays there. |
| `Starfield.AdvancePoolDraws` | assembly/main.ts:278-288 | The loop draws from one seed in index order. Each recycled star (`z - SPEED < 1`) uses two draws and every other star none, so the pool leaves the seed exactly 2 * (number of recycled stars) draws further on. |
| `Starfield.SpawnStar` | assembly/main.ts:244-247 | A set-up star has depth in [1, MAX_DISTANCE] and x, y in [-80, 80], and it uses three draws. |
| `Starfield.SpawnStars` | assembly/main.ts:243-249 | The set-up loop yields `count` stars, all with valid depths and lateral positions in range. |
| `Starfield.SpawnStarsDraws` | assembly/main.ts:243-249 | The set-up loop uses exactly three draws per star. |
| `Starfield.DepthTier` | assembly/main.ts:300 | The draw colour is 2 iff z > 100 (`FAR_PLANE_DISTANCE`), and 3 otherwise. So z = 100 gets colour 3. |
| `Sequencer.ActIndex` | assembly/main.ts:317 | The act index is in 0..3, so it never equals the sentinel `0xFFFFFFFF`. |
| `Sequencer.Step` | assembly/main.ts:317-340 | After a frame, `frameCounter` is the old value plus one, wrapped at 2^32, and `lastBassAct` holds the frame's act. |
| `Sequencer.StepEvents` | assembly/main.ts:319-338 | A frame emits one bass tone iff its act differs from `lastBassAct`, and one arpeggio tone iff `frameCounter % 8 == 0`. Each tone uses the current act's chord from the progression. |
| `Sequencer.ActIndexNext` | assembly/main.ts:317 | Acts cycle 0, 1, 2, 3, 0. The act changes from one frame to the next exactly when the next frame is a multiple of 960. |
| `Sequencer.BassFiresAtActStart` | assembly/main.ts:317-328 | In every reachable state, the bass fires exactly on frames that are multiples of 960, frame 0 included. |
| `Sequencer.StepKeepsReachable` | assembly/main.ts:317-340 | Below the wrap point, a step keeps the state reachable and increases `frameCounter` by exactly 1. |
| `Sequencer.RunState` | assembly/main.ts:227-341 | After n frames from the initial state, `frameCounter` is n and `lastBassAct` holds the act of frame n - 1, or the sentinel if n = 0. |
| `Sequencer.StepCounts` | assembly/main.ts:317-338 | From a reachable state, a frame emits a bass tone exactly at an act start and an arpeggio tone exactly every eighth frame. |
| `Sequencer.RunCounts` | assembly/main.ts:317-340 | Over the first n frames there are (n + 959) / 960 bass tones, one per act begun, and (n + 7) / 8 arpeggio tones. |
| `Sequencer.BassOncePerAct` | assembly/main.ts:319-328 | Any two frames that fire a bass lie in different 960-frame acts, so the bass never fires twice in one act. |
| `Warpcore.Start` | assembly/main.ts:235-256 | `start` appends exactly 150 stars and keeps the existing ones. It marks the scroller as set and leaves the sequencer untouched. Every new star has a depth in [1, MAX_DISTANCE] and x, y in [-80, 80], whatever the existing stars hold, and the call uses 450 draws. |
| `Warpcore.Update` | assembly/main.ts:261-341 | `update` runs `start` first while the scroller is unset (150 more stars), then advances every star in place, the ones `start` just spawned included. It keeps depths valid, increases `frameCounter` by one (wrapping), sets `lastBassAct` to the frame's act, and emits exactly the tones of the sequencer step on the current counter: at most one bass and one arpeggio tone, each with the current act's chord from the progression (through `Sequencer.StepEvents`). |
| `Warpcore.UpdateSeed` | assembly/main.ts:261-288 | After one `update` the seed has moved on by 2 draws per recycled star. On the first frame it has also moved on by the 450 set-up draws, and the recycled stars are counted over the pool `start` just built. |
| `Warpcore.InitialInvariant` | assembly/main.ts:227-230 | The initial globals have no stars, no scroller, seed 12345 (the initialiser of `randomSeed` at main.ts:143), `frameCounter` 0 and `lastBassAct` at the sentinel `0xFFFFFFFF`. |
| `Warpcore.UpdateKeepsInvariant` | assembly/main.ts:265-288 | Every frame keeps all depths in [1, MAX_DISTANCE]. There are no stars before set-up and exactly 150 after. |
| `Warpcore.UpdateFrame` | assembly/main.ts:261-341 | From globals that keep the invariant, one `update` below the wrap point keeps it, leaves 150 stars and raises `frameCounter` by exactly one. |
| `Warpcore.FramesInvariant` | assembly/main.ts:261-341 | From any globals that keep the invariant, n updates keep it, leave 150 stars when n >= 1, and raise `frameCounter` by n while it does not wrap. |
| `Warpcore.PlayInvariant` | assembly/main.ts:261-341 | After n >= 1 updates from start-up, the pool holds 150 valid stars and `frameCounter` equals n. |
| `Warpcore.SecondUpdateKeepsPool` | assembly/main.ts:265-267 | The lazy `start` runs once. From any globals before set-up, the second `update` advances the first update's 150 stars instead of spawning new ones. |
| `Warpcore.StartTwiceDoublesPool` | assembly/main.ts:243-249 | An explicit second `start` is not idempotent: it leaves 300 stars. |
| `Warpcore.TierColorDraws` | assembly/main.ts:300-304 | The tier colours always draw. On screen, a far star stores palette entry 1 and a near star stores entry 2. |

## Left out

- Host imports (`rect`, `text`, `blit`, `line`, `tone`, `diskr`, `diskw`, `trace` and the rest, main.ts:18-77): these are foreign calls. `tone` is kept only as an emitted `Sequencer.Tone` event.
- Palette stores in `start` (main.ts:237-240) and the screen clear in `update` (main.ts:272-273): memory-mapped I/O and a host call.
- The draw-colour register writes inside `update` (main.ts:272, 301, 311): the register is a parameter of `Pixels.Pset` rather than a global, because the frame model does not draw.
- Perspective projection, the on-screen test and the `i32` casts (main.ts:290-304): these are `f32` arithmetic. `Warpcore.TierColorDraws` connects the depth tier to `pset` for any on-screen pixel instead.
- The `Scroller` class (main.ts:166-202): float-driven scroll state plus host `text` calls. Only whether the scroller exists is kept, as `Game.started`.
- `abort` (main.ts:346-353): an empty hook.
- Lcg.Random: the value `f32(seed) / f32(0x7fffffff)` is an exact real quotient, and `f32` rounding is not modelled.
- Lcg.RandomRange: computed over reals, not `f32`.
- Starfield.AdvanceStar: depth is an exact real standing in for the `f32` field, so `f32` rounding of `z - 2.0` is not modelled.
- Sequencer.RunCounts: stated only for n < 2^32. Beyond that `frameCounter` wraps (`Sequencer.Step` models the wrap), and the counts are no longer a function of n alone.
- Warpcore.PlayInvariant: stated only for fewer than 2^32 frames, for the same reason. `Warpcore.FramesInvariant` and `Warpcore.UpdateFrame` carry the same bound.
