# TapDodge simulation core, in Dafny

TapDodge is a small browser arcade game. The player's block sits at the
bottom of the canvas and moves left or right on each tap. Square blocks fall
from the top, drifting sideways. The score grows by 10 points per second
survived. Blocks fall faster and spawn more often as time goes on. A
collision ends the run, and the best floored score is kept.

This project models the game's simulation core in `app.js` and proves
properties of it:

- `geometry.dfy`, module `Geometry`: `clamp`, `Math.min`/`Math.max`, and the
  inclusive rectangle overlap test `rectsHit`.
- `simulation.dfy`, module `Simulation`: the pure rules. These are the
  difficulty ramp, the capped frame step, `rand`, the spawned block, block
  motion, the off-screen filter and the "some block hits" predicate.
- `game.dfy`, module `Game`: class `Game` holds the shared `state` record's
  fields. Its methods change them in place as the source does: `resetGame`,
  `setupPlayer`, `spawnBlock`, `update`, `endGame`, `move`, the tap handler,
  the start/restart and pause buttons, and the gate in the frame loop.
  Module `Scenarios` drives one opening step from the outside.

Coordinates, times and scores are reals. `Math.floor` is `.Floor`. Each
`Math.random()` draw is a parameter in [0, 1) (`SpawnDraws`). The viewport
size in CSS pixels (`W / DPR`, `H / DPR`) is passed as `cssW` and `cssH` to
each operation that reads it. The elapsed time since the last frame is an
input to `Frame`.

The object invariant `Game.Valid()` holds after the constructor, after
`ResetGame` and after `Launch`. Every other operation that changes the
flags, the clock, the score or the difficulty requires it and keeps it.
The remaining operations change only the player or the block list, which
it does not read. It says:

- a finished game is not running;
- only a running game is paused;
- `score == 10 * t`;
- `fallSpeed` and `spawnEvery` are the ramp's values at time `t`.

`Game.Phase()` reads the three flags as one of four phases: Idle, Playing,
Suspended or Over.

Some behaviour of `app.js` worth knowing, which the model keeps:

- The start and restart buttons start a fresh game in every state
  (app.js:248-264).
- The pause button starts a fresh game when none is running, unless the game
  is over; once it is over the button does nothing (app.js:266-277).
- A negative `dt` is not clamped to 0. The frame loop only caps `dt` from
  above, at 0.033 s (app.js:118).
- The spawn timer restarts from exactly 0 when it fires. Any overshoot is
  discarded (app.js:134-138).

## Model

| member | source | states |
|---|---|---|
| `Geometry.Min` | app.js:118 | `Math.min`: the result is no larger than either argument and is one of them. |
| `Geometry.Max` | app.js:71-75 | `Math.max`: the result is no smaller than either argument and is one of them. |
| `Geometry.RectsHit` | app.js:108-110 | For rectangles with non-negative sides, the test holds exactly when their x-intervals and their y-intervals both meet, each read as "the later start is no later than the earlier end". |
| `Geometry.Clamp` | app.js:28 | The result is at least the lower bound. It is at most the upper bound when the bounds are in order. It equals `v` inside the bounds and the nearer bound outside them. The lower bound wins when the bounds cross. |
| `Geometry.ClampMonotone` | app.js:28 | Clamping preserves the order of its argument. |
| `Geometry.RectsHitSymmetric` | app.js:108-110 | The overlap test gives the same answer with its arguments swapped. |
| `Geometry.SharedPoint` | app.js:108-110 | Two colliding rectangles with non-negative sides share a point, and the lemma names it: x is the larger left edge and y the larger top edge. |
| `Geometry.RectsHitIffSharedPoint` | app.js:108-110 | For rectangles with non-negative sides, `rectsHit` holds exactly when the closed rectangles share a point (both directions). |
| `Geometry.EdgeContactHits` | app.js:108-110 | Rectangles that meet only along a vertical edge (`a.x + a.w == b.x`) hit, in both argument orders. Any shared point lies on that edge. |
| `Geometry.CornerContactHits` | app.js:108-110 | Rectangles that meet only at a corner hit, in both argument orders. |
| `Simulation.FallSpeedAt` | app.js:131 | The fall speed is at least the base 260 px/s for `t >= 0` and at most that for `t <= 0`. |
| `Simulation.SpawnEveryAt` | app.js:132 | The spawn interval always lies within [0.30, 0.85] seconds. |
| `Simulation.DifficultyRamps` | app.js:130-132 | For `t1 <= t2`, the fall speed at `t2` is no lower and the spawn interval no longer. |
| `Simulation.SpawnEveryShape` | app.js:132 | The spawn interval is 0.85 s for `t <= 0`. It is `0.85 - 0.01 t` for `t` in [0, 55] and 0.30 s from `t = 55` on. |
| `Simulation.FrameDt` | app.js:117-118 | The step passed on is at most 0.033 s. It equals the elapsed time below the cap and the cap above it. |
| `Simulation.Rand` | app.js:27 | A zero draw gives the lower bound, and equal bounds give that bound whatever the draw. |
| `Simulation.RandBetween` | app.js:27 | For ordered bounds, `rand` with a draw in [0, 1) lies between them. It includes the lower bound and stays short of the upper one when they differ. |
| `Simulation.SpawnedBlockShape` | app.js:90-101 | A spawned block (helper `MakeBlock`, which scales the three draws as `rand` does) is square, with `y == -size - 10`, so it is fully above the viewport. Its size is between 6% and 12% of `cssW`. Its `vx` is in [-20, 20). When the margins leave room, `8 <= x <= cssW - size - 8`. |
| `Simulation.Survivors` | app.js:147-149 | The filter keeps no more blocks than it is given. Every kept block is one of the inputs and has `y < cssH + 120`. |
| `Simulation.SurvivorsKeepOnScreen` | app.js:147-149 | Every input block with `y < cssH + 120` is kept. With `Survivors`, a block survives exactly when it is an input block above the despawn line. |
| `Simulation.SurvivorsAppend` | app.js:147-149 | Filtering a concatenation concatenates the filtered parts, so the survivors keep their original order. |
| `Simulation.SurvivorsAllOnScreen` | app.js:147-149 | A list whose blocks are all above the despawn line passes unchanged. |
| `Game.PlayerFor` | app.js:68-76 | The player is at least 34 px on each side, or 9% of the width and 6% of the height if larger. It is centred horizontally. Its bottom sits `max(18, 4% of cssH)` above the viewport's bottom. Its speed is `max(420, 1.2 cssW)`: at least both, and equal to one of them. |
| `Game.MaxInt` | app.js:164-166 | The integer maximum used for `best`: no smaller than either argument, and one of them. |
| `Game.Game.constructor` | app.js:30-48 | The initial state has all flags off and a zero clock, score and timer. It has no blocks, the base difficulty (0.85 s, 260 px/s), `best` from storage and the set-up player. The phase is Idle and `Valid()` holds. |
| `Game.Game.SetupPlayer` | app.js:68-76 | The player becomes `PlayerFor(cssW, cssH)`. No other field changes. |
| `Game.Game.ResetGame` | app.js:52-66 | All three flags are cleared. The clock, score and spawn timer become 0 and the block list is emptied. The spawn interval becomes 0.85 and the fall speed 260. `best` is kept, the player is set up again and `Valid()` holds. |
| `Game.Game.SpawnBlock` | app.js:90-101 | Exactly one block, `MakeBlock(cssW, draws)`, is appended. No other field changes. |
| `Game.Game.EndGame` | app.js:160-172 | Running stops and `gameOver` is set. `best` becomes `max(old best, floor(score))`, so it never decreases. It is called on an unpaused game and keeps `Valid()`. |
| `Game.Game.Update` | app.js:125-158 | The post-state is given in full by `Stepped`: `t` grows by exactly `dt` and the score by exactly `10 dt`. `fallSpeed == 260 + 10 t` and the spawn interval is within [0.30, 0.85]. If `spawnTimer + dt` reaches the interval, the timer becomes exactly 0 and exactly one block is appended; otherwise the timer becomes `spawnTimer + dt` and no block is added. The new block list is the moved blocks (each `y += fallSpeed dt`, `x += vx dt`) that stay above `cssH + 120`, in order. If a surviving block hits the player, the game is over, not running, and `best == max(old best, floor(score))`. Otherwise the flags and `best` are unchanged. The player and `paused` are unchanged. `best` never decreases and `Valid()` is kept. |
| `Game.Game.MoveBlocks` | app.js:140-145 | The list becomes `Moved(old blocks, fallSpeed, dt)`: the same length, and at each index the block that was there, moved by helper `MoveBlock`, which lowers it by `fallSpeed * dt`, shifts it by `vx * dt` and keeps its size and drift. No other field changes. |
| `Game.Game.CheckCollisions` | app.js:151-157 | If some block `rectsHit`s the player (helper predicate `HitsAny`), the scan ends the game: it is no longer running, it is over and `best == max(old best, floor(score))`. If none hits, the flags and `best` are unchanged. It is called on an unpaused game and keeps `Valid()`. |
| `Simulation.HitsAnyIffSharedPoint` | app.js:151-153 | For a player and blocks with non-negative sides, the scan reports a hit exactly when some block's closed rectangle shares a point with the player's. |
| `Game.Game.Move` | app.js:226-232 | Only the player's `x` changes: it moves by `dir * speed / 20` and is then clamped. Afterwards `x >= 8`, and `x <= cssW - w - 8` whenever `cssW - w - 8 >= 8`. |
| `Game.Game.HandleTap` | app.js:234-239 | A tap moves the player as `Move` does, in the direction helper `TapDirection` gives: left (-1) exactly when `tapX < rectWidth / 2`, right (+1) otherwise. Only the player's `x` changes. |
| `Game.Game.Launch` | app.js:248-264 | Start and restart, from any state, give a fresh reset game that is running, not paused and not over. `best` is kept. |
| `Game.Game.PressPause` | app.js:266-283 | The button is a no-op once the game is over. When no game is running, it starts a fresh one. Otherwise it flips `paused` and changes nothing else. In phases: Over stays Over, Idle becomes Playing, Playing becomes Suspended and Suspended becomes Playing. |
| `Game.Game.PressPauseTwice` | app.js:266-283 | Two presses in a row on a running game restore `paused`. They leave `t` and every other field unchanged. |
| `Game.Game.Frame` | app.js:113-123 | The frame does nothing unless the game is running and not paused. Otherwise its post-state is exactly that of `update` (`Stepped`) with the elapsed time capped at 0.033 s as `dt`: clock, score, difficulty, spawn timer, blocks, flags and `best` as `Update` states them. So `t` advances by at most 0.033 s. `Valid()` is kept. |
| `Scenarios.OpeningStep` | app.js:125-138 | On a 360 x 640 viewport, a fresh game stepped by 0.85 s spawns on that very step. Afterwards `t == 0.85`, the score is 8.5, the timer is back at 0, exactly one block is present and the game is still being played. |

## Left out

- Rendering is not modelled: `draw`, `roundRect`, the canvas context, the grid and the vignette (app.js:174-224). They do not affect the game state.
- The DOM side effects are not modelled. These are the score and best text, `showOverlay`/`hideOverlay` and the pause button's label.
- Storage is not modelled. `best` is read from local storage once (app.js:36) and written on a new best (app.js:167). The model takes the stored value as a constructor parameter and keeps `best` as a field.
- `best` is an integer here. The source takes `Number(...)` of the stored string, which may be fractional or `NaN`.
- Browser scheduling is not modelled: `requestAnimationFrame`, `performance.now` and the `last` timestamp. `Frame` takes the elapsed time as an input. Resuming from pause resynchronises `last`, so that pause time is not simulated. That has no counterpart here.
- `resize` and the device-pixel-ratio computation are not modelled. `cssW` and `cssH` are parameters. Canvas sizes are floored to whole device pixels, so the canvas width used by the tap handler may differ slightly from `cssW`. For that reason it is a separate parameter.
- `Math.random` and `pickColor` are not modelled. The three draws are passed in as `SpawnDraws`. The colour is cosmetic and is dropped.
- The pointer event plumbing and the service-worker registration are not modelled. `HandleTap` receives the tap's offset from the canvas's left edge.
- IEEE floating-point rounding is not modelled: all quantities are exact reals. This is why `score == 10 * t` holds exactly as an invariant.
- The player and the blocks are values held in fields, not shared objects. In the source, nothing else holds a reference to them, so their in-place updates are the same as reassigning the field.
- `Simulation.RandBetween`: it is stated only for bounds in order. When `cssW - size - 8 < 8`, the source's `rand(8, cssW - size - 8)` has crossed bounds. `SpawnedBlockShape` therefore says nothing about `x` in that case.
- `Game.Game.Update`: it requires `!paused`, which is not a check in `update` itself. Its only caller, the frame loop, returns early when the game is paused or not running (app.js:115). `Frame` models that gate.
