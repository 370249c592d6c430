# Platformer simulation core, in Dafny

This project models the simulation core of a small single-file canvas platformer (`project/game.js`). The player is a rectangle that moves left and right, falls under gravity, jumps from the ground, and is held between two side walls and above a ground band. The model covers:

- the `CONFIG` constants (module `Config`);
- the keydown/keyup handlers that maintain the three level-triggered flags `left`, `right` and `up` (module `Input`);
- `Player.update`, plus the ground resolution and `reset` of `Game` (module `Physics` holds them as functions on values, and module `Entities` holds the `Player` and `Game` classes that perform them in place);
- the loop driver (module `Loop`): the `running` guard of `gameLoop`, its delta clamp, the `lastTime` bookkeeping, and the start/stop click handler.

Positions, velocities and deltas are Dafny `real`s. The key handlers, `Player.Update`, `Game.Reset`, `Game.Update` and `Session.Tick` are each proved to equal a function of module `Physics`, `Input` or `Loop`. `Session.Click` states its new fields directly. The properties are proved about those functions: as their `ensures` clauses when they concern one frame, and as lemmas when they relate frames, keys or states.

The host clock and frame scheduler are not modelled. `Loop.Session.Tick` receives the animation timestamp `ts` as a parameter, and `Loop.Session.Click` receives the clock reading `now`.

**The delta has no lower bound.** The code caps the delta only from above (`Math.min(…, 0.033)`, game.js:190). A timestamp earlier than `lastTime` therefore passes a negative delta to the physics. Treating a negative delta as zero would be the natural guard, but the code has none, and the model follows the code:

- `Player.Update` and `Game.Update` accept any real `dt`;
- `Loop.FrameDtNegative` proves that a negative delta goes through unchanged;
- the lemmas that need a sign of `dt` state it as a hypothesis.

**A zero delta does not hold the player on the ground.** A resting player is expected to stay grounded on every tick. That holds for every non-zero delta, negative ones included (`Physics.RestingStaysGrounded`). With a zero delta the ground check is strict (`p.y > groundY`), so it clears `onGround` for that frame (`Physics.ZeroDeltaUngrounds`).

## Model

| member | source | states |
|---|---|---|
| `Input.KeyDown` | project/game.js:37-41 | keydown of ArrowLeft/KeyA sets `left`, of ArrowRight/KeyD sets `right`, of ArrowUp/Space/KeyW sets `up`; each leaves the other flags as they were; any other code changes nothing |
| `Input.KeyUp` | project/game.js:42-46 | keyup of the same codes clears the same flag and leaves the others; any other code changes nothing |
| `Input.CodesDisjoint` | project/game.js:38-40 | no key code is bound to two intents, so one event touches at most one flag |
| `Input.LevelTriggered` | project/game.js:37-46 | flags are levels: a repeated keydown or keyup changes nothing, and keyup of a code after its keydown gives the same flags as the keyup alone |
| `Input.KeyState.constructor` | project/game.js:33-35 | the `keys` object starts with all three flags false |
| `Input.KeyState.OnKeyDown` | project/game.js:37-41 | the handler updates the flags in place exactly as `KeyDown` says |
| `Input.KeyState.OnKeyUp` | project/game.js:42-46 | the handler updates the flags in place exactly as `KeyUp` says |
| `Physics.TargetVX` | project/game.js:63-67 | horizontal velocity is 0 with no direction key, -310 with only left held, and +310 whenever right is held (right wins over left) |
| `Physics.PlayerStep` | project/game.js:61-85 | one player frame: size unchanged; `vx` comes from the keys; a grounded jump sets `vy = -700` and clears `onGround`, otherwise `vy` grows by `1800·dt` and `onGround` is kept; `y` integrates the new `vy`; `x` ends at most at `792 - w`, at least at 8 when `w <= 784`, and is the integrated position whenever that is already inside the walls; past the left wall it is exactly 8 (when `w <= 784`), past the right wall exactly `792 - w` (a hard wall, not a bounce) |
| `Physics.Land` | project/game.js:119-127 | ground resolution: `y` ends at or above `groundY - h`; `onGround` is set exactly when the player was below that line, and then `y` is on the line and `vy == 0`; otherwise `y` and `vy` are exactly as the player step left them; `x`, `vx` and size are untouched |
| `Physics.GameStep` | project/game.js:114-128 | a game frame keeps the size and the key-chosen `vx`, ends at or above the ground line, and ends inside the walls for any player no wider than 784 |
| `Physics.ResetBody` | project/game.js:106-112 | reset sets `x = 80`, `y = 300`, `vx = vy = 0`, `onGround = false`, and keeps `w` and `h` |
| `Physics.WallClamp` | project/game.js:83-84 | after a player step a 48-wide player lies in [8, 744], whatever its position before |
| `Physics.VxNotCarried` | project/game.js:63-67 | the previous `vx` has no influence on the outcome of a player step or a game step |
| `Physics.NoKeysNoDrift` | project/game.js:63-84 | with no direction key held, `vx` is 0 and a position inside the walls is kept exactly |
| `Physics.AirborneIgnoresUp` | project/game.js:70-76 | when the frame starts airborne, `vy` changes by exactly `1800·dt` and the up key has no effect on the frame at all |
| `Physics.StepKeepsInvariant` | project/game.js:114-128 | a game frame keeps the game invariant: default size, inside the walls, at or above the ground line, and grounded only when resting on that line with `vy == 0` |
| `Physics.GroundedJumpTakesOff` | project/game.js:114-127 | a grounded jump with `dt >= 0` ends the game frame airborne with `vy == -700`, at `y = 348 - 700·dt` |
| `Physics.NoDoubleJump` | project/game.js:114-127 | after a take-off frame the next player step cannot fire the impulse again, whatever the keys and delta; its `vy` is `-700 + 1800·dt2` |
| `Physics.RestingStaysGrounded` | project/game.js:114-127 | a player resting on the ground with up released stays on the line, grounded, with `vy == 0`, for every non-zero delta |
| `Physics.ZeroDeltaUngrounds` | project/game.js:114-127 | with a zero delta the same resting player is not below the line, so the frame clears `onGround` while `y` and `vy` stay put |
| `Physics.HorizontalStepBounded` | project/game.js:79-84 | with `0 <= dt <= 0.033` a player inside the walls moves at most `310·dt` (so at most 10.23) sideways in one frame; the clamp never moves it further |
| `Physics.ResetIdempotent` | project/game.js:106-112 | reset twice equals reset once, and the result depends only on the player's size |
| `Physics.ResetRestoresInitial` | project/game.js:101-112 | reset of a default-sized player gives exactly the player `new Player(80, 300)` creates, which satisfies the game invariant |
| `Physics.RunKeepsInvariant` | project/game.js:114-128 | across any sequence of frames, with any keys and deltas, the game invariant holds after every frame |
| `Physics.RunAfterReset` | project/game.js:106-128 | after a reset, any sequence of frames leaves the player in [8, 744] horizontally and at or above `y = 348` |
| `Entities.Player.constructor` | project/game.js:50-59 | a new player is at the given position, at rest, airborne, 48 x 56 unless another size is given |
| `Entities.Player.Update` | project/game.js:61-85 | the in-place update leaves exactly the fields `PlayerStep` gives for the current keys |
| `Entities.Game.constructor` | project/game.js:100-104 | a new game owns a fresh player in the initial state, with `groundY = 500 - 96 = 404`, and satisfies the game invariant |
| `Entities.Game.Reset` | project/game.js:106-112 | reset overwrites the player as `ResetBody` says, restoring the initial player; `groundY` and the size are constant fields, so they are unchanged |
| `Entities.Game.Update` | project/game.js:114-128 | the player's update followed by in-place ground resolution leaves exactly what `GameStep` gives, and keeps the game invariant |
| `Loop.FrameDt` | project/game.js:190 | the delta is the elapsed time in seconds, or 0.033 if that is smaller; it never exceeds either |
| `Loop.FrameDtInRange` | project/game.js:190 | a tick no earlier than the last one gets a delta in [0, 0.033], and the exact elapsed time when it is at most 33 ms |
| `Loop.FrameDtNegative` | project/game.js:190 | a tick earlier than the last one gets a negative delta: there is no lower clamp |
| `Loop.Session.constructor` | project/game.js:8-236 | the script's module-level start-up (lines 8-10, 33-35, 186 and `init`'s reset at 236): no key is held, the loop is stopped with `lastTime = 0`, and the game's player is in the initial state |
| `Loop.Session.Click` | project/game.js:203-215 | a click while stopped sets `running` and sets `lastTime` to the clock reading; a click while running clears `running` |
| `Loop.Session.Tick` | project/game.js:188-201 | when stopped a tick changes nothing; when running it sets `lastTime = ts` and performs one game update with the capped delta `FrameDt(lastTime, ts)` |

## Left out

- Rendering is left out because it only issues draw calls and reads nothing back. This covers `Player.draw`, `Game.draw`, `roundRect`, `drawHills` and the score text (game.js:87-96, 130-184).
- Window and DOM work is left out because it is host-side presentation: `resizeCanvas`, device-pixel-ratio scaling, `fitDrawingToVisibleCanvas`, the canvas styling in `init`, and the start button's label text.
- `requestAnimationFrame` is left out because it is the host's scheduler. The model does not reschedule ticks; a host calls `Loop.Session.Tick` once per frame.
- `performance.now()` is left out because it is the host's clock. The clock reading is a parameter of `Loop.Session.Click`.
- `Game.lastUpdate` is not modelled. It is set once from the clock and never read.
- `Player.color` is not modelled. Only drawing reads it.
- The FPS counter (`fps = Math.round(1 / dt)` and its text) is left out. It is display-only. It divides by a delta that may be zero, and line 198 as written is not valid JavaScript (the template literal lacks its backticks).
- IEEE floating-point rounding is not modelled, because all arithmetic is exact `real` arithmetic. In particular `Physics.PlayerStep` states `y` as the exact product `vy·dt`.
- Loop.Session.Tick: its contract does not mention the `game.draw(ctx)` call that follows the update, because drawing is out of the model.
