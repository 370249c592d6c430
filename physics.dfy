/** The per-frame simulation as functions on values: the player's own update
    (input, gravity, jump, integration, wall clamp), the game's ground
    resolution after it, and reset. The classes in module Entities perform
    these steps in place and are proved equal to them. */
module Physics {
  import opened Config
  import opened Input

  /** Position, velocity, size and grounding of the player. */
  datatype Body = Body(x: real, y: real, vx: real, vy: real, w: real, h: real, onGround: bool)

  /** The body `new Player(80, 300)` creates: default size, at rest, airborne. */
  const InitialBody: Body := Body(StartX, StartY, 0.0, 0.0, PlayerWidth, PlayerHeight, false)

  /** Horizontal velocity chosen by the held keys alone. Left is applied
      first and right after it, so right wins when both are held. */
  function TargetVX(k: Keys): (v: real)
    ensures k.right ==> v == MoveSpeed
    ensures k.left && !k.right ==> v == -MoveSpeed
    ensures !k.left && !k.right ==> v == 0.0
  {
    var fromLeft := if k.left then -MoveSpeed else 0.0;
    if k.right then MoveSpeed else fromLeft
  }

  /** The jump impulse fires exactly when up is held and the player starts
      the frame on the ground. */
  predicate Jumps(b: Body, k: Keys) {
    k.up && b.onGround
  }

  /** `Player.update(dt)`: one frame of the player's own physics. */
  function PlayerStep(b: Body, k: Keys, dt: real): (r: Body)
    ensures r.w == b.w && r.h == b.h
    ensures r.vx == TargetVX(k)
    ensures Jumps(b, k) ==> r.vy == JumpVelocity && !r.onGround
    ensures !Jumps(b, k) ==> r.vy == b.vy + Gravity * dt && r.onGround == b.onGround
    ensures r.y == b.y + r.vy * dt
    ensures r.x <= RightWall(b.w)
    ensures b.w <= CanvasWidth - 2.0 * WallMargin ==> WallMargin <= r.x
    ensures WallMargin <= b.x + r.vx * dt <= RightWall(b.w) ==> r.x == b.x + r.vx * dt
    ensures b.x + r.vx * dt < WallMargin && b.w <= CanvasWidth - 2.0 * WallMargin ==> r.x == WallMargin
    ensures b.x + r.vx * dt > RightWall(b.w) ==> r.x == RightWall(b.w)
  {
    var vx := TargetVX(k);
    var fallen := b.vy + Gravity * dt;
    var vy := if Jumps(b, k) then JumpVelocity else fallen;
    var onGround := if Jumps(b, k) then false else b.onGround;
    var moved := b.x + vx * dt;
    var leftClamped := if moved < WallMargin then WallMargin else moved;
    var x := if leftClamped + b.w > CanvasWidth - WallMargin then CanvasWidth - WallMargin - b.w else leftClamped;
    Body(x, b.y + vy * dt, vx, vy, b.w, b.h, onGround)
  }

  /** The ground line for a player of height `h` standing on `groundY`. */
  function GroundLine(groundY: real, h: real): real {
    groundY - h
  }

  /** The ground resolution of `Game.update`, applied after the player's step. */
  function Land(p: Body, groundY: real): (r: Body)
    ensures r.x == p.x && r.vx == p.vx && r.w == p.w && r.h == p.h
    ensures r.y <= GroundLine(groundY, p.h)
    ensures r.onGround <==> p.y > GroundLine(groundY, p.h)
    ensures r.onGround ==> r.y == GroundLine(groundY, p.h) && r.vy == 0.0
    ensures !r.onGround ==> r.y == p.y && r.vy == p.vy
  {
    var line := GroundLine(groundY, p.h);
    if p.y > line then p.(y := line, vy := 0.0, onGround := true)
    else p.(onGround := false)
  }

  /** `Game.update(dt)`: the player's step, then ground resolution. */
  function GameStep(b: Body, k: Keys, dt: real, groundY: real): (r: Body)
    ensures r.w == b.w && r.h == b.h && r.vx == TargetVX(k)
    ensures r.y <= GroundLine(groundY, b.h)
    ensures b.w <= CanvasWidth - 2.0 * WallMargin ==> WallMargin <= r.x <= RightWall(b.w)
  {
    Land(PlayerStep(b, k, dt), groundY)
  }

  /** `Game.reset()`: back to the start position, at rest, airborne. */
  function ResetBody(b: Body): (r: Body)
    ensures r.w == b.w && r.h == b.h
    ensures r.x == StartX && r.y == StartY && r.vx == 0.0 && r.vy == 0.0 && !r.onGround
  {
    b.(x := StartX, y := StartY, vx := 0.0, vy := 0.0, onGround := false)
  }

  /** What holds of the player between frames of a running game: its default
      size, inside the walls, not below the ground line, and grounded only
      while resting on the ground line with no vertical velocity. */
  predicate GameInv(b: Body) {
    && b.w == PlayerWidth && b.h == PlayerHeight
    && WallMargin <= b.x <= RightWall(b.w)
    && b.y <= GroundLine(GroundY, b.h)
    && (b.onGround ==> b.y == GroundLine(GroundY, b.h) && b.vy == 0.0)
  }

  // ---------------------------------------------------------------------
  // Properties of one frame

  /** The wall clamp holds whatever the position was before: a default-sized
      player ends every frame inside [8, 744]. */
  lemma WallClamp(b: Body, k: Keys, dt: real)
    requires b.w == PlayerWidth
    ensures 8.0 <= PlayerStep(b, k, dt).x <= 744.0
  {
  }

  /** Horizontal velocity is not integrated: the previous `vx` has no effect
      on the outcome of a frame. */
  lemma VxNotCarried(b: Body, k: Keys, dt: real, v: real)
    ensures PlayerStep(b.(vx := v), k, dt) == PlayerStep(b, k, dt)
    ensures GameStep(b.(vx := v), k, dt, GroundY) == GameStep(b, k, dt, GroundY)
  {
  }

  /** With no direction key held the player does not move sideways: `vx` is
      zero and an `x` inside the walls is kept exactly. */
  lemma NoKeysNoDrift(b: Body, k: Keys, dt: real)
    requires !k.left && !k.right
    requires WallMargin <= b.x <= RightWall(b.w)
    ensures PlayerStep(b, k, dt).vx == 0.0 && PlayerStep(b, k, dt).x == b.x
  {
  }

  /** Jumping while airborne is impossible: vertical velocity changes only by
      gravity, and the up key has no effect at all on the frame. */
  lemma AirborneIgnoresUp(b: Body, k: Keys, dt: real)
    requires !b.onGround
    ensures PlayerStep(b, k, dt).vy == b.vy + Gravity * dt
    ensures PlayerStep(b, k, dt) == PlayerStep(b, k.(up := !k.up), dt)
  {
  }

  /** A frame of a running game keeps the game invariant. */
  lemma StepKeepsInvariant(b: Body, k: Keys, dt: real)
    requires GameInv(b)
    ensures GameInv(GameStep(b, k, dt, GroundY))
  {
  }

  /** A grounded jump with a non-negative delta leaves the ground: the jump
      velocity survives ground resolution and the player is airborne. */
  lemma GroundedJumpTakesOff(b: Body, k: Keys, dt: real)
    requires GameInv(b) && Jumps(b, k) && dt >= 0.0
    ensures var r := GameStep(b, k, dt, GroundY);
            r.vy == JumpVelocity && !r.onGround
            && r.y == GroundLine(GroundY, b.h) + JumpVelocity * dt
  {
  }

  /** No second impulse on the frame after take-off: that frame cannot fire
      the jump again, whatever its keys and delta. */
  lemma NoDoubleJump(b: Body, k: Keys, dt: real, k2: Keys, dt2: real)
    requires GameInv(b) && Jumps(b, k) && dt >= 0.0
    ensures var r := GameStep(b, k, dt, GroundY);
            !Jumps(r, k2) && PlayerStep(r, k2, dt2).vy == JumpVelocity + Gravity * dt2
  {
  }

  /** A player resting on the ground with up released stays pinned there for
      any non-zero delta: its step ends `Gravity * dt * dt` below the line, and
      the ground resolution snaps it back. */
  lemma RestingStaysGrounded(b: Body, k: Keys, dt: real)
    requires GameInv(b) && b.onGround && !k.up && dt != 0.0
    ensures var r := GameStep(b, k, dt, GroundY);
            r.onGround && r.vy == 0.0 && r.y == b.y
  {
  }

  /** With a zero delta the same resting player is not below the line after
      its step, so ground resolution clears `onGround` for that frame. */
  lemma ZeroDeltaUngrounds(b: Body, k: Keys)
    requires GameInv(b) && b.onGround && !k.up
    ensures var r := GameStep(b, k, 0.0, GroundY);
            !r.onGround && r.y == b.y && r.vy == 0.0
  {
  }

  /** With a delta no larger than the cap, a player inside the walls moves at
      most `MoveSpeed * dt` horizontally: the clamp only ever pulls it back
      toward where it was. */
  lemma HorizontalStepBounded(b: Body, k: Keys, dt: real)
    requires b.w == PlayerWidth && WallMargin <= b.x <= RightWall(b.w)
    requires 0.0 <= dt <= DtCap
    ensures var r := PlayerStep(b, k, dt);
            r.x - b.x <= MoveSpeed * dt && b.x - r.x <= MoveSpeed * dt
            && r.x - b.x <= MoveSpeed * DtCap && b.x - r.x <= MoveSpeed * DtCap
  {
  }

  // ---------------------------------------------------------------------
  // Reset

  /** Reset is idempotent, keeps the size, and forgets everything else. */
  lemma ResetIdempotent(b: Body, c: Body)
    ensures ResetBody(ResetBody(b)) == ResetBody(b)
    ensures b.w == c.w && b.h == c.h ==> ResetBody(b) == ResetBody(c)
  {
  }

  /** The game's initial player is already in the reset state, and a reset
      game satisfies the game invariant. */
  lemma ResetRestoresInitial(b: Body)
    requires b.w == PlayerWidth && b.h == PlayerHeight
    ensures ResetBody(b) == InitialBody
    ensures GameInv(InitialBody)
  {
  }

  // ---------------------------------------------------------------------
  // Many frames

  /** The keys held and the delta of one tick. */
  datatype Frame = Frame(keys: Keys, dt: real)

  /** The player after running `frames` in order through `Game.update`. */
  function Run(b: Body, frames: seq<Frame>): Body
    decreases |frames|
  {
    if frames == [] then b
    else Run(GameStep(b, frames[0].keys, frames[0].dt, GroundY), frames[1..])
  }

  /** Whatever the keys and deltas, no sequence of frames takes the player
      through a wall or below the ground, nor grounds it in mid-air. */
  lemma {:induction false} RunKeepsInvariant(b: Body, frames: seq<Frame>)
    requires GameInv(b)
    ensures GameInv(Run(b, frames))
    decreases |frames|
  {
    if frames != [] {
      StepKeepsInvariant(b, frames[0].keys, frames[0].dt);
      RunKeepsInvariant(GameStep(b, frames[0].keys, frames[0].dt, GroundY), frames[1..]);
    }
  }

  /** Running frames after a reset never violates the invariant. */
  lemma {:induction false} RunAfterReset(b: Body, frames: seq<Frame>)
    requires b.w == PlayerWidth && b.h == PlayerHeight
    ensures var r := Run(ResetBody(b), frames);
            8.0 <= r.x <= 744.0 && r.y <= 348.0
  {
    ResetRestoresInitial(b);
    RunKeepsInvariant(ResetBody(b), frames);
  }
}
