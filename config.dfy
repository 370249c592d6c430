/** The game's tuning constants (the `CONFIG` object) and the few literals
    the update code uses beside it. Units are world units and seconds. */
module Config {
  const Gravity: real := 1800.0
  const MoveSpeed: real := 310.0
  const JumpVelocity: real := -700.0
  const GroundHeight: real := 96.0
  const CanvasWidth: real := 800.0
  const CanvasHeight: real := 500.0

  /** Distance kept between the player and either side wall. */
  const WallMargin: real := 8.0

  /** Upper clamp on the frame delta, in seconds. */
  const DtCap: real := 0.033

  /** Default size of a player, and where the game places and resets it. */
  const PlayerWidth: real := 48.0
  const PlayerHeight: real := 56.0
  const StartX: real := 80.0
  const StartY: real := 300.0

  /** The ground line of the game: the top of the ground band. */
  const GroundY: real := CanvasHeight - GroundHeight

  /** Largest `x` a player of width `w` may have after the wall clamp. */
  function RightWall(w: real): real {
    CanvasWidth - WallMargin - w
  }
}
