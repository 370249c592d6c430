/** The game's objects as the source has them: a `Player` whose `update`
    changes its own fields step by step, and a `Game` that owns the player,
    resolves the ground after each player step, and resets the player in
    place. Each method is proved to perform the corresponding function of
    module Physics. */
module Entities {
  import opened Config
  import opened Input
  import opened Physics

  class Player {
    var x: real
    var y: real
    var vx: real
    var vy: real
    const w: real
    const h: real
    var onGround: bool

    /** `new Player(x, y)`: at rest and airborne, default size 48 x 56. */
    constructor (x0: real, y0: real, w0: real := PlayerWidth, h0: real := PlayerHeight)
      ensures Snapshot() == Body(x0, y0, 0.0, 0.0, w0, h0, false)
    {
      x, y := x0, y0;
      vx, vy := 0.0, 0.0;
      w, h := w0, h0;
      onGround := false;
    }

    function Snapshot(): Body
      reads this
    {
      Body(x, y, vx, vy, w, h, onGround)
    }

    /** `update(dt)`, reading the held keys from `keys`. */
    method Update(keys: KeyState, dt: real)
      modifies this
      ensures Snapshot() == PlayerStep(old(Snapshot()), keys.Snapshot(), dt)
    {
      var targetVX := 0.0;
      if keys.left { targetVX := -MoveSpeed; }
      if keys.right { targetVX := MoveSpeed; }
      vx := targetVX;

      vy := vy + Gravity * dt;

      if keys.up && onGround {
        vy := JumpVelocity;
        onGround := false;
      }

      x := x + vx * dt;
      y := y + vy * dt;

      if x < WallMargin { x := WallMargin; }
      if x + w > CanvasWidth - WallMargin { x := CanvasWidth - WallMargin - w; }
    }
  }

  class Game {
    const player: Player
    const groundY: real

    /** The game's invariant: a default-sized player that satisfies
        `GameInv`, standing on the configured ground line. */
    ghost predicate Valid()
      reads this, player
    {
      groundY == GroundY && GameInv(player.Snapshot())
    }

    /** `new Game()`: a fresh player at the start position, and the ground
        line `canvasHeight - groundHeight`, which is 404. */
    constructor ()
      ensures Valid() && fresh(player)
      ensures player.Snapshot() == InitialBody
      ensures groundY == CanvasHeight - GroundHeight == 404.0
    {
      player := new Player(StartX, StartY);
      groundY := CanvasHeight - GroundHeight;
    }

    /** `reset()`: overwrites the player's position, velocity and grounding. */
    method Reset()
      requires Valid()
      modifies player
      ensures Valid()
      ensures player.Snapshot() == ResetBody(old(player.Snapshot()))
      ensures player.Snapshot() == InitialBody
    {
      player.x := StartX;
      player.y := StartY;
      player.vx := 0.0;
      player.vy := 0.0;
      player.onGround := false;
      ResetRestoresInitial(old(player.Snapshot()));
    }

    /** `update(dt)`: the player's step, then ground resolution in place. */
    method Update(keys: KeyState, dt: real)
      requires Valid()
      modifies player
      ensures Valid()
      ensures player.Snapshot() == GameStep(old(player.Snapshot()), keys.Snapshot(), dt, groundY)
    {
      ghost var before := player.Snapshot();
      player.Update(keys, dt);
      var p := player;
      var line := groundY - p.h;
      if p.y > line {
        p.y := line;
        p.vy := 0.0;
        p.onGround := true;
      } else {
        p.onGround := false;
      }
      StepKeepsInvariant(before, keys.Snapshot(), dt);
    }
  }
}
