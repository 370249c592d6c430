/** The loop driver: the module-level `running` and `lastTime` state, the
    start/stop click handler and the tick of `gameLoop`. The host's frame
    scheduler and clock are not modelled; a tick receives its timestamp, in
    milliseconds, as a parameter, and so does a start click. */
module Loop {
  import opened Config
  import opened Input
  import opened Physics
  import opened Entities

  /** The delta, in seconds, a tick at `ts` passes to the game after a tick
      (or start) at `lastTime`: the elapsed time, capped from above only. */
  function FrameDt(lastTime: real, ts: real): (dt: real)
    ensures dt <= DtCap && dt <= (ts - lastTime) / 1000.0
    ensures dt == DtCap || dt == (ts - lastTime) / 1000.0
  {
    var elapsed := (ts - lastTime) / 1000.0;
    if elapsed <= DtCap then elapsed else DtCap
  }

  /** A tick no earlier than the previous one yields a delta in [0, 0.033],
      and one less than 33 ms later passes the elapsed time unchanged. */
  lemma FrameDtInRange(lastTime: real, ts: real)
    requires lastTime <= ts
    ensures 0.0 <= FrameDt(lastTime, ts) <= DtCap
    ensures ts - lastTime <= 33.0 ==> FrameDt(lastTime, ts) == (ts - lastTime) / 1000.0
  {
  }

  /** There is no lower clamp: a timestamp earlier than `lastTime` yields a
      negative delta, which reaches the physics as it is. */
  lemma FrameDtNegative(lastTime: real, ts: real)
    requires ts < lastTime
    ensures FrameDt(lastTime, ts) < 0.0
    ensures FrameDt(lastTime, ts) == (ts - lastTime) / 1000.0
  {
  }

  /** The script's module-level state: the key flags, the single game, and
      the loop's `running` flag and `lastTime`. */
  class Session {
    const keys: KeyState
    const game: Game
    var running: bool
    var lastTime: real

    ghost predicate Valid()
      reads this, game, game.player
    {
      game.Valid()
    }

    /** Script start-up: no key held, loop stopped, `lastTime = 0`, and the
        `init` step's `game.reset()`. */
    constructor ()
      ensures Valid() && fresh(keys) && fresh(game) && fresh(game.player)
      ensures keys.Snapshot() == NoKeys
      ensures game.player.Snapshot() == InitialBody
      ensures !running && lastTime == 0.0
    {
      keys := new KeyState();
      game := new Game();
      running := false;
      lastTime := 0.0;
      new;
      game.Reset();
    }

    /** The start button's click handler; `now` is the clock reading. */
    method Click(now: real)
      modifies this
      ensures !old(running) ==> running && lastTime == now
      ensures old(running) ==> !running && lastTime == old(lastTime)
    {
      if !running {
        running := true;
        lastTime := now;
      } else {
        running := false;
      }
    }

    /** One `gameLoop(ts)` call: nothing when stopped; otherwise the capped
        delta, `lastTime := ts`, and one game update. */
    method Tick(ts: real)
      requires Valid()
      modifies this, game.player
      ensures Valid()
      ensures !old(running) ==> unchanged(this) && unchanged(game.player)
      ensures old(running) ==> running && lastTime == ts
      ensures old(running) ==>
        game.player.Snapshot() == GameStep(old(game.player.Snapshot()), keys.Snapshot(), FrameDt(old(lastTime), ts), game.groundY)
    {
      if !running {
        return;
      }
      var elapsed := (ts - lastTime) / 1000.0;
      var dt := if elapsed <= DtCap then elapsed else DtCap;
      lastTime := ts;
      game.Update(keys, dt);
    }
  }
}
