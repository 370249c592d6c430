/** Keyboard input: the three level-triggered intent flags and the key
    handlers that set and clear them. */
module Input {

  /** A snapshot of the held intents, as the player update reads them. */
  datatype Keys = Keys(left: bool, right: bool, up: bool)

  const NoKeys: Keys := Keys(false, false, false)

  predicate IsLeftCode(code: string) {
    code == "ArrowLeft" || code == "KeyA"
  }

  predicate IsRightCode(code: string) {
    code == "ArrowRight" || code == "KeyD"
  }

  predicate IsUpCode(code: string) {
    code == "ArrowUp" || code == "Space" || code == "KeyW"
  }

  /** True for the seven key codes the game listens to. */
  predicate IsBound(code: string) {
    IsLeftCode(code) || IsRightCode(code) || IsUpCode(code)
  }

  /** No physical key is bound to two intents. */
  lemma CodesDisjoint(code: string)
    ensures !(IsLeftCode(code) && IsRightCode(code))
    ensures !(IsLeftCode(code) && IsUpCode(code))
    ensures !(IsRightCode(code) && IsUpCode(code))
  {
  }

  /** The flags after a keydown event with the given code. */
  function KeyDown(k: Keys, code: string): (r: Keys)
    ensures IsLeftCode(code) ==> r == k.(left := true)
    ensures IsRightCode(code) ==> r == k.(right := true)
    ensures IsUpCode(code) ==> r == k.(up := true)
    ensures !IsBound(code) ==> r == k
  {
    Keys(if IsLeftCode(code) then true else k.left,
         if IsRightCode(code) then true else k.right,
         if IsUpCode(code) then true else k.up)
  }

  /** The flags after a keyup event with the given code. */
  function KeyUp(k: Keys, code: string): (r: Keys)
    ensures IsLeftCode(code) ==> r == k.(left := false)
    ensures IsRightCode(code) ==> r == k.(right := false)
    ensures IsUpCode(code) ==> r == k.(up := false)
    ensures !IsBound(code) ==> r == k
  {
    Keys(if IsLeftCode(code) then false else k.left,
         if IsRightCode(code) then false else k.right,
         if IsUpCode(code) then false else k.up)
  }

  /** The flags are levels, not counters: repeating an event changes nothing,
      and a keyup undoes any number of keydowns of the same code. */
  lemma LevelTriggered(k: Keys, code: string)
    ensures KeyDown(KeyDown(k, code), code) == KeyDown(k, code)
    ensures KeyUp(KeyUp(k, code), code) == KeyUp(k, code)
    ensures KeyUp(KeyDown(k, code), code) == KeyUp(k, code)
    ensures KeyDown(KeyUp(k, code), code) == KeyDown(k, code)
  {
  }

  /** The module-level `keys` object that the key handlers mutate. */
  class KeyState {
    var left: bool
    var right: bool
    var up: bool

    constructor ()
      ensures Snapshot() == NoKeys
    {
      left, right, up := false, false, false;
    }

    function Snapshot(): Keys
      reads this
    {
      Keys(left, right, up)
    }

    method OnKeyDown(code: string)
      modifies this
      ensures Snapshot() == KeyDown(old(Snapshot()), code)
    {
      if IsLeftCode(code) { left := true; }
      if IsRightCode(code) { right := true; }
      if IsUpCode(code) { up := true; }
    }

    method OnKeyUp(code: string)
      modifies this
      ensures Snapshot() == KeyUp(old(Snapshot()), code)
    {
      if IsLeftCode(code) { left := false; }
      if IsRightCode(code) { right := false; }
      if IsUpCode(code) { up := false; }
    }
  }
}
