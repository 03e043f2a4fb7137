/** The keyboard state (src/systems/input.js): the set of keys currently held.
    The browser event listeners become the methods KeyDown and KeyUp. */
module InputSystem {

  type Key = string

  const ArrowUp: Key := "ArrowUp"
  const ArrowDown: Key := "ArrowDown"

  class Input {
    /** `this.keys`: the keys pressed and not yet released */
    var keys: set<Key>

    constructor ()
      ensures keys == {}
      ensures forall k :: !IsKeyDown(k)
    {
      keys := {};
    }

    /** `isKeyDown`: membership in the held set */
    function IsKeyDown(key: Key): bool
      reads this
    {
      key in keys
    }

    /** The keydown handler: `keys.add(key)`. Adding is idempotent, so a
        repeated keydown (auto-repeat) has the effect of a single one. */
    method KeyDown(key: Key)
      modifies this
      ensures keys == old(keys) + {key}
      ensures IsKeyDown(key)
      ensures forall k :: k != key ==> IsKeyDown(k) == old(IsKeyDown(k))
    {
      keys := keys + {key};
    }

    /** The keyup handler: `keys.delete(key)`. */
    method KeyUp(key: Key)
      modifies this
      ensures keys == old(keys) - {key}
      ensures !IsKeyDown(key)
      ensures forall k :: k != key ==> IsKeyDown(k) == old(IsKeyDown(k))
    {
      keys := keys - {key};
    }
  }
}
