/**
 * The host's per-player persistent variables, as PointsManager and
 * GlobalPoints use them: an integer per (player, key), read as 0 when it was
 * never written.
 */
module Storage {
  import opened Events

  type Vars = map<(PlayerId, string), int>

  /** getPlayerVariable on a snapshot of the store. */
  function Lookup(vars: Vars, player: PlayerId, key: string): int {
    if (player, key) in vars then vars[(player, key)] else 0
  }

  class PersistentStorage {
    var vars: Vars

    constructor ()
      ensures vars == map[]
    {
      vars := map[];
    }

    function Get(player: PlayerId, key: string): int
      reads this
    {
      Lookup(vars, player, key)
    }

    /** setPlayerVariable: that one variable reads back as `value`, every other one is unchanged. */
    method Set(player: PlayerId, key: string, value: int)
      modifies this
      ensures vars == old(vars)[(player, key) := value]
      ensures Get(player, key) == value
      ensures forall p: PlayerId, k: string | (p, k) != (player, key) :: Get(p, k) == old(Get(p, k))
    {
      vars := vars[(player, key) := value];
    }
  }
}
