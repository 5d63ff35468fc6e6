/**
 * GlobalPoints of GlobalPoints.ts: keeps an "overallScores" leaderboard
 * entry per player equal to the sum of that player's stored high scores in
 * up to three configured games.
 */
module Global {
  import opened Events
  import opened Storage

  const GLOBAL_HIGH_SCORE_PPV := "overallScores"

  /** The configured keys with the empty (unset) ones dropped, order kept. */
  function NonEmpty(keys: seq<string>): (kept: seq<string>)
    ensures |kept| <= |keys|
    ensures forall k | k in kept :: k != "" && k in keys
    ensures forall k | k in keys && k != "" :: k in kept
    ensures |keys| == 1 ==> kept == if keys[0] != "" then keys else []
  {
    if keys == [] then []
    else (if keys[0] != "" then [keys[0]] else []) + NonEmpty(keys[1..])
  }

  /** Filtering distributes over concatenation: the kept keys keep their configured order. */
  lemma {:induction false} NonEmptyAppend(a: seq<string>, b: seq<string>)
    ensures NonEmpty(a + b) == NonEmpty(a) + NonEmpty(b)
    decreases |a|
  {
    if a == [] {
      assert a + b == b;
    } else {
      assert (a + b)[1..] == a[1..] + b;
      NonEmptyAppend(a[1..], b);
    }
  }

  /** The fold of onHighScoreUpdate: a running total over the keys, left to right. */
  function Reduce(vars: Vars, player: PlayerId, total: int, keys: seq<string>): int
    decreases |keys|
  {
    if keys == [] then total else Reduce(vars, player, total + Lookup(vars, player, keys[0]), keys[1..])
  }

  /** The sum of the player's stored values over the keys. */
  function Sum(vars: Vars, player: PlayerId, keys: seq<string>): int
    decreases |keys|
  {
    if keys == [] then 0 else Sum(vars, player, keys[..|keys| - 1]) + Lookup(vars, player, keys[|keys| - 1])
  }

  lemma {:induction false} SumCons(vars: Vars, player: PlayerId, keys: seq<string>)
    requires keys != []
    ensures Sum(vars, player, keys) == Lookup(vars, player, keys[0]) + Sum(vars, player, keys[1..])
    decreases |keys|
  {
    if |keys| > 1 {
      SumCons(vars, player, keys[..|keys| - 1]);
      assert keys[..|keys| - 1][1..] == keys[1..][..|keys| - 2];
    } else {
      assert keys[..|keys| - 1] == [];
      assert keys[1..] == [];
    }
  }

  /** The fold from `total` is `total` plus the sum; from 0 it is the sum, and 0 with no keys. */
  lemma {:induction false} ReduceIsSum(vars: Vars, player: PlayerId, total: int, keys: seq<string>)
    ensures Reduce(vars, player, total, keys) == total + Sum(vars, player, keys)
    decreases |keys|
  {
    if keys != [] {
      ReduceIsSum(vars, player, total + Lookup(vars, player, keys[0]), keys[1..]);
      SumCons(vars, player, keys);
    }
  }

  /** A key never written adds nothing, so totals over the kept keys count only stored high scores. */
  lemma {:induction false} UnwrittenKeysAddNothing(vars: Vars, player: PlayerId, keys: seq<string>)
    requires forall k | k in keys :: (player, k) !in vars
    ensures Sum(vars, player, keys) == 0
    decreases |keys|
  {
    if keys != [] {
      UnwrittenKeysAddNothing(vars, player, keys[..|keys| - 1]);
    }
  }

  class GlobalPoints {
    const game1PointsPpv: string
    const game2PointsPpv: string
    const game3PointsPpv: string
    const storage: PersistentStorage
    var gamePointsPpvs: seq<string>
    var outbox: seq<Output>

    constructor (storage: PersistentStorage, game1PointsPpv: string, game2PointsPpv: string, game3PointsPpv: string)
      ensures this.storage == storage
      ensures this.game1PointsPpv == game1PointsPpv && this.game2PointsPpv == game2PointsPpv
      ensures this.game3PointsPpv == game3PointsPpv
      ensures gamePointsPpvs == [] && outbox == []
    {
      this.storage := storage;
      this.game1PointsPpv, this.game2PointsPpv, this.game3PointsPpv := game1PointsPpv, game2PointsPpv, game3PointsPpv;
      gamePointsPpvs := [];
      outbox := [];
    }

    /** start: keep the configured keys that are set, in game order. */
    method Start()
      modifies this
      ensures gamePointsPpvs == old(gamePointsPpvs) + NonEmpty([game1PointsPpv, game2PointsPpv, game3PointsPpv])
      ensures outbox == old(outbox)
    {
      if game1PointsPpv != "" {
        gamePointsPpvs := gamePointsPpvs + [game1PointsPpv];
      }
      if game2PointsPpv != "" {
        gamePointsPpvs := gamePointsPpvs + [game2PointsPpv];
      }
      if game3PointsPpv != "" {
        gamePointsPpvs := gamePointsPpvs + [game3PointsPpv];
      }
      assert [game1PointsPpv, game2PointsPpv, game3PointsPpv][1..] == [game2PointsPpv, game3PointsPpv];
      assert [game2PointsPpv, game3PointsPpv][1..] == [game3PointsPpv];
      assert [game3PointsPpv][1..] == [];
      assert NonEmpty([game3PointsPpv]) == if game3PointsPpv != "" then [game3PointsPpv] else [];
    }

    /** onHighScoreUpdate: the overall entry becomes the player's total, overriding the previous one. */
    method OnHighScoreUpdate(player: PlayerId)
      modifies this
      ensures gamePointsPpvs == old(gamePointsPpvs)
      ensures outbox == old(outbox) + [SetScore(GLOBAL_HIGH_SCORE_PPV, player, Sum(storage.vars, player, gamePointsPpvs), true)]
    {
      var totalHighScore := Reduce(storage.vars, player, 0, gamePointsPpvs);
      ReduceIsSum(storage.vars, player, 0, gamePointsPpvs);
      outbox := outbox + [SetScore(GLOBAL_HIGH_SCORE_PPV, player, totalHighScore, true)];
    }
  }
}
