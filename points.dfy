/**
 * PointsManager of PointsManager.ts: a player's running score in one game,
 * with a win cap, a loss floor and a streak multiplier, and the player's
 * stored high score and leaderboard entry kept up to date after every change.
 */
module Points {
  import opened Wrappers
  import opened Events
  import opened Storage

  datatype Options = Options(
    winPoints: int,
    losePoints: int,
    maxWin: int,
    maxLose: int,
    streakThreshold: int,
    streakMultiplier: int)

  /** The options a caller may leave out; `None` is an absent key. */
  datatype PartialOptions = PartialOptions(
    winPoints: Option<int>,
    losePoints: Option<int>,
    maxWin: Option<int>,
    maxLose: Option<int>,
    streakThreshold: Option<int>,
    streakMultiplier: Option<int>)

  function Defaults(): Options {
    Options(winPoints := 1, losePoints := 1, maxWin := 100, maxLose := 0, streakThreshold := 3, streakMultiplier := 2)
  }

  function Or(o: Option<int>, default: int): int {
    if o.Some? then o.value else default
  }

  /** `{...defaults, ...options}`: every key given overrides the default. */
  function Merge(defaults: Options, given: PartialOptions): (opts: Options)
    ensures given.winPoints.Some? ==> opts.winPoints == given.winPoints.value
    ensures given.winPoints.None? ==> opts.winPoints == defaults.winPoints
    ensures given.losePoints.Some? ==> opts.losePoints == given.losePoints.value
    ensures given.losePoints.None? ==> opts.losePoints == defaults.losePoints
    ensures given.maxWin.Some? ==> opts.maxWin == given.maxWin.value
    ensures given.maxWin.None? ==> opts.maxWin == defaults.maxWin
    ensures given.maxLose.Some? ==> opts.maxLose == given.maxLose.value
    ensures given.maxLose.None? ==> opts.maxLose == defaults.maxLose
    ensures given.streakThreshold.Some? ==> opts.streakThreshold == given.streakThreshold.value
    ensures given.streakThreshold.None? ==> opts.streakThreshold == defaults.streakThreshold
    ensures given.streakMultiplier.Some? ==> opts.streakMultiplier == given.streakMultiplier.value
    ensures given.streakMultiplier.None? ==> opts.streakMultiplier == defaults.streakMultiplier
  {
    Options(Or(given.winPoints, defaults.winPoints), Or(given.losePoints, defaults.losePoints),
            Or(given.maxWin, defaults.maxWin), Or(given.maxLose, defaults.maxLose),
            Or(given.streakThreshold, defaults.streakThreshold), Or(given.streakMultiplier, defaults.streakMultiplier))
  }

  /** The options of the points demo: only win and lose points and the streak are overridden. */
  function DemoOptions(): Options {
    Merge(Defaults(), PartialOptions(Some(2), Some(1), None, None, Some(5), Some(3)))
  }

  datatype Score = Score(points: int, streakLength: int, pointFactor: int)

  const Fresh := Score(0, 0, 1)

  /** win(): add the win points at the current factor, cap, then extend the streak. */
  function WinScore(o: Options, s: Score): Score {
    var added := s.points + o.winPoints * s.pointFactor;
    var points := if added > o.maxWin then o.maxWin else added;
    var streak := s.streakLength + 1;
    Score(points, streak, if streak >= o.streakThreshold then o.streakMultiplier else s.pointFactor)
  }

  /** lose(): subtract the lose points, floor, and end the streak. */
  function LoseScore(o: Options, s: Score): Score {
    var taken := s.points - o.losePoints;
    Score(if taken < o.maxLose then o.maxLose else taken, 0, 1)
  }

  /** reset(): the score starts over. */
  function ResetScore(s: Score): Score {
    Fresh
  }

  /** Options under which the cap and the floor keep the score between them. */
  predicate Sane(o: Options) {
    o.winPoints >= 0 && o.losePoints >= 0 && o.streakMultiplier >= 0 && o.maxLose <= 0 <= o.maxWin
  }

  predicate InBounds(o: Options, s: Score) {
    o.maxLose <= s.points <= o.maxWin && (s.pointFactor == 1 || s.pointFactor == o.streakMultiplier)
  }

  /** maxLose <= points <= maxWin holds from the start and is kept by win, lose and reset. */
  lemma BoundsKept(o: Options, s: Score)
    requires Sane(o)
    ensures InBounds(o, Fresh)
    ensures InBounds(o, s) ==> InBounds(o, WinScore(o, s)) && InBounds(o, LoseScore(o, s)) && InBounds(o, ResetScore(s))
  {
    if InBounds(o, s) {
      assert o.winPoints * s.pointFactor >= 0;
    }
  }

  /** The score after `k` wins in a row. */
  function WinsFrom(o: Options, s: Score, k: nat): Score {
    if k == 0 then s else WinScore(o, WinsFrom(o, s, k - 1))
  }

  /** The factor in force after `k` wins from a fresh score: the multiplier once the threshold win is in. */
  function FactorAfter(o: Options, k: nat): int {
    if k >= 1 && k >= o.streakThreshold then o.streakMultiplier else 1
  }

  /** The points `k` wins from a fresh score would give without the cap. */
  function UncappedWins(o: Options, k: nat): int {
    if k == 0 then 0 else UncappedWins(o, k - 1) + o.winPoints * FactorAfter(o, k - 1)
  }

  lemma {:induction false} UncappedGrows(o: Options, k: nat)
    requires o.winPoints >= 0 && o.streakMultiplier >= 0
    ensures 0 <= UncappedWins(o, k)
    ensures k > 0 ==> UncappedWins(o, k - 1) <= UncappedWins(o, k)
  {
    if k > 0 {
      UncappedGrows(o, k - 1);
      assert o.winPoints * FactorAfter(o, k - 1) >= 0;
    }
  }

  /**
   * After `k` wins in a row from a fresh score the streak is `k`, the factor
   * is the multiplier exactly when the threshold win is among them (so the
   * win that reaches the threshold still scores at the old factor), and while
   * the cap is not reached the points are the uncapped sum.
   */
  lemma {:induction false} StreakAfterWins(o: Options, k: nat)
    requires o.winPoints >= 0 && o.streakMultiplier >= 0
    ensures WinsFrom(o, Fresh, k).streakLength == k
    ensures WinsFrom(o, Fresh, k).pointFactor == FactorAfter(o, k)
    ensures UncappedWins(o, k) <= o.maxWin ==> WinsFrom(o, Fresh, k).points == UncappedWins(o, k)
  {
    if k > 0 {
      StreakAfterWins(o, k - 1);
      UncappedGrows(o, k);
    }
  }

  /** Six wins with the demo options score 2, 4, 6, 8, 10 and then 16. */
  lemma DemoSixWins()
    ensures DemoOptions() == Options(2, 1, 100, 0, 5, 3)
    ensures WinsFrom(DemoOptions(), Fresh, 1).points == 2
    ensures WinsFrom(DemoOptions(), Fresh, 2).points == 4
    ensures WinsFrom(DemoOptions(), Fresh, 3).points == 6
    ensures WinsFrom(DemoOptions(), Fresh, 4).points == 8
    ensures WinsFrom(DemoOptions(), Fresh, 5).points == 10
    ensures WinsFrom(DemoOptions(), Fresh, 6).points == 16
  {
    var o := Options(2, 1, 100, 0, 5, 3);
    assert DemoOptions() == o;
    assert WinsFrom(o, Fresh, 1) == Score(2, 1, 1);
    assert WinsFrom(o, Fresh, 2) == Score(4, 2, 1);
    assert WinsFrom(o, Fresh, 3) == Score(6, 3, 1);
    assert WinsFrom(o, Fresh, 4) == Score(8, 4, 1);
    assert WinsFrom(o, Fresh, 5) == Score(10, 5, 3);
    assert WinsFrom(o, Fresh, 6) == Score(16, 6, 3);
  }

  /** recordScore's decision: the stored high score after recording `points`. */
  function StoredAfterRecord(stored: int, points: int, resetHighScore: bool): int {
    if resetHighScore || points > stored then points else stored
  }

  /** The player's actions on the manager. */
  datatype Action = WinAction | LoseAction | ResetAction(resetHighScore: bool)

  function Apply(o: Options, s: Score, a: Action): Score {
    match a
    case WinAction => WinScore(o, s)
    case LoseAction => LoseScore(o, s)
    case ResetAction(_) => ResetScore(s)
  }

  function Resets(a: Action): bool {
    a.ResetAction? && a.resetHighScore
  }

  /** The score after a run of actions. */
  function ScoreAfter(o: Options, s: Score, actions: seq<Action>): Score
    decreases |actions|
  {
    if actions == [] then s else Apply(o, ScoreAfter(o, s, actions[..|actions| - 1]), actions[|actions| - 1])
  }

  /** The stored high score after a run of actions, each followed by recordScore. */
  function StoredAfter(o: Options, s: Score, stored: int, actions: seq<Action>): int
    decreases |actions|
  {
    if actions == [] then stored
    else
      var last := actions[|actions| - 1];
      var before := actions[..|actions| - 1];
      StoredAfterRecord(StoredAfter(o, s, stored, before), Apply(o, ScoreAfter(o, s, before), last).points, Resets(last))
  }

  /** The best score reached in a run of actions, starting from `best`. */
  function BestAfter(o: Options, s: Score, best: int, actions: seq<Action>): int
    decreases |actions|
  {
    if actions == [] then best
    else
      var p := ScoreAfter(o, s, actions).points;
      var b := BestAfter(o, s, best, actions[..|actions| - 1]);
      if p > b then p else b
  }

  /**
   * Without a high-score reset the stored high score is the best of the old
   * stored value and every score reached: it never decreases and always
   * covers the current score.
   */
  lemma {:induction false} StoredIsBest(o: Options, s: Score, stored: int, actions: seq<Action>)
    requires forall i | 0 <= i < |actions| :: !Resets(actions[i])
    ensures StoredAfter(o, s, stored, actions) == BestAfter(o, s, stored, actions)
    ensures StoredAfter(o, s, stored, actions) >= stored
    ensures StoredAfter(o, s, stored, actions) >= ScoreAfter(o, s, actions).points || actions == []
    decreases |actions|
  {
    if actions != [] {
      StoredIsBest(o, s, stored, actions[..|actions| - 1]);
    }
  }

  class PointsManager {
    const player: PlayerId
    const highScorePpv: string
    const leaderboard: string
    const options: Options
    const storage: PersistentStorage
    var points: int
    var streakLength: int
    var pointFactor: int
    var outbox: seq<Output>

    function Current(): Score
      reads this
    {
      Score(points, streakLength, pointFactor)
    }

    constructor (player: PlayerId, storage: PersistentStorage, highScorePpv: string, leaderboard: string,
                 given: PartialOptions)
      ensures this.player == player && this.storage == storage
      ensures this.highScorePpv == highScorePpv && this.leaderboard == leaderboard
      ensures options == Merge(Defaults(), given)
      ensures Current() == Fresh && outbox == []
    {
      this.player, this.storage, this.highScorePpv, this.leaderboard := player, storage, highScorePpv, leaderboard;
      options := Merge(Defaults(), given);
      points, streakLength, pointFactor := 0, 0, 1;
      outbox := [];
    }

    /**
     * recordScore: store the score as the high score when asked to reset it or
     * when it beats the stored one, announcing the write; always put the
     * score on the leaderboard.
     */
    method RecordScore(resetHighScore: bool)
      modifies this, storage
      ensures Current() == old(Current())
      ensures storage.Get(player, highScorePpv) == StoredAfterRecord(old(storage.Get(player, highScorePpv)), points, resetHighScore)
      ensures var written := resetHighScore || points > old(storage.Get(player, highScorePpv));
              && storage.vars == (if written then old(storage.vars)[(player, highScorePpv) := points] else old(storage.vars))
              && outbox == old(outbox) + (if written then [Broadcast(HighScoreUpdate(player))] else [])
                           + [SetScore(leaderboard, player, points, resetHighScore)]
    {
      var highScore := storage.Get(player, highScorePpv);
      if resetHighScore || points > highScore {
        storage.Set(player, highScorePpv, points);
        outbox := outbox + [Broadcast(HighScoreUpdate(player))];
      }
      outbox := outbox + [SetScore(leaderboard, player, points, resetHighScore)];
    }

    method Win() returns (result: int)
      modifies this, storage
      ensures Current() == WinScore(options, old(Current())) && result == points
      ensures storage.Get(player, highScorePpv) == StoredAfterRecord(old(storage.Get(player, highScorePpv)), points, false)
      ensures var written := points > old(storage.Get(player, highScorePpv));
              && storage.vars == (if written then old(storage.vars)[(player, highScorePpv) := points] else old(storage.vars))
              && outbox == old(outbox) + (if written then [Broadcast(HighScoreUpdate(player))] else [])
                           + [SetScore(leaderboard, player, points, false)]
    {
      points := points + options.winPoints * pointFactor;
      if points > options.maxWin {
        points := options.maxWin;
      }
      streakLength := streakLength + 1;
      if streakLength >= options.streakThreshold {
        pointFactor := options.streakMultiplier;
      }
      RecordScore(false);
      result := points;
    }

    method Lose() returns (result: int)
      modifies this, storage
      ensures Current() == LoseScore(options, old(Current())) && result == points
      ensures storage.Get(player, highScorePpv) == StoredAfterRecord(old(storage.Get(player, highScorePpv)), points, false)
      ensures var written := points > old(storage.Get(player, highScorePpv));
              && storage.vars == (if written then old(storage.vars)[(player, highScorePpv) := points] else old(storage.vars))
              && outbox == old(outbox) + (if written then [Broadcast(HighScoreUpdate(player))] else [])
                           + [SetScore(leaderboard, player, points, false)]
    {
      points := points - options.losePoints;
      if points < options.maxLose {
        points := options.maxLose;
      }
      streakLength := 0;
      pointFactor := 1;
      RecordScore(false);
      result := points;
    }

    method Reset(resetHighScore: bool) returns (result: int)
      modifies this, storage
      ensures Current() == Fresh && result == 0
      ensures storage.Get(player, highScorePpv) == StoredAfterRecord(old(storage.Get(player, highScorePpv)), 0, resetHighScore)
      ensures var written := resetHighScore || 0 > old(storage.Get(player, highScorePpv));
              && storage.vars == (if written then old(storage.vars)[(player, highScorePpv) := 0] else old(storage.vars))
              && outbox == old(outbox) + (if written then [Broadcast(HighScoreUpdate(player))] else [])
                           + [SetScore(leaderboard, player, 0, resetHighScore)]
    {
      points := 0;
      streakLength := 0;
      pointFactor := 1;
      RecordScore(resetHighScore);
      result := points;
    }
  }
}
