/**
 * PlayerController of StrikeGame.ts: the per-slot session. It claims the slot
 * when a player walks in, reports readiness to the game, and once the game
 * starts pulls sequences from the shared generator, shows their strikes one
 * by one to the two detectors under a shrinking time budget, and reports the
 * end of each sequence or the player's loss.
 */
module Player {
  import opened Wrappers
  import opened Strikes
  import opened ShuffleBag
  import opened Sequences
  import opened Events

  /**
   * The next per-sequence budget: floor(max(minimumSecs * 1000, budget * factor))
   * with the reduction factor given as num / den.
   */
  function NextTimeout(budget: int, minimumSecs: int, num: nat, den: nat): (next: int)
    requires den > 0
    ensures next >= minimumSecs * 1000
    ensures next == minimumSecs * 1000 || next * den <= budget * num < (next + 1) * den
    ensures next == minimumSecs * 1000 ==> budget * num < (minimumSecs * 1000 + 1) * den
  {
    var scaled := (budget * num) / den;
    if scaled > minimumSecs * 1000 then scaled else minimumSecs * 1000
  }

  /** With a factor of at most 1, a budget at or above the minimum never grows. */
  lemma TimeoutNeverGrows(budget: int, minimumSecs: int, num: nat, den: nat)
    requires 0 < den && num <= den
    requires budget >= 0 && budget >= minimumSecs * 1000
    ensures minimumSecs * 1000 <= NextTimeout(budget, minimumSecs, num, den) <= budget
  {
    var next := NextTimeout(budget, minimumSecs, num, den);
    if next > minimumSecs * 1000 {
      assert budget * num <= budget * den;
      assert next * den <= budget * den;
    }
  }

  /** The budget after `k` sequences, starting from `start`. */
  function TimeoutAfter(start: int, k: nat, minimumSecs: int, num: nat, den: nat): int
    requires den > 0
  {
    if k == 0 then start else NextTimeout(TimeoutAfter(start, k - 1, minimumSecs, num, den), minimumSecs, num, den)
  }

  /** With a factor below 1, a budget above the minimum loses at least a millisecond. */
  lemma TimeoutShrinks(budget: int, minimumSecs: int, num: nat, den: nat)
    requires 0 < den && num < den
    requires minimumSecs >= 0 && budget >= minimumSecs * 1000
    ensures var next := NextTimeout(budget, minimumSecs, num, den);
            next == minimumSecs * 1000 || next <= budget - 1
  {
    var next := NextTimeout(budget, minimumSecs, num, den);
    if next > minimumSecs * 1000 {
      BelowScaledBudget(budget, next, num, den);
    }
  }

  /** a <= b scales to a * d <= b * d for a non-negative d. */
  lemma MulMonotone(a: int, b: int, d: int)
    requires a <= b && d >= 0
    ensures a * d <= b * d
  {
  }

  /** a * d < b * d with a positive d means a < b. */
  lemma CancelPositive(a: int, b: int, d: int)
    requires d > 0 && a * d < b * d
    ensures a < b
  {
  }

  /** A positive value at most budget * num / den, with num < den, lies below the budget. */
  lemma BelowScaledBudget(budget: int, next: int, num: nat, den: nat)
    requires num < den && budget >= 0 && next >= 1
    requires next * den <= budget * num
    ensures next < budget
  {
    MulMonotone(num, den - 1, budget);
    assert (den - 1) * budget == den * budget - budget;
    MulMonotone(1, next, den);
    assert budget * num >= 1;
    assert budget >= 1;
    assert next * den < budget * den;
    CancelPositive(next, budget, den);
  }

  /**
   * With a factor below 1, each sequence takes at least a millisecond off the
   * budget until the minimum is reached, so after `start - minimum` sequences the
   * budget is the minimum.
   */
  lemma {:induction false} TimeoutReachesMinimum(start: int, k: nat, minimumSecs: int, num: nat, den: nat)
    requires 0 < den && num < den
    requires minimumSecs >= 0 && start >= minimumSecs * 1000
    ensures minimumSecs * 1000 <= TimeoutAfter(start, k, minimumSecs, num, den)
    ensures TimeoutAfter(start, k, minimumSecs, num, den) <= if start - k > minimumSecs * 1000 then start - k else minimumSecs * 1000
  {
    if k > 0 {
      TimeoutReachesMinimum(start, k - 1, minimumSecs, num, den);
      TimeoutShrinks(TimeoutAfter(start, k - 1, minimumSecs, num, den), minimumSecs, num, den);
    }
  }

  /** The front of a sequence, as `shift()` returns it. */
  function Front(strikes: seq<StrikeType>): Option<StrikeType> {
    if strikes == [] then None else Some(strikes[0])
  }

  /** The sequence after `shift()`. */
  function Rest(strikes: seq<StrikeType>): seq<StrikeType> {
    if strikes == [] then [] else strikes[1..]
  }

  /** The handedness choice is offered to the player, or withdrawn. */
  function HandednessOutputs(shown: bool, player: Option<PlayerId>): seq<Output> {
    if shown && player.Some? then
      [Send(LeftButton, GetPlayerHandedness(player.value)), Send(RightButton, GetPlayerHandedness(player.value))]
    else
      [Send(LeftButton, HideButton), Send(RightButton, HideButton)]
  }

  /**
   * displayNextStrike's effects: a strike is named on screen and given to both
   * detectors; no strike left ends the sequence for this slot.
   */
  function DisplayOutputs(front: Option<StrikeType>, isRightHanded: bool, playerNum: Slot): (out: seq<Output>)
    ensures front.Some? ==> Send(HeadDetector, DetectorStrikeType(front.value)) in out
                            && Send(BodyDetector, DetectorStrikeType(front.value)) in out
                            && Send(Game, SequenceDone(playerNum)) !in out
    ensures front.None? ==> out == [ShowText(StrikeText, ""), Send(Timer, StopTimer), Send(Game, SequenceDone(playerNum))]
  {
    match front
    case Some(strike) =>
      [ ShowText(StrikeText, StrikeName(strike, isRightHanded)),
        Send(HeadDetector, DetectorStrikeType(strike)),
        Send(BodyDetector, DetectorStrikeType(strike)) ]
    case None =>
      [ShowText(StrikeText, ""), Send(Timer, StopTimer), Send(Game, SequenceDone(playerNum))]
  }

  /**
   * playerLost's effects: both detectors are cleared; only while a generator is
   * held is the loss shown, the timer stopped and the game told.
   */
  function LostOutputs(holdsGenerator: bool, playerNum: Slot): (out: seq<Output>)
    ensures Send(Game, PlayerLost(playerNum)) in out <==> holdsGenerator
    ensures |out| >= 2 && out[..2] == [Send(HeadDetector, DetectorClearStrike), Send(BodyDetector, DetectorClearStrike)]
  {
    [Send(HeadDetector, DetectorClearStrike), Send(BodyDetector, DetectorClearStrike)]
    + if holdsGenerator then
        [ShowText(StrikeText, "You Lost!"), Play(BuzzerSfx), Send(Timer, StopTimer), Send(Game, PlayerLost(playerNum))]
      else []
  }

  /** The session's fields as a value. */
  datatype Session = Session(
    player: Option<PlayerId>,
    isRightHanded: bool,
    inGame: bool,
    strikeGenerator: Option<StrikeGenerator>,
    strikeCount: nat,
    points: int,
    currentTimeoutMsec: int,
    currentSequence: Option<StrikeSequence>,
    pendingDisplays: nat)

  class PlayerController {
    const playerNum: Slot
    const startTimeoutSecs: int
    /** timeoutReductionFactor = reductionNum / reductionDen */
    const reductionNum: nat
    const reductionDen: nat
    const minimumTimeoutSecs: int
    /** The catalogue every generator of the game draws from. */
    const catalogue: Catalogue

    var player: Option<PlayerId>
    var isRightHanded: bool
    var inGame: bool
    var strikeGenerator: Option<StrikeGenerator>
    var strikeCount: nat
    var points: int
    var currentTimeoutMsec: int
    var currentSequence: Option<StrikeSequence>
    /** Display callbacks scheduled 250 ms after a hit and not yet run. */
    var pendingDisplays: nat
    var outbox: seq<Output>

    ghost function Snap(): Session
      reads this
    {
      Session(player, isRightHanded, inGame, strikeGenerator, strikeCount, points,
              currentTimeoutMsec, currentSequence, pendingDisplays)
    }

    ghost predicate Valid()
      reads this, catalogue, catalogue.easy, catalogue.medium, catalogue.hard
      reads if strikeGenerator.Some? then {strikeGenerator.value} else {}
    {
      && reductionDen > 0
      && catalogue.Valid()
      && (strikeGenerator.Some? ==> strikeGenerator.value.catalogue == catalogue && strikeGenerator.value.Valid())
      && (currentSequence.Some? ==> currentSequence.value in catalogue.templates)
    }

    /** The field initialisers and start(), which blanks the strike text. */
    constructor (catalogue: Catalogue, playerNum: Slot, startTimeoutSecs: int,
                 reductionNum: nat, reductionDen: nat, minimumTimeoutSecs: int)
      requires reductionDen > 0 && catalogue.Valid()
      ensures Valid()
      ensures this.catalogue == catalogue && this.playerNum == playerNum
      ensures this.startTimeoutSecs == startTimeoutSecs && this.minimumTimeoutSecs == minimumTimeoutSecs
      ensures this.reductionNum == reductionNum && this.reductionDen == reductionDen
      ensures Snap() == Session(None, false, false, None, 0, 0, 0, None, 0)
      ensures outbox == [ShowText(StrikeText, "")]
    {
      this.catalogue, this.playerNum := catalogue, playerNum;
      this.startTimeoutSecs, this.minimumTimeoutSecs := startTimeoutSecs, minimumTimeoutSecs;
      this.reductionNum, this.reductionDen := reductionNum, reductionDen;
      player, isRightHanded, inGame, strikeGenerator := None, false, false, None;
      strikeCount, points, currentTimeoutMsec, currentSequence, pendingDisplays := 0, 0, 0, None, 0;
      outbox := [ShowText(StrikeText, "")];
    }

    /** resetGame: back to an empty slot. Scheduled display callbacks are not cancelled. */
    method ResetGame()
      requires Valid()
      modifies this
      ensures Valid()
      ensures Snap() == Session(None, false, false, None, 0, 0, 0, None, old(pendingDisplays))
      ensures outbox == old(outbox) + [ShowText(StrikeText, "")] + HandednessOutputs(false, None)
    {
      player, isRightHanded, inGame, strikeGenerator := None, false, false, None;
      strikeCount, points, currentTimeoutMsec, currentSequence := 0, 0, 0, None;
      outbox := outbox + [ShowText(StrikeText, "")];
      ShowHandednessButtons(false);
    }

    method ShowHandednessButtons(shown: bool)
      modifies this
      ensures Snap() == old(Snap())
      ensures outbox == old(outbox) + HandednessOutputs(shown, player)
    {
      outbox := outbox + HandednessOutputs(shown, player);
    }

    /** onPlayerEnter: an empty slot outside a game is claimed and reported ready. */
    method OnPlayerEnter(p: PlayerId)
      requires Valid()
      modifies this
      ensures Valid()
      ensures old(player).None? && !old(inGame) ==>
                && Snap() == old(Snap()).(player := Some(p), isRightHanded := true)
                && outbox == old(outbox)
                             + [ SetOwner(HeadDetector, OwnedBy(p)), SetOwner(BodyDetector, OwnedBy(p)),
                                 Send(Game, PlayerReady(playerNum, true)) ]
                             + HandednessOutputs(true, Some(p))
      ensures !(old(player).None? && !old(inGame)) ==>
                Snap() == old(Snap()) && outbox == old(outbox) + [Popup(p, "Game in progress")]
    {
      if player.None? && !inGame {
        player := Some(p);
        isRightHanded := true;
        outbox := outbox + [SetOwner(HeadDetector, OwnedBy(p)), SetOwner(BodyDetector, OwnedBy(p))];
        outbox := outbox + [Send(Game, PlayerReady(playerNum, true))];
        ShowHandednessButtons(true);
      } else {
        outbox := outbox + [Popup(p, "Game in progress")];
      }
    }

    /**
     * onPlayerExit: only the slot's own player counts; leaving before the game
     * withdraws readiness, leaving during the game loses.
     */
    method OnPlayerExit(p: PlayerId)
      requires Valid()
      modifies this
      ensures Valid()
      ensures old(player) != Some(p) ==> Snap() == old(Snap()) && outbox == old(outbox)
      ensures old(player) == Some(p) && !old(inGame) ==>
                && Snap() == old(Snap()).(player := None)
                && outbox == old(outbox)
                             + [SetOwner(HeadDetector, ServerPlayer), SetOwner(BodyDetector, ServerPlayer)]
                             + HandednessOutputs(false, None)
                             + [Send(Game, PlayerReady(playerNum, false))]
      ensures old(player) == Some(p) && old(inGame) ==>
                && Snap() == old(Snap()).(player := None, strikeGenerator := None)
                && outbox == old(outbox)
                             + [SetOwner(HeadDetector, ServerPlayer), SetOwner(BodyDetector, ServerPlayer)]
                             + LostOutputs(old(strikeGenerator).Some?, playerNum)
    {
      if player == Some(p) {
        player := None;
        outbox := outbox + [SetOwner(HeadDetector, ServerPlayer), SetOwner(BodyDetector, ServerPlayer)];
        if !inGame {
          ShowHandednessButtons(false);
          outbox := outbox + [Send(Game, PlayerReady(playerNum, false))];
        } else {
          PlayerLost();
        }
      }
    }

    /** onStartGameCountdown: offer the handedness choice and show the countdown clock. */
    method OnStartGameCountdown(seconds: int)
      modifies this
      ensures Snap() == old(Snap())
      ensures outbox == old(outbox) + HandednessOutputs(true, player) + [Send(Timer, StartTimer(seconds * 1000, true))]
    {
      ShowHandednessButtons(true);
      outbox := outbox + [Send(Timer, StartTimer(seconds * 1000, true))];
    }

    /** onStopGameCountdown: withdraw the choice and stop the clock. */
    method OnStopGameCountdown()
      modifies this
      ensures Snap() == old(Snap())
      ensures outbox == old(outbox) + HandednessOutputs(false, player) + [Send(Timer, StopTimer)]
    {
      ShowHandednessButtons(false);
      outbox := outbox + [Send(Timer, StopTimer)];
    }

    /** onPlayerHandedness: the player chose a hand. */
    method OnPlayerHandedness(isRightHanded: bool)
      requires Valid()
      modifies this
      ensures Valid()
      ensures Snap() == old(Snap()).(isRightHanded := isRightHanded)
      ensures outbox == old(outbox) + HandednessOutputs(false, player)
    {
      ShowHandednessButtons(false);
      this.isRightHanded := isRightHanded;
    }

    /** onTimerDone: out of time during the game is a loss; in the countdown it only closes the choice. */
    method OnTimerDone()
      requires Valid()
      modifies this
      ensures Valid()
      ensures old(inGame) ==>
                Snap() == old(Snap()).(strikeGenerator := None)
                && outbox == old(outbox) + LostOutputs(old(strikeGenerator).Some?, playerNum)
      ensures !old(inGame) ==>
                Snap() == old(Snap()) && outbox == old(outbox) + HandednessOutputs(false, player) + [Play(TimerDoneSfx)]
    {
      if inGame {
        PlayerLost();
      } else {
        ShowHandednessButtons(false);
        outbox := outbox + [Play(TimerDoneSfx)];
      }
    }

    /** onStartGame: take the generator (none for an inactive slot) and reset the counters. */
    method OnStartGame(generator: Option<StrikeGenerator>)
      requires Valid()
      requires generator.Some? ==> generator.value.catalogue == catalogue && generator.value.Valid()
      modifies this
      ensures Valid()
      ensures Snap() == old(Snap()).(strikeGenerator := generator, inGame := true, points := 0,
                                     strikeCount := 0, currentTimeoutMsec := startTimeoutSecs * 1000)
      ensures outbox == old(outbox)
    {
      strikeGenerator := generator;
      inGame := true;
      points := 0;
      strikeCount := 0;
      currentTimeoutMsec := startTimeoutSecs * 1000;
    }

    /**
     * playerLost: clear the detectors; the first call of a game (the one that
     * still holds the generator) drops the generator and tells the game, every
     * later call finds no generator and tells no one.
     */
    method PlayerLost()
      requires Valid()
      modifies this
      ensures Valid()
      ensures Snap() == old(Snap()).(strikeGenerator := None)
      ensures outbox == old(outbox) + LostOutputs(old(strikeGenerator).Some?, playerNum)
    {
      outbox := outbox + [Send(HeadDetector, DetectorClearStrike), Send(BodyDetector, DetectorClearStrike)];
      if strikeGenerator.Some? {
        strikeGenerator := None;
        outbox := outbox + [ShowText(StrikeText, "You Lost!"), Play(BuzzerSfx)];
        outbox := outbox + [Send(Timer, StopTimer), Send(Game, Msg.PlayerLost(playerNum))];
      }
    }

    /**
     * nextSequence: without a generator (the player already lost, or the slot
     * is inactive) nothing happens. Otherwise fetch the sequence for this
     * slot's round counter, start the timer on the current budget, shrink the
     * budget, and show the first strike.
     */
    method NextSequence(rolls: seq<real>)
      requires Valid()
      requires ValidRolls(rolls)
      requires strikeGenerator.Some? ==> strikeGenerator.value.DrawsNeeded(strikeCount) <= |rolls|
      modifies this, catalogue.easy, catalogue.medium, catalogue.hard, catalogue.templates
      modifies if strikeGenerator.Some? then {strikeGenerator.value} else {}
      ensures Valid()
      ensures old(strikeGenerator).None? ==>
                && Snap() == old(Snap()) && outbox == old(outbox)
                && unchanged(catalogue.easy, catalogue.medium, catalogue.hard) && unchanged(catalogue.templates)
      ensures old(strikeGenerator).Some? ==>
                var generator := old(strikeGenerator).value;
                && generator.State() == Draws(old(generator.State()), rolls[..old(generator.DrawsNeeded(strikeCount))],
                                              generator.numEasy, generator.numMedium)
                && old(strikeCount) < |generator.sequences|
                && currentSequence == generator.sequences[old(strikeCount)]
                && Snap() == old(Snap()).(strikeCount := old(strikeCount) + 1, currentSequence := currentSequence,
                                          currentTimeoutMsec := NextTimeout(old(currentTimeoutMsec), minimumTimeoutSecs,
                                                                            reductionNum, reductionDen))
                && (currentSequence.None? ==>
                      outbox == old(outbox) + [Send(Timer, StartTimer(old(currentTimeoutMsec), false))]
                                + DisplayOutputs(None, isRightHanded, playerNum))
                && (currentSequence.Some? ==>
                      var dealt := currentSequence.value;
                      && dealt.strikes == Rest(old(dealt.strikes))
                      && outbox == old(outbox) + [Send(Timer, StartTimer(old(currentTimeoutMsec), false))]
                                   + DisplayOutputs(Front(old(dealt.strikes)), isRightHanded, playerNum))
      ensures forall t | t in catalogue.templates && Some(t) != currentSequence :: t.strikes == old(t.strikes)
    {
      if strikeGenerator.Some? {
        var generator := strikeGenerator.value;
        ghost var index := strikeCount;
        ghost var used := generator.DrawsNeeded(index);
        ghost var drawn := Draws(generator.State(), rolls[..used], generator.numEasy, generator.numMedium);
        var dealt := generator.GetNextSequence(strikeCount, rolls);
        assert generator.State() == drawn;
        assert dealt.Some? ==> dealt.value in catalogue.templates;
        StartSequence(dealt);
        assert index < |generator.sequences| && dealt == generator.sequences[index];
        assert generator.State() == drawn;
      }
    }

    /** The rest of nextSequence once the sequence is fetched. */
    method StartSequence(dealt: Option<StrikeSequence>)
      requires Valid()
      requires dealt.Some? ==> dealt.value in catalogue.templates
      modifies this, if dealt.Some? then {dealt.value} else {}
      ensures Valid()
      ensures Snap() == old(Snap()).(strikeCount := old(strikeCount) + 1, currentSequence := dealt,
                                     currentTimeoutMsec := NextTimeout(old(currentTimeoutMsec), minimumTimeoutSecs,
                                                                       reductionNum, reductionDen))
      ensures dealt.None? ==>
                outbox == old(outbox) + [Send(Timer, StartTimer(old(currentTimeoutMsec), false))]
                          + DisplayOutputs(None, isRightHanded, playerNum)
      ensures dealt.Some? ==>
                && dealt.value.strikes == Rest(old(dealt.value.strikes))
                && outbox == old(outbox) + [Send(Timer, StartTimer(old(currentTimeoutMsec), false))]
                             + DisplayOutputs(Front(old(dealt.value.strikes)), isRightHanded, playerNum)
    {
      currentSequence := dealt;
      strikeCount := strikeCount + 1;
      outbox := outbox + [Send(Timer, StartTimer(currentTimeoutMsec, false))];
      currentTimeoutMsec := NextTimeout(currentTimeoutMsec, minimumTimeoutSecs, reductionNum, reductionDen);
      DisplayNextStrike();
    }

    /** displayNextStrike: take the front strike off the current sequence, in place. */
    method DisplayNextStrike()
      requires Valid()
      modifies this, if currentSequence.Some? then {currentSequence.value} else {}
      ensures Valid()
      ensures Snap() == old(Snap())
      ensures currentSequence.None? ==> outbox == old(outbox) + DisplayOutputs(None, isRightHanded, playerNum)
      ensures currentSequence.Some? ==>
                var cs := currentSequence.value;
                && cs.strikes == Rest(old(cs.strikes))
                && outbox == old(outbox) + DisplayOutputs(Front(old(cs.strikes)), isRightHanded, playerNum)
    {
      var front := None;
      if currentSequence.Some? {
        front := currentSequence.value.Shift();
      }
      match front
      case Some(strike) =>
        outbox := outbox + [ShowText(StrikeText, StrikeName(strike, isRightHanded))];
        outbox := outbox + [Send(HeadDetector, DetectorStrikeType(strike)), Send(BodyDetector, DetectorStrikeType(strike))];
      case None =>
        outbox := outbox + [ShowText(StrikeText, ""), Send(Timer, StopTimer), Send(Game, SequenceDone(playerNum))];
    }

    /** onDetectorHit: clear both detectors; a hit schedules the next strike, a miss loses. */
    method OnDetectorHit(isHit: bool)
      requires Valid()
      modifies this
      ensures Valid()
      ensures isHit ==>
                && Snap() == old(Snap()).(pendingDisplays := old(pendingDisplays) + 1)
                && outbox == old(outbox) + [Send(HeadDetector, DetectorClearStrike), Send(BodyDetector, DetectorClearStrike)]
      ensures !isHit ==>
                && Snap() == old(Snap()).(strikeGenerator := None)
                && outbox == old(outbox) + [Send(HeadDetector, DetectorClearStrike), Send(BodyDetector, DetectorClearStrike)]
                             + LostOutputs(old(strikeGenerator).Some?, playerNum)
    {
      outbox := outbox + [Send(HeadDetector, DetectorClearStrike), Send(BodyDetector, DetectorClearStrike)];
      if isHit {
        pendingDisplays := pendingDisplays + 1;
      } else {
        PlayerLost();
      }
    }

    /** The 250 ms callback scheduled by a hit runs. */
    method FireDisplayTimer()
      requires Valid() && pendingDisplays > 0
      modifies this, if currentSequence.Some? then {currentSequence.value} else {}
      ensures Valid()
      ensures Snap() == old(Snap()).(pendingDisplays := old(pendingDisplays) - 1)
      ensures currentSequence.None? ==> outbox == old(outbox) + DisplayOutputs(None, isRightHanded, playerNum)
      ensures currentSequence.Some? ==>
                var cs := currentSequence.value;
                && cs.strikes == Rest(old(cs.strikes))
                && outbox == old(outbox) + DisplayOutputs(Front(old(cs.strikes)), isRightHanded, playerNum)
    {
      pendingDisplays := pendingDisplays - 1;
      DisplayNextStrike();
    }
  }
}
