/**
 * StrikeGame of StrikeGame.ts: the match orchestrator. It tracks which of the
 * two slots are ready (before the game) or still playing (during it), runs
 * the start countdown, hands one shared generator to the playing slots, and
 * starts each round once every slot has finished its sequence.
 */
module Game {
  import opened Wrappers
  import opened Sequences
  import opened Events

  const START_COUNTDOWN_SECS := 10
  const COUNTDOWN_DELAY_MSEC := START_COUNTDOWN_SECS * 1000 + 100
  const INITIAL_RESET_DELAY_MSEC := 1000
  const ROUND_DELAY_MSEC := 3000
  const GAME_OVER_DELAY_MSEC := 5000

  /** The callbacks the game schedules with setTimeout. */
  datatype Callback = InitialReset | CountdownDone | NextRound | GameOverReset
  datatype Scheduled = Scheduled(delayMsec: nat, callback: Callback)

  /** "Some slot is ready" (or, during the game, "some slot is still playing"). */
  predicate AnyReady(flags: seq<bool>)
    requires |flags| == 2
  {
    flags[0] || flags[1]
  }

  datatype Edge = Rising | Falling | Steady

  function ReadinessEdge(before: bool, after: bool): Edge {
    if before == after then Steady else if after then Rising else Falling
  }

  /**
   * A slot's readiness change makes a rising edge only when it is the first
   * slot to get ready, and a falling edge only when it is the last one to
   * withdraw; a repeated report is always steady.
   */
  lemma ReadinessEdges(flags: seq<bool>, slot: Slot, isReady: bool)
    requires |flags| == 2
    ensures var e := ReadinessEdge(AnyReady(flags), AnyReady(flags[slot := isReady]));
            && (e == Rising <==> isReady && !flags[0] && !flags[1])
            && (e == Falling <==> !isReady && flags[slot] && !flags[1 - slot])
    ensures ReadinessEdge(AnyReady(flags[slot := isReady]), AnyReady(flags[slot := isReady][slot := isReady])) == Steady
  {
  }

  /** What playerStatus sends for an edge. */
  function EdgeOutputs(e: Edge): (out: seq<Output>)
    ensures e == Steady <==> out == []
  {
    match e
    case Rising =>
      [Send(Player0Controller, StartGameCountdown(START_COUNTDOWN_SECS)),
       Send(Player1Controller, StartGameCountdown(START_COUNTDOWN_SECS))]
    case Falling =>
      [Send(Player0Controller, StopGameCountdown), Send(Player1Controller, StopGameCountdown)]
    case Steady => []
  }

  /** What sendNextSequence sends while in a game. */
  function RoundOutputs(active: seq<bool>): (out: seq<Output>)
    requires |active| == 2
    ensures Send(Player0Controller, NextSequence) in out <==> active[0]
    ensures Send(Player1Controller, NextSequence) in out <==> active[1]
  {
    [ShowText(StatusText, "Next Sequence")]
    + (if active[0] then [Send(Player0Controller, NextSequence)] else [])
    + (if active[1] then [Send(Player1Controller, NextSequence)] else [])
  }

  class StrikeGame {
    const numEasy: int
    const numMedium: int
    const catalogue: Catalogue
    /** playerActive: ready before the game, still playing during it. Updated in place. */
    const playerActive: array<bool>
    /** playerPunching: still working on this round's sequence. Replaced by a copy each round. */
    var playerPunching: array<bool>
    var countdownTimeout: int
    var inGame: bool
    /** Pending setTimeout callbacks by handle. */
    var timers: map<int, Scheduled>
    var nextHandle: int
    var outbox: seq<Output>

    ghost predicate Valid()
      reads this, catalogue, catalogue.easy, catalogue.medium, catalogue.hard
    {
      && playerActive.Length == 2 && playerPunching.Length == 2
      && playerActive != playerPunching
      && catalogue.Valid()
      && nextHandle >= 1
      && (forall h | h in timers :: 1 <= h < nextHandle)
    }

    /** Field initialisers and start(): the first resetGame broadcast is scheduled after a second. */
    constructor (catalogue: Catalogue, numEasy: int, numMedium: int)
      requires catalogue.Valid()
      ensures Valid()
      ensures this.catalogue == catalogue && this.numEasy == numEasy && this.numMedium == numMedium
      ensures fresh(playerActive) && fresh(playerPunching)
      ensures playerActive[..] == [false, false] && playerPunching[..] == [false, false]
      ensures countdownTimeout == -1 && !inGame && outbox == []
      ensures timers == map[1 := Scheduled(INITIAL_RESET_DELAY_MSEC, InitialReset)] && nextHandle == 2
    {
      this.catalogue, this.numEasy, this.numMedium := catalogue, numEasy, numMedium;
      playerActive := new bool[2](_ => false);
      playerPunching := new bool[2](_ => false);
      countdownTimeout := -1;
      inGame := false;
      timers := map[1 := Scheduled(INITIAL_RESET_DELAY_MSEC, InitialReset)];
      nextHandle := 2;
      outbox := [];
    }

    method SetTimeout(delayMsec: nat, callback: Callback) returns (handle: int)
      requires Valid()
      modifies this
      ensures Valid()
      ensures handle == old(nextHandle) && handle !in old(timers) && handle != -1
      ensures timers == old(timers)[handle := Scheduled(delayMsec, callback)] && nextHandle == old(nextHandle) + 1
      ensures playerPunching == old(playerPunching) && countdownTimeout == old(countdownTimeout)
      ensures inGame == old(inGame) && outbox == old(outbox)
    {
      handle := nextHandle;
      timers := timers[handle := Scheduled(delayMsec, callback)];
      nextHandle := nextHandle + 1;
    }

    /** resetGame: back to waiting. The slot flags are left as they are. */
    method ResetGame()
      modifies this
      ensures !inGame
      ensures outbox == old(outbox) + [ShowText(StatusText, "Waiting for players")]
      ensures playerPunching == old(playerPunching) && countdownTimeout == old(countdownTimeout)
      ensures timers == old(timers) && nextHandle == old(nextHandle)
    {
      inGame := false;
      outbox := outbox + [ShowText(StatusText, "Waiting for players")];
    }

    /**
     * playerStatus: outside a game, record the slot's readiness and arm or
     * cancel the countdown on an edge of "some slot is ready". During a game
     * the report is ignored.
     */
    method PlayerStatus(playerNum: Slot, isReady: bool)
      requires Valid()
      modifies this, playerActive
      ensures Valid()
      ensures inGame == old(inGame) && playerPunching == old(playerPunching)
      ensures old(inGame) ==>
                && playerActive[..] == old(playerActive[..]) && outbox == old(outbox)
                && timers == old(timers) && nextHandle == old(nextHandle)
                && countdownTimeout == old(countdownTimeout)
      ensures !old(inGame) ==>
                var e := ReadinessEdge(AnyReady(old(playerActive[..])), AnyReady(playerActive[..]));
                && playerActive[..] == old(playerActive[..])[playerNum := isReady]
                && outbox == old(outbox) + EdgeOutputs(e)
                && (e == Rising ==>
                      && countdownTimeout == old(nextHandle) && nextHandle == old(nextHandle) + 1
                      && timers == old(timers)[countdownTimeout := Scheduled(COUNTDOWN_DELAY_MSEC, Callback.CountdownDone)])
                && (e == Falling ==>
                      countdownTimeout == -1 && timers == old(timers) - {old(countdownTimeout)} && nextHandle == old(nextHandle))
                && (e == Steady ==>
                      countdownTimeout == old(countdownTimeout) && timers == old(timers) && nextHandle == old(nextHandle))
    {
      if !inGame {
        var prevReadyPlayers := playerActive[0] || playerActive[1];
        playerActive[playerNum] := isReady;
        var nowReadyPlayers := playerActive[0] || playerActive[1];
        if !inGame {
          if prevReadyPlayers != nowReadyPlayers {
            if nowReadyPlayers {
              countdownTimeout := SetTimeout(COUNTDOWN_DELAY_MSEC, Callback.CountdownDone);
              outbox := outbox + [Send(Player0Controller, StartGameCountdown(START_COUNTDOWN_SECS))];
              outbox := outbox + [Send(Player1Controller, StartGameCountdown(START_COUNTDOWN_SECS))];
            } else {
              timers := timers - {countdownTimeout};
              countdownTimeout := -1;
              outbox := outbox + [Send(Player0Controller, StopGameCountdown), Send(Player1Controller, StopGameCountdown)];
            }
          }
        } else {
          // The source's "nobody is ready any more: broadcast resetGame"
          // branch. The enclosing test already established !inGame and
          // nothing in between changes it, so this branch never runs.
          assert false;
        }
      }
    }

    /**
     * playerReady is connected to playerStatus twice, so every report is
     * handled twice. The second delivery finds no edge, so the pair has the
     * effect of a single delivery.
     */
    method OnPlayerReady(playerNum: Slot, isReady: bool)
      requires Valid()
      modifies this, playerActive
      ensures Valid()
      ensures inGame == old(inGame) && playerPunching == old(playerPunching)
      ensures old(inGame) ==>
                && playerActive[..] == old(playerActive[..]) && outbox == old(outbox)
                && timers == old(timers) && nextHandle == old(nextHandle)
                && countdownTimeout == old(countdownTimeout)
      ensures !old(inGame) ==>
                var e := ReadinessEdge(AnyReady(old(playerActive[..])), AnyReady(playerActive[..]));
                && playerActive[..] == old(playerActive[..])[playerNum := isReady]
                && outbox == old(outbox) + EdgeOutputs(e)
                && (e == Rising ==>
                      && countdownTimeout == old(nextHandle) && nextHandle == old(nextHandle) + 1
                      && timers == old(timers)[countdownTimeout := Scheduled(COUNTDOWN_DELAY_MSEC, Callback.CountdownDone)])
                && (e == Falling ==>
                      countdownTimeout == -1 && timers == old(timers) - {old(countdownTimeout)} && nextHandle == old(nextHandle))
                && (e == Steady ==>
                      countdownTimeout == old(countdownTimeout) && timers == old(timers) && nextHandle == old(nextHandle))
    {
      PlayerStatus(playerNum, isReady);
      ghost var once := playerActive[..];
      PlayerStatus(playerNum, isReady);
      assert playerActive[..] == once;
      ReadinessEdges(old(playerActive[..]), playerNum, isReady);
    }

    /**
     * countdownDone: the game starts with one new generator over the shared
     * catalogue, given to the ready slots only, and the first round begins.
     */
    method CountdownDone() returns (generator: StrikeGenerator)
      requires Valid()
      modifies this
      ensures Valid()
      ensures fresh(generator) && generator.Valid() && generator.sequences == []
      ensures generator.catalogue == catalogue && generator.numEasy == numEasy && generator.numMedium == numMedium
      ensures inGame && countdownTimeout == -1
      ensures timers == old(timers) && nextHandle == old(nextHandle)
      ensures fresh(playerPunching) && playerPunching[..] == playerActive[..]
      ensures outbox == old(outbox)
                        + [ Send(Player0Controller, StartGame(if playerActive[0] then Some(generator) else None)),
                            Send(Player1Controller, StartGame(if playerActive[1] then Some(generator) else None)) ]
                        + RoundOutputs(playerActive[..])
    {
      countdownTimeout := -1;
      inGame := true;
      generator := new StrikeGenerator(catalogue, numEasy, numMedium);
      var start0 := Send(Player0Controller, StartGame(if playerActive[0] then Some(generator) else None));
      var start1 := Send(Player1Controller, StartGame(if playerActive[1] then Some(generator) else None));
      outbox := outbox + [start0, start1];
      ghost var announced := outbox;
      SendNextSequence();
      assert outbox == announced + RoundOutputs(playerActive[..]);
    }

    /** sendNextSequence: in a game, every still-playing slot starts a sequence. */
    method SendNextSequence()
      requires Valid()
      modifies this
      ensures Valid()
      ensures inGame == old(inGame) && countdownTimeout == old(countdownTimeout)
      ensures timers == old(timers) && nextHandle == old(nextHandle)
      ensures !inGame ==> playerPunching == old(playerPunching) && outbox == old(outbox)
      ensures inGame ==>
                && fresh(playerPunching) && playerPunching[..] == playerActive[..]
                && outbox == old(outbox) + RoundOutputs(playerActive[..])
    {
      if inGame {
        outbox := outbox + [ShowText(StatusText, "Next Sequence")];
        var copy := new bool[2](i requires 0 <= i < 2 reads playerActive => playerActive[i]);
        playerPunching := copy;
        if playerActive[0] {
          outbox := outbox + [Send(Player0Controller, NextSequence)];
        }
        if playerActive[1] {
          outbox := outbox + [Send(Player1Controller, NextSequence)];
        }
      }
    }

    /**
     * sequenceDone: the slot has finished this round's sequence; once no slot
     * is still punching, the round is over and the next one is scheduled.
     */
    method SequenceDone(playerNum: Slot)
      requires Valid()
      modifies this, playerPunching
      ensures Valid()
      ensures playerPunching == old(playerPunching)
      ensures playerPunching[..] == old(playerPunching[..])[playerNum := false]
      ensures inGame == old(inGame) && countdownTimeout == old(countdownTimeout)
      ensures AnyReady(playerPunching[..]) ==>
                timers == old(timers) && nextHandle == old(nextHandle) && outbox == old(outbox)
      ensures !AnyReady(playerPunching[..]) ==>
                && timers == old(timers)[old(nextHandle) := Scheduled(ROUND_DELAY_MSEC, NextRound)]
                && nextHandle == old(nextHandle) + 1
                && outbox == old(outbox) + [ShowText(StatusText, "Round Over!"), Play(RoundSfx)]
    {
      playerPunching[playerNum] := false;
      if !playerPunching[0] && !playerPunching[1] {
        outbox := outbox + [ShowText(StatusText, "Round Over!"), Play(RoundSfx)];
        var _ := SetTimeout(ROUND_DELAY_MSEC, NextRound);
      }
    }

    /**
     * playerLost: the slot stops playing. Its punching flag is left set, so
     * the round it was in cannot end through it. With no slot left playing
     * the game is over and a reset is scheduled.
     */
    method PlayerLost(playerNum: Slot)
      requires Valid()
      modifies this, playerActive
      ensures Valid()
      ensures playerActive[..] == old(playerActive[..])[playerNum := false]
      ensures playerPunching == old(playerPunching) && unchanged(playerPunching)
      ensures inGame == old(inGame) && countdownTimeout == old(countdownTimeout)
      ensures AnyReady(playerActive[..]) ==>
                timers == old(timers) && nextHandle == old(nextHandle) && outbox == old(outbox)
      ensures !AnyReady(playerActive[..]) ==>
                && timers == old(timers)[old(nextHandle) := Scheduled(GAME_OVER_DELAY_MSEC, GameOverReset)]
                && nextHandle == old(nextHandle) + 1
                && outbox == old(outbox) + [ShowText(StatusText, "Game Over!")]
    {
      playerActive[playerNum] := false;
      var playersActive := playerActive[0] || playerActive[1];
      if !playersActive {
        outbox := outbox + [ShowText(StatusText, "Game Over!")];
        var _ := SetTimeout(GAME_OVER_DELAY_MSEC, GameOverReset);
      }
    }

    /**
     * A pending callback runs. The two resets broadcast resetGame (which the
     * caller delivers, to this game as well); the countdown returns the
     * generator it created.
     */
    method FireTimer(handle: int) returns (generator: Option<StrikeGenerator>)
      requires Valid() && handle in timers
      modifies this
      ensures Valid()
      ensures generator.Some? <==> old(timers)[handle].callback == Callback.CountdownDone
      ensures old(timers)[handle].callback in {InitialReset, GameOverReset} ==>
                && timers == old(timers) - {handle} && nextHandle == old(nextHandle)
                && inGame == old(inGame) && playerPunching == old(playerPunching)
                && countdownTimeout == old(countdownTimeout)
                && outbox == old(outbox) + [Broadcast(Msg.ResetGame)]
      ensures old(timers)[handle].callback == Callback.CountdownDone ==>
                && fresh(generator.value) && generator.value.Valid() && generator.value.sequences == []
                && inGame && countdownTimeout == -1
                && timers == old(timers) - {handle} && nextHandle == old(nextHandle)
                && fresh(playerPunching) && playerPunching[..] == playerActive[..]
                && outbox == old(outbox)
                   + [ Send(Player0Controller, StartGame(if playerActive[0] then generator else None)),
                       Send(Player1Controller, StartGame(if playerActive[1] then generator else None)) ]
                   + RoundOutputs(playerActive[..])
      ensures old(timers)[handle].callback == NextRound ==>
                && timers == old(timers) - {handle} && nextHandle == old(nextHandle)
                && inGame == old(inGame) && countdownTimeout == old(countdownTimeout)
                && (inGame ==> fresh(playerPunching) && playerPunching[..] == playerActive[..] && outbox == old(outbox) + RoundOutputs(playerActive[..]))
                && (!inGame ==> playerPunching == old(playerPunching) && outbox == old(outbox))
    {
      var callback := timers[handle].callback;
      timers := timers - {handle};
      generator := None;
      match callback
      case InitialReset =>
        outbox := outbox + [Broadcast(Msg.ResetGame)];
      case GameOverReset =>
        outbox := outbox + [Broadcast(Msg.ResetGame)];
      case CountdownDone =>
        var g := CountdownDone();
        generator := Some(g);
      case NextRound =>
        SendNextSequence();
    }
  }
}
