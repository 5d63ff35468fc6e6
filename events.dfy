/**
 * The messages the components of StrikeGame.ts exchange and the other
 * effects they request from the host (text, sound, ownership, popups,
 * leaderboard writes). Every component appends what it sends to an output
 * log instead of delivering it.
 */
module Events {
  import opened Wrappers
  import opened Strikes
  import opened Sequences

  /** A player, by identity. */
  type PlayerId = nat

  /** One of the two player slots (the `playerNum` property). */
  type Slot = n: nat | n < 2

  datatype Msg =
    | ResetGame
    | PlayerReady(playerNum: Slot, isReady: bool)
    | StartGameCountdown(seconds: int)
    | StopGameCountdown
    | GetPlayerHandedness(player: PlayerId)
    | HideButton
    | PlayerHandedness(isRightHanded: bool)
    | StartGame(strikeGenerator: Option<StrikeGenerator>)
    | NextSequence
    | SequenceDone(playerNum: Slot)
    | PlayerLost(playerNum: Slot)
    | StartTimer(msec: int, wholeSeconds: bool)
    | StopTimer
    | TimerDone
    | DetectorStrikeType(strike: StrikeType)
    | DetectorClearStrike
    | DetectorClearPeer
    | DetectorHit(isHit: bool)
    | HighScoreUpdate(player: PlayerId)

  /** The entity a message goes to, named as the sender's property names it. */
  datatype Addressee =
    | Player0Controller | Player1Controller   // StrikeGame's controllers
    | Game | Timer | HeadDetector | BodyDetector | LeftButton | RightButton   // a PlayerController's
    | PlayerController                        // a CountdownTimer's or a StrikeDetector's
    | DetectorPeer                            // a StrikeDetector's

  datatype Sound = RoundSfx | TickSfx | TimerDoneSfx | BuzzerSfx

  datatype TextDisplay = StatusText | StrikeText

  datatype Owner = OwnedBy(player: PlayerId) | ServerPlayer

  datatype Output =
    | Send(to: Addressee, msg: Msg)
    | Broadcast(msg: Msg)
    | Play(sound: Sound)
    | ShowText(display: TextDisplay, text: string)
    | SetOwner(detector: Addressee, owner: Owner)
    | Popup(player: PlayerId, text: string)
    | SetScore(leaderboard: string, player: PlayerId, score: int, overridePrevious: bool)
}
