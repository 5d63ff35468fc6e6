/**
 * Runs of the game and the player controllers wired together, with messages
 * delivered by hand. They exhibit two consequences of how StrikeGame.ts
 * shares state: a loss in the middle of a round can leave the round open for
 * good, and the two slots are served the same sequence object.
 */
module Scenarios {
  import opened Wrappers
  import opened Strikes
  import opened ShuffleBag
  import opened Sequences
  import opened Events
  import opened Game
  import opened Player

  /**
   * Both slots get ready, the countdown runs out and the first round starts.
   * Slot 0 loses mid-round and slot 1 finishes its sequence: slot 0 is still
   * marked punching, so no next round is scheduled, and slot 1 is still
   * active, so no game over either. No game callback is pending any more. The
   * round stays open for good when the loss came from a wrong hit, or from a
   * timeout with no display callback of slot 0 pending. A display callback
   * left pending by an earlier hit would still report slot 0's sequence done
   * and let the next round start.
   */
  method StuckRound(catalogue: Catalogue) returns (game: StrikeGame)
    requires catalogue.Valid()
    ensures game.inGame
    ensures game.playerActive[..] == [false, true]
    ensures game.playerPunching[..] == [true, false]
    ensures game.timers == map[]
  {
    game := StartRound(catalogue);
    game.PlayerLost(0);
    game.SequenceDone(1);
  }

  /** Both slots get ready and the countdown runs out: the first round is on for both. */
  method StartRound(catalogue: Catalogue) returns (game: StrikeGame)
    requires catalogue.Valid()
    ensures fresh(game) && fresh(game.playerActive) && fresh(game.playerPunching)
    ensures game.Valid() && game.inGame
    ensures game.playerActive[..] == [true, true]
    ensures game.playerPunching[..] == [true, true]
    ensures game.timers == map[]
  {
    game := new StrikeGame(catalogue, 5, 5);
    var _ := game.FireTimer(1);
    game.OnPlayerReady(0, true);
    game.OnPlayerReady(1, true);
    assert game.timers == map[2 := Scheduled(COUNTDOWN_DELAY_MSEC, Callback.CountdownDone)];
    var _ := game.FireTimer(2);
  }

  /** Two controllers over a fresh catalogue, both started with the same new generator. */
  method StartBoth() returns (catalogue: Catalogue, generator: StrikeGenerator,
                              first: PlayerController, second: PlayerController)
    ensures fresh(catalogue) && fresh(generator) && fresh(first) && fresh(second)
    ensures fresh(catalogue.easy) && fresh(catalogue.medium) && fresh(catalogue.hard)
    ensures forall s | s in catalogue.templates :: fresh(s)
    ensures first != second && first.playerNum == 0 && second.playerNum == 1
    ensures first.Valid() && second.Valid()
    ensures first.catalogue == catalogue && second.catalogue == catalogue
    ensures first.strikeGenerator == Some(generator) && second.strikeGenerator == Some(generator)
    ensures first.strikeCount == 0 && second.strikeCount == 0
    ensures generator.sequences == [] && generator.numEasy == 5 && generator.numMedium == 5
    ensures |catalogue.easy.items| == 6
    ensures forall i | 0 <= i < 6 :: |catalogue.easy.items[i].strikes| == 1
  {
    catalogue := new Catalogue();
    generator := new StrikeGenerator(catalogue, 5, 5);
    first := new PlayerController(catalogue, 0, 10, 9, 10, 1);
    second := new PlayerController(catalogue, 1, 10, 9, 10, 1);
    first.OnStartGame(Some(generator));
    second.OnStartGame(Some(generator));
  }

  /** The first slot is dealt an easy one-strike sequence and shows its strike, emptying it. */
  method ServeFirst(catalogue: Catalogue, generator: StrikeGenerator, first: PlayerController, rolls: seq<real>)
    returns (dealt: StrikeSequence)
    requires ValidRolls(rolls) && |rolls| >= 1
    requires first.Valid() && first.catalogue == catalogue
    requires first.strikeGenerator == Some(generator) && first.strikeCount == 0
    requires generator.sequences == [] && generator.numEasy == 5 && generator.numMedium == 5
    requires |catalogue.easy.items| == 6
    requires forall i | 0 <= i < 6 :: |catalogue.easy.items[i].strikes| == 1
    modifies first, catalogue.easy, catalogue.medium, catalogue.hard, catalogue.templates, generator
    ensures first.Valid() && first.strikeGenerator == Some(generator)
    ensures first.currentSequence == Some(dealt) && dealt.strikes == []
    ensures |generator.sequences| >= 1 && generator.sequences[0] == Some(dealt)
    ensures exists strike :: Send(HeadDetector, DetectorStrikeType(strike)) in first.outbox
  {
    ghost var start := generator.State();
    var pick := PickIndex(rolls[0], 6);
    dealt := catalogue.easy.items[pick];
    FirstDrawIsEasy(start, rolls, 5, 5);
    ghost var before := dealt.strikes;
    first.NextSequence(rolls);
    assert first.currentSequence == Some(dealt);
    ghost var strike := before[0];
    assert Front(before) == Some(strike);
    assert Send(HeadDetector, DetectorStrikeType(strike)) in first.outbox;
  }

  /** The first draw of a fresh generator with an easy tier takes the picked easy sequence. */
  lemma FirstDrawIsEasy<T>(b: Bag<T>, rolls: seq<real>, numEasy: int, numMedium: int)
    requires ValidRolls(rolls) && |rolls| >= 1
    requires b.dealt == [] && numEasy > 0 && b.easy != []
    ensures Draws(b, rolls[..1], numEasy, numMedium).dealt == [Some(b.easy[PickIndex(rolls[0], |b.easy|)])]
  {
    DrawDeals(b, rolls[0], numEasy, numMedium);
    assert rolls[..1][..0] == [];
  }

  /**
   * Both slots are handed the one generator and ask it for index 0. The first
   * slot is dealt an easy sequence of one strike and shows it, taking it off
   * the shared template; the second slot is given that same, now empty,
   * sequence and reports it done at once, without a strike to throw.
   */
  method SharedSequence(rolls: seq<real>) returns (first: PlayerController, second: PlayerController)
    requires ValidRolls(rolls) && |rolls| >= 1
    ensures first.currentSequence.Some? && first.currentSequence == second.currentSequence
    ensures first.currentSequence.value.strikes == []
    ensures exists strike :: Send(HeadDetector, DetectorStrikeType(strike)) in first.outbox
    ensures Send(Game, SequenceDone(1)) in second.outbox
  {
    var catalogue, generator;
    catalogue, generator, first, second := StartBoth();
    ghost var waiting := second.Snap();
    var dealt := ServeFirst(catalogue, generator, first, rolls);
    assert second.Snap() == waiting;
    assert generator.DrawsNeeded(0) == 0;
    ghost var served := first.Snap();
    ghost var shown := first.outbox;
    second.NextSequence(rolls);
    assert first.Snap() == served && first.outbox == shown;
    assert second.currentSequence == Some(dealt);
  }
}
