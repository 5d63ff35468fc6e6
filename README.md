# Strike game: a Dafny model

A two-player punch-reflex minigame. The game is built from these pieces:

- **StrikeGame** runs the match. Players step into one of two slots and report ready. A 10-second countdown then starts the game.
- **Strike sequences** are what each round serves every playing slot. A sequence is one to three named strikes (for example "left hook body" or "cross head").
- **The generator** hands out the sequences. It is a shuffle bag over three tiers (easy, medium, hard), drawing by position in the game.
- **The per-slot PlayerController** shows the strikes one at a time under a time budget that shrinks every sequence. A **CountdownTimer** counts that budget down.
- **Two StrikeDetectors** per slot, head and body, judge every punch as a hit or a miss.
- **PointsManager and GlobalPoints** do the scoring. PointsManager keeps a capped score with a streak multiplier and maintains stored high scores and leaderboards. GlobalPoints keeps an overall leaderboard entry: the sum of a player's stored high scores across games.

The model is imperative where the program is:

- Components are classes whose handlers are methods over the component's fields.
- Messages, sounds and text updates are appended to an `outbox` sequence.
- Pending `setTimeout` callbacks are explicit state that a step fires.
- The shared mutable arrays of the program are heap objects, so the model keeps their aliasing:
  - the catalogue's tier pools, which are the generator's working pools;
  - the template sequences, which are what is dealt and what `shift()` consumes.

Pure decision rules are functions with lemmas about them:

- strike names;
- the draw loop on values;
- tick outputs;
- detector judgement;
- score arithmetic;
- the global sum.

Two behaviours of the program as written are made explicit.

First, the generator's "refill" of an empty tier points the pool at the template array. That template array is the very pool that has just been emptied. So a tier that runs dry stays dry and later draws deal `undefined` (`ShuffleBag.TierRunsDry`). The catalogue is module-level state, so every later generator starts from the pools the previous ones left.

Second, both slots get one generator and ask it for the same index. They therefore share one sequence object. The slot that shows first consumes it, and the other slot then finds it shorter or empty (`Scenarios.SharedSequence`).

The game's own handlers also show two properties:

- the "nobody ready while in game" reset branch of `playerStatus` cannot run;
- a loss in the middle of a round leaves that slot's punching flag set, so the round can stay open for good (`Scenarios.StuckRound`). This happens on a loss by a wrong hit, or on a timeout with no strike display pending. A display callback still pending from an earlier hit is not cancelled by the loss: it runs on the emptied sequence, reports `sequenceDone` for the lost slot and so closes the round (`Player.PlayerController.FireDisplayTimer`).

## Model

| member | source | states |
|---|---|---|
| Strikes.CatalogueShape | StrikeSequences.ts:35-109 | the catalogue has 6 easy sequences of one strike, 6 medium of two and 5 hard of three |
| Strikes.StrikeName | StrikeSequences.ts:111-123 | a non-jab is named "hand punch target"; every name is longer than its target word and ends with a space and the target word |
| Strikes.JabName | StrikeSequences.ts:113-120 | a jab drops the hand word: "cross target" for the dominant hand (right and right-handed, or left and left-handed), "jab target" otherwise |
| Strikes.CrossExactlyForDominantJab | StrikeSequences.ts:113-120 | a name starts with "cross" if and only if the strike is a jab thrown with the dominant hand |
| Strikes.StrikeNameInjective | StrikeSequences.ts:111-123 | for a fixed handedness, two strikes with the same name are the same strike |
| ShuffleBag.TierOf | StrikeSequences.ts:137-158 | position k draws from easy iff k < numEasy, from medium iff numEasy <= k < numEasy + numMedium, from hard otherwise |
| ShuffleBag.PickIndex | StrikeSequences.ts:138 | floor(random * length) is a valid index into a non-empty pool and 0 for an empty one |
| ShuffleBag.Splice | StrikeSequences.ts:139 | splice(pick, 1)[0] yields the element at pick and the pool without it, the other elements in order; past the end it yields undefined and leaves the pool |
| ShuffleBag.DrawDeals | StrikeSequences.ts:137-143 | one draw appends exactly one entry and touches only the current tier's pool; an empty pool deals undefined; otherwise the picked element is dealt and removed, the pool's multiset shrinking by exactly it |
| ShuffleBag.DrawsAppend | StrikeSequences.ts:136 | a run of draws only appends: the dealt list grows by one per draw and its prefix is unchanged |
| ShuffleBag.DrawConserves | StrikeSequences.ts:138-139 | one draw moves a sequence from a pool to the dealt list: dealt plus pools is the same multiset before and after |
| ShuffleBag.DrawsConserve | StrikeSequences.ts:136-159 | the same conservation over any run of draws |
| ShuffleBag.NeverDealtTwice | StrikeSequences.ts:135-161 | if no sequence occurs twice in the dealt list and pools together, none is dealt twice by any run of draws |
| ShuffleBag.DrawsShrinkPools | StrikeSequences.ts:138-157 | pools only lose elements: every pool after a run is a sub-multiset of the pool before it, so the refill adds nothing |
| ShuffleBag.DrawsFromTier | StrikeSequences.ts:137-158 | every sequence dealt at position j was in the pool of tier TierOf(j) before the run |
| ShuffleBag.TierRunsDry | StrikeSequences.ts:140-143 | while draws stay in one tier, its pool shrinks to max(0, size - draws) and the draw at offset i deals a sequence iff i < size: after the refill, later draws deal undefined |
| ShuffleBag.DrawKeepsDistinct | StrikeSequences.ts:137-158 | a draw from a bag holding nothing twice leaves a bag, and pools, holding nothing twice |
| ShuffleBag.AtMostOnceDistinct | StrikeSequences.ts:135-161 | elements each held once are pairwise distinct (the converse of DistinctAtMostOnce) |
| ShuffleBag.DistinctAtMostOnce | StrikeSequences.ts:35-109 | a sequence of pairwise distinct elements holds each element once, so distinct template objects can start a bag |
| Sequences.StrikeSequence.Shift | StrikeGame.ts:335 | shift() removes and returns the front strike, or returns undefined and leaves an empty sequence |
| Sequences.SequencePool.SpliceOne | StrikeSequences.ts:139 | the in-place splice of a tier pool agrees with ShuffleBag.Splice on the old contents |
| Sequences.MakePool | StrikeSequences.ts:35-109 | a tier becomes one fresh, distinct sequence object per template, in order, with the template's strikes |
| Sequences.Catalogue.constructor | StrikeSequences.ts:35-109 | the three pools hold the easy, medium and hard templates, in order, as pairwise distinct objects; the catalogue is Valid, which every draw keeps: no template object sits twice in the pools |
| Sequences.StrikeGenerator.constructor | StrikeSequences.ts:125-133 | a generator starts with nothing dealt and its working pools are the catalogue's own pools |
| Sequences.StrikeGenerator.DrawOne | StrikeSequences.ts:137-158 | one loop iteration, including the refill re-pointing, changes the generator's state exactly as ShuffleBag.Draw and keeps every sequence object held at most once, dealt or pooled |
| Sequences.StrikeGenerator.Take | StrikeSequences.ts:137-158 | the statements of one iteration (splice, push, refill) leave the pools linked to the catalogue and the state equal to ShuffleBag.Draw of the old one |
| Sequences.StrikeGenerator.NeverDealsTwice | StrikeSequences.ts:135-161 | a generator never deals the same template object at two positions |
| Sequences.StrikeGenerator.DrawNext | StrikeSequences.ts:137-158 | a loop iteration extends a run of draws by one roll: the state after it is ShuffleBag.Draws over one more roll |
| Sequences.StrikeGenerator.GetNextSequence | StrikeSequences.ts:135-161 | the result is sequences[index]; sequences grows from n to max(n, index+1) by exactly the missing draws (ShuffleBag.Draws), the old prefix unchanged, so repeated calls with one index return the same object |
| Countdown.TickOutputs | StrikeGame.ts:406-415 | a tick plays the tick sound iff the remaining time is a multiple of 1000 and sends timerDone iff it is <= 0 |
| Countdown.TimerDoneOnce | StrikeGame.ts:403-416 | everything a started timer emits until its interval is cleared contains exactly one timerDone, and it is last |
| Countdown.TicksToDoneIsCeiling | StrikeGame.ts:404 | a positive budget of msec runs ceil(msec / 100) ticks (TickUntilDone counts exactly TicksToDone ticks) |
| Countdown.CountdownTimer.StartTimer | StrikeGame.ts:391-396 | startTimer takes the budget and mode and (re)starts the interval, emitting nothing |
| Countdown.CountdownTimer.StopTimer | StrikeGame.ts:398-401 | stopTimer clears the interval and never emits timerDone |
| Countdown.CountdownTimer.OnTick | StrikeGame.ts:403-416 | each tick takes exactly 100 off the remaining time, emits TickOutputs, and leaves the interval running iff time remains |
| Countdown.CountdownTimer.TickUntilDone | StrikeGame.ts:403-416 | a running interval left alone emits exactly RunToDone of the remaining time, over exactly TicksToDone of it ticks |
| Countdown.CountdownTimer.RunToCompletion | StrikeGame.ts:391-416 | a started timer left alone sends timerDone exactly once, as its last output, and stops, after ceil(msec / 100) ticks for a positive msec and one tick otherwise |
| Player.NextTimeout | StrikeGame.ts:327 | the next budget is never below minimum * 1000; above it, it is floor(budget * factor); it is the minimum only when floor(budget * factor) is at most the minimum |
| Player.TimeoutNeverGrows | StrikeGame.ts:327 | with a factor of at most 1, a budget at or above the minimum never grows |
| Player.TimeoutShrinks | StrikeGame.ts:327 | with a factor below 1, a budget above the minimum loses at least a millisecond per sequence |
| Player.TimeoutReachesMinimum | StrikeGame.ts:322-332 | with a factor below 1, after k sequences the budget is between the minimum and max(minimum, start - k), so it reaches the minimum |
| Player.DisplayOutputs | StrikeGame.ts:334-348 | a strike is forwarded to both detectors and no sequenceDone is sent; no strike left stops the timer and sends sequenceDone |
| Player.LostOutputs | StrikeGame.ts:307-320 | both detectors are cleared first; the game hears playerLost iff a generator was held |
| Player.PlayerController.constructor | StrikeGame.ts:194-215 | a slot starts empty, out of game, without a generator, with blank strike text |
| Player.PlayerController.ResetGame | StrikeGame.ts:217-228 | every session field returns to its initial value, the text is blanked and the handedness buttons hidden |
| Player.PlayerController.ShowHandednessButtons | StrikeGame.ts:269-277 | the buttons are offered to the slot's player only when shown and a player is present, otherwise hidden |
| Player.PlayerController.OnPlayerEnter | StrikeGame.ts:230-241 | an empty slot outside a game is claimed (right-handed, detectors owned, ready reported, buttons shown); otherwise only a popup |
| Player.PlayerController.OnPlayerExit | StrikeGame.ts:243-255 | other players are ignored; the slot's own player frees the slot and reports not-ready before the game or loses during it |
| Player.PlayerController.OnStartGameCountdown | StrikeGame.ts:257-261 | buttons offered and the clock started with seconds * 1000 in whole-second mode |
| Player.PlayerController.OnStopGameCountdown | StrikeGame.ts:263-267 | buttons hidden and the clock stopped |
| Player.PlayerController.OnPlayerHandedness | StrikeGame.ts:279-282 | buttons hidden and the handedness recorded, nothing else changed |
| Player.PlayerController.OnTimerDone | StrikeGame.ts:284-296 | running out of time in a game is a loss; in the countdown it only hides the buttons and plays the sound |
| Player.PlayerController.OnStartGame | StrikeGame.ts:298-305 | the generator (or none) is taken, the slot is in game, points and strike count are 0 and the budget is startTimeoutSecs * 1000 |
| Player.PlayerController.PlayerLost | StrikeGame.ts:307-320 | the generator is dropped; stopTimer and playerLost go out only while one was held, so at most once per game |
| Player.PlayerController.NextSequence | StrikeGame.ts:322-332 | without a generator nothing changes; otherwise the sequence at the old strike count is fetched (the generator advancing as ShuffleBag.Draws), the count goes up by one, the timer starts on the old budget, the budget becomes NextTimeout, and the shared sequence loses its front strike, which is displayed; no other template sequence changes |
| Player.PlayerController.StartSequence | StrikeGame.ts:324-328 | the steps of nextSequence after the fetch: count, timer on the old budget, NextTimeout, first display |
| Player.PlayerController.DisplayNextStrike | StrikeGame.ts:334-348 | exactly the front strike is removed in place and that same strike is what is shown and forwarded; an empty or missing sequence ends the slot's sequence |
| Player.PlayerController.OnDetectorHit | StrikeGame.ts:350-363 | both detectors cleared; a hit schedules one display callback, a miss is a loss |
| Player.PlayerController.FireDisplayTimer | StrikeGame.ts:356-358 | the scheduled callback displays the next strike |
| Game.ReadinessEdges | StrikeGame.ts:76-96 | a rising edge iff the first slot gets ready, a falling edge iff the last ready slot withdraws, and a repeated report is steady |
| Game.EdgeOutputs | StrikeGame.ts:83-96 | only an edge sends anything |
| Game.RoundOutputs | StrikeGame.ts:114-125 | nextSequence goes to a slot iff it is active |
| Game.StrikeGame.constructor | StrikeGame.ts:55-69 | nobody active or punching, no countdown, not in game, and the first resetGame broadcast pending after 1000 ms |
| Game.StrikeGame.SetTimeout | StrikeGame.ts:85 | a new callback gets a fresh handle that is never -1 and is not pending |
| Game.StrikeGame.ResetGame | StrikeGame.ts:71-74 | back to waiting; the slot flags are not touched |
| Game.StrikeGame.PlayerStatus | StrikeGame.ts:76-103 | ignored in game; otherwise the slot flag is set, a rising edge arms the countdown and sends startGameCountdown to both, a falling edge cancels it (countdownTimeout = -1) and sends stopGameCountdown, no edge sends nothing; the in-game reset branch is unreachable |
| Game.StrikeGame.OnPlayerReady | StrikeGame.ts:64-65 | the doubly registered listener has exactly the effect of one playerStatus call |
| Game.StrikeGame.CountdownDone | StrikeGame.ts:105-112 | one fresh generator with nothing dealt, given only to active slots; in game, countdown cleared, first round started |
| Game.StrikeGame.SendNextSequence | StrikeGame.ts:114-125 | outside a game nothing; in a game punching becomes a fresh copy of active and only active slots are messaged |
| Game.StrikeGame.SequenceDone | StrikeGame.ts:127-136 | the slot's punching flag is cleared; the next round is scheduled iff no slot is punching |
| Game.StrikeGame.PlayerLost | StrikeGame.ts:138-148 | only the active flag is cleared, punching untouched; game over and a reset are scheduled iff no slot is active |
| Game.StrikeGame.FireTimer | StrikeGame.ts:105-148 | a pending callback runs once and is removed, no new handle is taken: resets broadcast resetGame, the countdown starts the game, a round timer starts the next round with the countdown handle kept |
| Detector.ExpectedTrigger | StrikeDetector.ts:125-136 | every strike has a known expected trigger |
| Detector.ExpectedTriggerOfPunch | StrikeDetector.ts:104-136 | the expected trigger stands for the strike's punch (jab centre, hook side, uppercut bottom), and two strikes share it iff same punch and, for hooks, same hand |
| Detector.JudgementHitIff | StrikeDetector.ts:124-164 | a hit iff the strike's target is the detector's, the entered trigger is the expected one and the hand is within reach; a verdict on every known trigger, none on an unknown one |
| Detector.AtMostOneVerdictPerStrike | StrikeDetector.ts:99-101 | over any run of inputs, verdicts plus a strike still pending never exceed the strikes sent plus one pending at the start |
| Detector.TriggerEnterJudges | StrikeDetector.ts:93-169 | with a pending strike and a non-server local player, a trigger-enter clears the strike, first tells the peer to clear, then reports exactly the judgement on a known trigger and nothing on an unknown one |
| Detector.StrikeDetector.DetectorStrikeType | StrikeDetector.ts:74-78 | the new strike replaces the pending one |
| Detector.StrikeDetector.DetectorClearStrike | StrikeDetector.ts:53 | the pending strike is dropped |
| Detector.StrikeDetector.DetectorClearPeer | StrikeDetector.ts:54 | the pending strike is dropped |
| Detector.StrikeDetector.OnTriggerEnter | StrikeDetector.ts:93-169 | the handler does exactly Step: clear-peer always, then judge and consume a pending strike unless the local player is the server |
| Detector.EnterAndClearPeer | StrikeDetector.ts:98 | after a trigger-enter and delivery of its clear-peer, the peer holds no strike, nor does the entered detector unless the local player is the server |
| Storage.PersistentStorage.Set | PointsManager.ts:85 | a write changes that one player variable and no other |
| Points.Merge | PointsManager.ts:40-46 | for each of the six options, a given value overrides the default and an absent one keeps it |
| Points.BoundsKept | PointsManager.ts:49-80 | with non-negative win points, lose points and multiplier and maxLose <= 0 <= maxWin, maxLose <= points <= maxWin holds initially and after win, lose and reset |
| Points.StreakAfterWins | PointsManager.ts:49-61 | after k wins in a row the streak is k, the factor is the multiplier iff k >= 1 and k >= threshold, and under the cap the points are the uncapped sum in which the threshold win still scores at factor 1 |
| Points.DemoSixWins | PointsDemo.ts:28-33 | with win points 2, threshold 5 and multiplier 3, six wins score 2, 4, 6, 8, 10, 16 |
| Points.StoredIsBest | PointsManager.ts:82-87 | without a high-score reset the stored high score is the best of its old value and every score reached, never decreasing |
| Points.PointsManager.constructor | PointsManager.ts:35-47 | the options are the defaults overridden by the given ones; the score starts at 0, streak 0, factor 1 |
| Points.PointsManager.RecordScore | PointsManager.ts:82-89 | the store is written, and highScoreUpdate broadcast, iff reset is asked or the score beats the stored one; the leaderboard always gets the score with override = reset |
| Points.PointsManager.Win | PointsManager.ts:49-61 | the score follows WinScore and is recorded without reset |
| Points.PointsManager.Lose | PointsManager.ts:63-72 | the score follows LoseScore and is recorded without reset |
| Points.PointsManager.Reset | PointsManager.ts:74-80 | the score starts over, 0 is returned and recorded with the given reset flag |
| Global.NonEmpty | GlobalPoints.ts:23-32 | the kept keys are exactly the non-empty configured ones, none added; a single key is kept exactly when it is set |
| Global.NonEmptyAppend | GlobalPoints.ts:23-32 | the kept keys of a concatenation are the kept keys of each part in turn, so the configured order is kept |
| Global.ReduceIsSum | GlobalPoints.ts:37-39 | the fold from a starting total is that total plus the sum of the player's stored values; with no keys, 0 |
| Global.UnwrittenKeysAddNothing | GlobalPoints.ts:37-38 | keys never written read as 0 and add nothing to the total |
| Global.GlobalPoints.Start | GlobalPoints.ts:21-33 | the non-empty keys are appended in game order |
| Global.GlobalPoints.OnHighScoreUpdate | GlobalPoints.ts:35-41 | the overall leaderboard entry is set to the player's sum over the kept keys, always with override true |
| Scenarios.StartRound | StrikeGame.ts:75-125 | both slots reporting ready and the countdown firing start a game with both slots active and punching and no callback pending |
| Scenarios.StuckRound | StrikeGame.ts:138-140 | a loss mid-round, with no display callback of the lost slot pending, leaves that slot punching: the other slot finishing schedules nothing, and no game callback is left pending |
| Scenarios.SharedSequence | StrikeGame.ts:108-110 | both slots get the same sequence object; after the first shows its only strike, the second reports sequenceDone without a strike |

## Left out

- HandednessButton (StrikeGame.ts:421-458): button visibility, collision and the player-identity guard are presentation; the model records the getPlayerHandedness/hideButton messages only.
- StrikeDetector velocity tracking and the commented-out speed gate: floating-point vector maths; the hand-to-trigger distance test is the boolean `withinReach` input.
- Trigger ownership transfer and the 1000 ms delay before the trigger listeners are wired: host platform behaviour; the model's detectors listen from the start.
- Detector ring visibility, the clock text and its `toFixed` formatting, popup duration and console logging: display only.
- Detector.StrikeDetector.OnTriggerEnter: does not model which ring is lit for one second.
- Countdown.CountdownTimer.OnTick: does not model the clock text or its one-second blanking after timerDone.
- Player.PlayerController.PlayerLost: does not model the 5-second callback that blanks the "You Lost!" text.
- Wall-clock time: setTimeout/setInterval delays are kept as numbers on pending callbacks, which the caller fires in any order it chooses.
- Math.random: each draw takes a caller-supplied roll in [0, 1).
- timeoutReductionFactor: a rational num/den with floor division instead of a floating-point factor; startTimeoutSecs, minimumTimeoutSecs and all point options are integers.
- Player identities are natural numbers; the server player is a distinct owner value and "local player is the server" is an input of the detector.
- The persistent store and leaderboards are a map defaulting to 0 and SetScore outputs; v1.d.ts, the platform API, is not part of this model.
- Points.Merge: a key passed explicitly as `undefined` overrides its default with `undefined` in the object spread; `PartialOptions` cannot express that, so such a key keeps its default here.
- PointsDemo.ts: button and UI glue; only its option values are used, in Points.DemoSixWins.
- Message delivery between components is done by the caller: handlers append to their outbox and the scenarios pass messages on by hand.
