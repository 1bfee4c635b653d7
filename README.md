# DistractionDodge in Dafny

DistractionDodge is a tap-the-target focus game. It has two parts:

- **The Swift app.** A session shows waves of shapes. The player taps the current target shape and avoids the decoys. A correct tap scores a point and rotates the target. A wrong tap costs a life and can end the game. A "ninja calm meter" follows how steady the player is. Best scores are kept per session length and difficulty, next to lifetime counters.
- **The web demo.** A 30-second round like the app's. Seven shapes are scattered on a canvas, and exactly one of them is the target. Every tap on a shape counts as a hit or a miss, then the field is rebuilt.

This project models that core and proves its properties. It has these modules:

- `GameConfig` (`game_config.dfy`): the shape kinds and their decoys, the session lengths, the difficulty tiers with their spawn-interval, lifespan and decoy-count ramps, the star thresholds and the session configuration.
- `CalmMeter` (`calm_meter.dfy`): the calm meter's steps as functions, the `NinjaCalmMeter` class whose value is always the replay of the events recorded on it, and its tier.
- `Scene` (`game_scene.dfy`): the `GameScene` class. It covers:
  - the frame update, which ends the game or spawns a wave;
  - building the wave;
  - the touch guard and tap handling;
  - target rotation;
  - the game over, which happens once;
  - the test-support tap.
- `Progress` (`player_progress.dfy`): the `PlayerProgress` class over a string-keyed integer store. It includes the exact best-score key `bs_dur<seconds>_dif<raw>`, which is proved injective.
- `Demo` (`demo.dfy`): the web demo as a `DemoGame` class. It covers:
  - the accuracy percentage, `rand` and `randInt`, and hit testing;
  - the type list;
  - the in-place Fisher–Yates shuffle on an `array`;
  - target assignment, size and colour;
  - the position retry loop;
  - the timers and input handling.
- `Sequences` and `Wrappers`: list facts (filtering, distinctness, permutations) and `Option`.

Randomness is passed in rather than drawn:

- In the Swift scene, the first target, the decoy shuffle, the spawn positions and the rotation choice are parameters.
- In the web demo, `Math.random()` is a stream `random: nat -> Unit` of values in [0, 1), read through a draw counter. Every random choice is therefore the stream's value at a known position. The shuffle and the placement are proved against functions of that stream.

Two facts about the code shape the model:

- A wave's decoys come from `decoys().shuffled().prefix(n)`, so no two share a kind and none is the target's kind.
- A wrong tap that loses the last life ends the game in that same tap (`GameScene.swift:218`).

## Model

| member | source | states |
|---|---|---|
| GameConfig.Decoys | Sources/DistractionDodge/Models/GameConfig.swift:30-33 | the decoys of a kind: every kind of `allCases` except itself, in order (its three properties are GameConfig.DecoysListed and GameConfig.DecoysSpec) |
| GameConfig.DecoysListed | Sources/DistractionDodge/Models/GameConfig.swift:30-33 | the decoys of each kind are the other three kinds, in declaration order |
| GameConfig.DecoysSpec | Sources/DistractionDodge/Models/GameConfig.swift:30-33 | a kind has exactly three decoys; they are distinct; it is not among them and every other kind is |
| GameConfig.Duration.Seconds | Sources/DistractionDodge/Models/GameConfig.swift:142-145 | the raw value of a session length is positive and a multiple of 30 seconds |
| Sequences.WithoutSpec | Sources/DistractionDodge/Models/GameConfig.swift:32 | filtering out k keeps exactly the elements other than k, drops one per copy of k, and keeps a list without repeats without repeats |
| Sequences.PermutationKeepsDistinct | Sources/DistractionDodge/Game/GameScene.swift:159 | a rearrangement of a list without repeats has no repeats |
| GameConfig.ShuffledDecoys | Sources/DistractionDodge/Game/GameScene.swift:159 | a list is a rearrangement of a kind's decoys exactly when it has three entries, no repeats and not the kind (both directions) |
| GameConfig.PermutedDecoysAreAShuffle | Sources/DistractionDodge/Game/GameScene.swift:159 | any rearrangement of a kind's decoys has three entries, no repeats and not the kind |
| GameConfig.ShuffleRearrangesDecoys | Sources/DistractionDodge/Game/GameScene.swift:159 | three distinct kinds other than k are a rearrangement of k's decoys |
| Sequences.ThreeRearranged | Sources/DistractionDodge/Game/GameScene.swift:159 | two three-element lists without repeats whose entries all occur in the other list hold the same elements with the same counts |
| GameConfig.Difficulty.RawValue | Sources/DistractionDodge/Models/GameConfig.swift:38-41 | the stored raw value of a difficulty: 0 easy, 1 normal, 2 hard (it keys the best scores) |
| GameConfig.Difficulty.InitialSpawnInterval | Sources/DistractionDodge/Models/GameConfig.swift:52-58 | seconds between waves at the start: 1.8 easy, 1.3 normal, 0.9 hard |
| GameConfig.Difficulty.SpawnRamp | Sources/DistractionDodge/Models/GameConfig.swift:60-66 | how far the spawn interval falls over a session: 0.6, 0.9, 0.5 |
| GameConfig.Difficulty.MinSpawnInterval | Sources/DistractionDodge/Models/GameConfig.swift:68-74 | the floor of the spawn interval: 0.9, 0.5, 0.3 |
| GameConfig.Difficulty.InitialLifespan | Sources/DistractionDodge/Models/GameConfig.swift:76-82 | the lifespan of a shape at the start: 3.2, 2.5, 1.8 seconds |
| GameConfig.Difficulty.LifespanRamp | Sources/DistractionDodge/Models/GameConfig.swift:84-90 | how far the lifespan falls over a session: 0.8, 1.4, 0.6 |
| GameConfig.Difficulty.MinLifespan | Sources/DistractionDodge/Models/GameConfig.swift:92-98 | the floor of the lifespan: 2.0, 1.0, 0.8 |
| GameConfig.Difficulty.SpawnInterval | Sources/DistractionDodge/Models/GameConfig.swift:110-113 | the spawn interval never drops below the difficulty's minimum (its ramp is GameConfig.SpawnIntervalBounds and GameConfig.SpawnIntervalNonIncreasing) |
| GameConfig.SpawnIntervalBounds | Sources/DistractionDodge/Models/GameConfig.swift:110-113 | the spawn interval is never below the difficulty's floor and, from the start of a session on, never above its starting value |
| GameConfig.SpawnIntervalNonIncreasing | Sources/DistractionDodge/Models/GameConfig.swift:110-113 | later in a session the spawn interval is no longer |
| GameConfig.SpawnIntervalRampsDown | Tests/DistractionDodgeTests/DistractionDodgeTests.swift:68-73 | normal difficulty on 60 s: 1.3 s at the start, the 0.5 s floor at 55 s, so late is shorter than early |
| GameConfig.Difficulty.Lifespan | Sources/DistractionDodge/Models/GameConfig.swift:115-118 | a new shape never lives less than the difficulty's minimum lifespan (its ramp is GameConfig.LifespanBounds and GameConfig.LifespanNonIncreasing) |
| GameConfig.LifespanBounds | Sources/DistractionDodge/Models/GameConfig.swift:115-118 | the lifespan is never below the floor and, from the start on, never above the starting lifespan |
| GameConfig.LifespanNonIncreasing | Sources/DistractionDodge/Models/GameConfig.swift:115-118 | later in a session shapes live no longer |
| GameConfig.LifespanSettles | Sources/DistractionDodge/Models/GameConfig.swift:116-117 | past the session length the progress is clamped: the lifespan is the start minus the whole ramp, above the floor |
| GameConfig.Difficulty.DecoyCount | Sources/DistractionDodge/Models/GameConfig.swift:101-108 | a wave has one to three decoys (per difficulty in GameConfig.DecoyCountRange) |
| GameConfig.DecoyCountRange | Sources/DistractionDodge/Models/GameConfig.swift:101-108 | easy draws 1–2 decoys, normal 1–3, hard 2–3; never more than a target has decoy kinds |
| GameConfig.DecoyCountNonDecreasing | Sources/DistractionDodge/Models/GameConfig.swift:101-108 | later in a session a wave has at least as many decoys |
| GameConfig.Difficulty.StarThresholds | Sources/DistractionDodge/Models/GameConfig.swift:120-127 | the one-, two- and three-star thresholds are positive and strictly increasing |
| GameConfig.StarThresholdsOrdered | Sources/DistractionDodge/Models/GameConfig.swift:120-127 | the one-, two- and three-star thresholds are positive, ordered, and at most one tap per second of the session |
| GameConfig.NormalClassicThresholds | Tests/DistractionDodgeTests/DistractionDodgeTests.swift:75-81 | normal on 60 s has thresholds 12, 24, 42; score 0 earns 0 stars and 100 earns 3 |
| GameConfig.Difficulty.Stars | Sources/DistractionDodge/Models/GameConfig.swift:129-137 | a score earns 0 to 3 stars (which ones in GameConfig.StarsCharacterised) |
| GameConfig.StarsCharacterised | Sources/DistractionDodge/Models/GameConfig.swift:129-137 | 0 to 3 stars, and at least n stars exactly when the score reaches the n-th threshold |
| GameConfig.StarsMonotone | Sources/DistractionDodge/Models/GameConfig.swift:129-137 | a higher score never earns fewer stars |
| CalmMeter.Hit | Sources/DistractionDodge/Models/GameConfig.swift:178 | a hit never leaves the meter above 100 and never lowers it |
| CalmMeter.Miss | Sources/DistractionDodge/Models/GameConfig.swift:179 | a miss never leaves the meter below 0 and never raises it |
| CalmMeter.WrongTap | Sources/DistractionDodge/Models/GameConfig.swift:180 | a wrong tap never leaves the meter below 0 and costs at least as much as a miss |
| CalmMeter.Replay | Sources/DistractionDodge/Models/GameConfig.swift:176-180 | the meter reached by recording events in order, one step each (bounded by CalmMeter.ReplayInRange, composed by CalmMeter.ReplayAppend) |
| CalmMeter.TierOf | Sources/DistractionDodge/Models/GameConfig.swift:182-190 | the tier is in 0..4 and, on a non-negative value, its twentieth capped at 4 |
| CalmMeter.TierMonotone | Sources/DistractionDodge/Models/GameConfig.swift:182-190 | a calmer value never has a lower tier |
| CalmMeter.NinjaCalmMeter.Tier | Sources/DistractionDodge/Models/GameConfig.swift:182-190 | the meter's tier is in 0..4 and, on a non-negative value, its twentieth capped at 4 |
| CalmMeter.StepInRange | Sources/DistractionDodge/Models/GameConfig.swift:178-180 | a hit, miss or wrong tap keeps the meter within [0, 100] |
| CalmMeter.ReplayInRange | Sources/DistractionDodge/Models/GameConfig.swift:176-180 | any sequence of events from a value in range stays within [0, 100] |
| CalmMeter.ReplayAppend | Sources/DistractionDodge/Models/GameConfig.swift:178-180 | recording a then b is recording a + b |
| CalmMeter.RepeatedHits | Sources/DistractionDodge/Models/GameConfig.swift:178 | n hits raise the meter by 8n, capped at 100 |
| CalmMeter.RepeatedWrongTaps | Sources/DistractionDodge/Models/GameConfig.swift:180 | n wrong taps lower the meter by 12n, floored at 0 |
| CalmMeter.NinjaCalmMeter.constructor | Sources/DistractionDodge/Models/GameConfig.swift:176 | a new meter reads 50 with nothing recorded |
| CalmMeter.NinjaCalmMeter.RecordHit | Sources/DistractionDodge/Models/GameConfig.swift:178 | the value becomes min(100, v + 8), the hit is appended to the history, and the meter stays in range |
| CalmMeter.NinjaCalmMeter.RecordMiss | Sources/DistractionDodge/Models/GameConfig.swift:179 | the value becomes max(0, v - 5), the miss is appended, and the meter stays in range |
| CalmMeter.NinjaCalmMeter.RecordWrongTap | Sources/DistractionDodge/Models/GameConfig.swift:180 | the value becomes max(0, v - 12), the wrong tap is appended, and the meter stays in range |
| CalmMeter.InitialValue | Tests/DistractionDodgeTests/DistractionDodgeTests.swift:10-15 | a new meter is 50, tier 2 |
| CalmMeter.HitRaisesValue | Tests/DistractionDodgeTests/DistractionDodgeTests.swift:17-25 | three hits give 74, tier 3 |
| CalmMeter.WrongTapLowersValue | Tests/DistractionDodgeTests/DistractionDodgeTests.swift:27-35 | three wrong taps give 14, tier 0 |
| CalmMeter.Clamping | Tests/DistractionDodgeTests/DistractionDodgeTests.swift:37-45 | twenty hits reach 100; twenty wrong taps after that reach 0 |
| Scene.Accuracy | Sources/DistractionDodge/Game/GameScene.swift:302 | the share of taps that were correct, 1 before any tap (its bounds are Scene.AccuracyBounds) |
| Scene.AccuracyBounds | Sources/DistractionDodge/Game/GameScene.swift:302 | the reported accuracy is in [0, 1], and is 1 exactly when no tap was wrong |
| Scene.AfterTap | Sources/DistractionDodge/Game/GameScene.swift:196-219 | the counters after one tap (what changes is Scene.AfterTapCounts, when the game ends is Scene.AfterTapEndsOnLastLife) |
| Scene.AfterTapCounts | Sources/DistractionDodge/Game/GameScene.swift:196-221 | a tap counts once; a target scores and leaves lives and game state alone; any other shape costs exactly one life; the counters stay consistent and the meter moves the right way |
| Scene.AfterTapEndsOnLastLife | Sources/DistractionDodge/Game/GameScene.swift:210-218 | the game is over after a tap iff it was over before, or the tap was wrong with at most one life left; it never resumes |
| Scene.GuardedTapKeepsLives | Sources/DistractionDodge/Game/GameScene.swift:184-218 | a tap on a running game with lives left never leaves negative lives, or zero lives with the game still running |
| Scene.DecoyCountFits | Sources/DistractionDodge/Game/GameScene.swift:157-159 | the decoy count of any point of a session fits inside a shuffle of the target's three decoys |
| Scene.AsDecoyNodes | Sources/DistractionDodge/Game/GameScene.swift:162 | one non-target node per decoy kind, in order |
| Scene.WaveDecoysDistinct | Sources/DistractionDodge/Game/GameScene.swift:159-162 | the decoys of a wave are not the target and no two share a kind |
| Scene.GameScene.constructor | Sources/DistractionDodge/Game/GameScene.swift:33-39 | lives come from the configuration; counters 0; meter 50; the first target is the one drawn |
| Scene.GameScene.TriggerGameOver | Sources/DistractionDodge/Game/GameScene.swift:290-328 | the first call sets the game over and reports (score, accuracy); later calls report nothing; nothing else changes |
| Scene.GameScene.SpawnWave | Sources/DistractionDodge/Game/GameScene.swift:156-179 | given a shuffle of the current target's decoys: the wave is the current target then the first decoyCount shuffled decoys, all with the lifespan for elapsed; the decoys are non-targets, none of the target's kind, no two of one kind; each shape sits at its drawn position inside the spawn area |
| Scene.GameScene.SpawnShape | Sources/DistractionDodge/Game/GameScene.swift:169-179 | a shape is placed at its drawn point with its lifespan, inside the spawn area when the point is |
| Scene.GameScene.SpawnIfDue | Sources/DistractionDodge/Game/GameScene.swift:147-151 | a wave is spawned iff the spawn interval has passed since the last one, and only then is the last spawn time moved; a spawned wave is the one SpawnWave builds, with distinct decoys other than the target |
| Scene.GameScene.Update | Sources/DistractionDodge/Game/GameScene.swift:130-152 | after game over: nothing. Otherwise: the start time is latched on the first frame; time used up or no lives left ends the game with a report; otherwise a wave is spawned exactly when it is due, with distinct decoys other than the target; taps and lives untouched |
| Scene.GameScene.HandleTap | Sources/DistractionDodge/Game/GameScene.swift:196-221 | the counters become AfterTap of the old ones, and a report is given exactly when this tap ended the game |
| Scene.GameScene.TouchesBegan | Sources/DistractionDodge/Game/GameScene.swift:183-194 | after game over, or with no shape under the touch, nothing changes; otherwise the shape is tapped; the lives guard is kept |
| Scene.GameScene.RotateTarget | Sources/DistractionDodge/Game/GameScene.swift:223-229 | after game over the target stays; otherwise it becomes the chosen one of the other three kinds, so it changes iff the game runs |
| Scene.RotationReachesEveryOtherKind | Sources/DistractionDodge/Game/GameScene.swift:226-227 | every kind other than the current target is one of the rotation's choices |
| Scene.GameScene.SimulateTap | Sources/DistractionDodge/Game/GameScene.swift:332-337 | a tap without the touch guard: the same counter change as HandleTap, even after game over |
| Scene.FirstFrameSpawns | Sources/DistractionDodge/Game/GameScene.swift:130-167 | an easy 30 s session's first frame spawns the target with one decoy |
| Scene.FrameAfterGameOverHalts | Sources/DistractionDodge/Game/GameScene.swift:131 | after game over a frame halts and a second game over reports nothing |
| Scene.TouchAfterGameOverIgnored | Sources/DistractionDodge/Game/GameScene.swift:184 | after game over a touch on the target scores nothing |
| Scene.EmptyTouchIsFree | Sources/DistractionDodge/Game/GameScene.swift:190-193 | a touch on empty space counts no tap and costs no life |
| Scene.SimulatedTapsBypassGuard | Sources/DistractionDodge/Game/GameScene.swift:332-337 | with one life, two simulated wrong taps end at -1 lives, game over |
| Progress.Decimal | Sources/DistractionDodge/Models/PlayerProgress.swift:45 | the decimal text is non-empty digits, one digit exactly below 10, and ends in the last digit |
| Progress.DecimalInjective | Sources/DistractionDodge/Models/PlayerProgress.swift:45 | different numbers have different decimal texts |
| Progress.SplitAtSeparator | Sources/DistractionDodge/Models/PlayerProgress.swift:45 | `<digits>_dif<rest>` determines both the digits and the rest |
| Progress.BestScoreKey | Sources/DistractionDodge/Models/PlayerProgress.swift:44-46 | the key of a configuration starts with `bs_dur` (that it tells configurations apart is Progress.BestScoreKeyInjective) |
| Progress.BestScoreKeyInjective | Sources/DistractionDodge/Models/PlayerProgress.swift:44-46 | two configurations share a best-score key exactly when they have the same duration and difficulty |
| Progress.BestScoreKeyIsNotACounter | Sources/DistractionDodge/Models/PlayerProgress.swift:34-45 | no best-score key collides with the two counter keys |
| Progress.DefaultBestScoreKey | Sources/DistractionDodge/Models/PlayerProgress.swift:44-46 | the default configuration's key is `bs_dur60_dif1` |
| Progress.PlayerProgress.constructor | Sources/DistractionDodge/Models/PlayerProgress.swift:19-23 | both counters are read from the store, 0 when absent |
| Progress.PlayerProgress.Record | Sources/DistractionDodge/Models/PlayerProgress.swift:29-42 | the total grows by the score and the sessions by 1; the result is true iff score > previous best; the best becomes max(previous, score); every other configuration's best is unchanged; the store changes only at these keys |
| Progress.RecordSession | Tests/DistractionDodgeTests/DistractionDodgeTests.swift:89-100 | a first record of 10 is new, best 10, 1 session, 10 taps |
| Progress.NewBestFlag | Tests/DistractionDodgeTests/DistractionDodgeTests.swift:102-115 | scores 5, 3, 10 give true, false, true |
| Progress.PlayerProgress.BestScore | Sources/DistractionDodge/Models/PlayerProgress.swift:25-27 | the stored best under the configuration's key, 0 when nothing is stored |
| Progress.UnplayedConfigReadsZero | Sources/DistractionDodge/Models/PlayerProgress.swift:25-27 | an unrecorded configuration reads 0, even after another was recorded |
| Demo.NonTargets | js/demo.js:175 | the five types filtered to those other than the target, in order (their count and exclusion are Demo.NonTargetsSpec) |
| Demo.NonTargetsSpec | js/demo.js:175 | four non-target types, none the target |
| Demo.RandOf | js/demo.js:62 | `rand(min, max)` lies in [min, max], below max when min < max |
| Demo.RandIntOf | js/demo.js:63 | `randInt(min, max)` is an integer in [min, max] |
| Demo.PercentAsQuotient | js/demo.js:59 | the percentage plus one half is the exact quotient (200·hits + taps) / (2·taps) |
| Demo.QuotientIsPercentage | js/demo.js:59 | that rounded quotient is in [0, 100] when hits ≤ taps |
| Demo.Accuracy | js/demo.js:57-60 | 0 with no taps; otherwise the integer (200·hits + taps) / (2·taps), i.e. round-half-up of the percentage; always in [0, 100] |
| Demo.AccuracyExamples | js/demo.js:57-60 | 1 of 3 is 33, 2 of 3 is 67, 1 of 2 is 50 |
| Demo.AccuracyExtremes | js/demo.js:57-60 | all hits is 100, all misses is 0 |
| Demo.AccuracyMonotone | js/demo.js:57-60 | with the same number of taps, more hits never lowers the accuracy |
| Demo.HitTest | js/demo.js:156-166 | the demo's hit test with reach half the size plus 8: a diamond by the sum of the offsets against 1.2 times the reach, a circle or star by distance, any other type by its square box (Demo.CentreHits and Demo.FirstHit build on it) |
| Demo.CentreHits | js/demo.js:156-166 | a tap on a shape's centre hits it |
| Demo.FirstHit | js/demo.js:303-312 | the first shape in list order that the tap hits, or None exactly when none is hit |
| Demo.ColourIndexAsWritten | js/demo.js:194 | the colour index as written: 0 for the target, a non-target colour from position 1 on |
| Demo.FirstDecoyGetsTargetColour | js/demo.js:194 | as written, a non-target at position 0 gets palette index 0, the target's colour |
| Demo.ColourIndex | js/demo.js:194 | colour 0 iff target, always a palette index, same as the demo's index from position 1 on |
| Demo.SwapPermutes | js/demo.js:183 | a swap rearranges the list |
| Demo.Picks | js/demo.js:181-182 | the shuffle's draws are valid indices: position i swaps with one in [0, i] |
| Demo.ShuffledBy | js/demo.js:181-184 | the Fisher–Yates pass over the first n positions for given picks (a rearrangement by Demo.ShuffledPermutes) |
| Demo.Shuffled | js/demo.js:181-184 | the pass over the whole list with the stream's picks (the specification of Demo.ShuffleInPlace) |
| Demo.ShuffledPermutes | js/demo.js:181-184 | the Fisher–Yates pass keeps the length and the multiset of elements |
| Demo.ShuffleInPlace | js/demo.js:181-184 | the array becomes Demo.Shuffled of its old contents, driven by the stream's draws, a permutation of them |
| Demo.OnceAtTheFront | js/demo.js:176-179 | the type list holds the target exactly once |
| Demo.TypeList | js/demo.js:174-179 | 7 types, the target first and none of the other six the target |
| Demo.Drawn | js/demo.js:177-178 | n picks from the non-target types, none of them the target |
| Demo.ShuffledTypeList | js/demo.js:174-184 | the type list after the shuffle that follows it in the stream (the specification of Demo.DemoGame.ShuffledTypes) |
| Demo.TooClose | js/demo.js:201-204 | a centre is too close to a placed shape when their distance is below half the summed sizes plus 12 |
| Demo.Overlaps | js/demo.js:201-204 | a centre overlaps the field when it is too close to some shape already placed (Demo.DemoGame.PickPosition's exit condition) |
| Demo.FieldIsWellPlaced | js/demo.js:186-207 | shapes placed one by one with their type, flag and fit make a well-placed field |
| Demo.DemoGame.constructor | js/demo.js:26-31 | before the start button: not running, 0/0, 30 s, no target, no shapes |
| Demo.DemoGame.GetAccuracy | js/demo.js:57-60 | the round's accuracy is a percentage in [0, 100], 0 before any tap (its value is Demo.Accuracy) |
| Demo.DemoGame.Rand | js/demo.js:62 | one draw from the stream, scaled to [min, max] |
| Demo.DemoGame.RandInt | js/demo.js:63 | one draw from the stream, an integer in [min, max] |
| Demo.DemoGame.BuildTypes | js/demo.js:174-179 | a fresh array holding Demo.TypeList of the stream: the target first, then six drawn non-target types, one draw each |
| Demo.DemoGame.PickPosition | js/demo.js:196-204 | 1 to 40 tries, two draws each; a position within the margins; clear of the placed shapes unless all 40 tries were used |
| Demo.DemoGame.ShuffledTypes | js/demo.js:174-184 | the types are Demo.ShuffledTypeList of the stream, hold the target at exactly one position, and use 12 draws |
| Demo.DemoGame.PlaceShapes | js/demo.js:169-209 | 7 shapes: exactly one flagged, of the target type, and it alone has that type; size 44 and colour 0 for it, size 34 and colours 1–7 for the rest; within the margins; at least 26 and at most 572 draws |
| Demo.DemoGame.PlaceField | js/demo.js:186-207 | the placement loop: each shape keeps the type at its position, the one target-typed shape alone is flagged, and the field is well placed; between 14 and 560 draws |
| Demo.DemoGame.PlaceShape | js/demo.js:193-206 | one shape with its type, flag, size and colour, at a centre from the retry loop within the margins; 2 to 80 draws |
| Demo.DemoGame.StartGame | js/demo.js:240-251 | running, 0/0, 30 s, the target is the type the first draw picks among the five, and a well-placed field for it |
| Demo.DemoGame.RenderTick | js/demo.js:253-255 | during a round: a new well-placed field for the current target |
| Demo.DemoGame.TargetTick | js/demo.js:257-260 | during a round: a new target drawn from all five types with one draw; the field is not rebuilt |
| Demo.DemoGame.EndGame | js/demo.js:269-277 | stops the round and returns the accuracy |
| Demo.DemoGame.TimerTick | js/demo.js:262-266 | during a round: one second less; the round ends with its accuracy exactly when the time is up, and keeps running otherwise |
| Demo.DemoGame.HandleInput | js/demo.js:295-317 | nothing changes when no round runs or no shape is hit; otherwise exactly one of hits and misses grows, decided by the first shape hit, and the field is rebuilt well placed |
| Demo.StartedRound | js/demo.js:240-251 | on a 600×400 canvas a started round is 0/0 at accuracy 0 with seven shapes centred in [52, 548] × [52, 348] |
| Demo.TapFirstShape | js/demo.js:295-317 | tapping the first shape's centre counts one tap, at accuracy 100 on a hit and 0 on a miss |

## Left out

- Rendering, animation, effects, sound and haptics are not modelled. This covers the HUD labels, `draw*`, `render`, `updateUI`, `setTargetLabel`, the overlay, particles, camera shake and the ninja mood classes of the demo.
- The delay before the game-over callback is not modelled: `TriggerGameOver` returns the report instead of calling back after 1.8 s.
- Timers and the clock are not modelled. Frame times are a parameter of `Update`. The demo's three intervals are the methods `RenderTick`, `TargetTick` and `TimerTick`, called in any order.
- Scene.GameScene.RotateTarget: its call after the pop animation is not modelled. It is a separate call, and the new target is a `choice` parameter in place of `randomElement()`.
- Shape lifespans are not modelled beyond their value: each spawned Placement carries its lifespan, but the scene stores no shapes, and their expiry and removal are not modelled. `ShapeNode` is not part of this model beyond its kind and target flag.
- Scene.GameScene.TouchesBegan takes the shape under the touch as an `Option` argument. SpriteKit's `nodes(at:)` lookup is not modelled.
- Scene.GameScene.Update does not model `Double` rounding (the timer label, `rounded(.up)`). It requires the caller to supply a shuffle of the current target's three decoys and four spawn positions. Those are the random draws of a frame, since `shuffled()` and `CGFloat.random` are not modelled.
- Scene.GameScene.Update requires four spawn positions inside the spawn area even on frames that end the game or spawn nothing. A frame narrower than 124 points or shorter than 324 has no spawn area, so the model cannot be called on it; the game runs such frames and traps only when `CGFloat.random(in:)` gets an empty range (`GameScene.swift:172-173`).
- GameConfig.Difficulty.SpawnInterval, Lifespan and DecoyCount require a positive session length. IEEE division by zero is not modelled; the game only passes 30, 60 or 90.
- Floating point in general is not modelled: ramps, accuracy and coordinates are exact `real` arithmetic. Demo.Accuracy is the exactly rounded percentage. Where the browser's double arithmetic lands next to a half, its result may differ.
- Fixed-width integers are not modelled. Swift's `Int` overflow traps on the score, counters and stored totals are absent because the model's integers are unbounded.
- The calm meter's `Double` is not modelled; its value is an integer, since it starts at 50 and moves only by whole steps.
- Emoji, labels and colour names of shapes, tiers and durations are display strings and are not modelled.
- Progress.PlayerProgress: the `shared` singleton on the standard store is not modelled, and neither is `@Published` observation. The store is a map passed to the constructor.
- Demo.DemoGame.HandleInput takes canvas coordinates. The scaling through `getBoundingClientRect` is not modelled. It requires a target type while a round runs, which `startGame` always sets.
- Demo.DemoGame.RenderTick, TargetTick and TimerTick require a running round: the demo starts its three intervals in `startGame` and clears them in `endGame` (`js/demo.js:271-273`).
- Demo.DemoGame.PlaceShapes does not repeat the shuffled type list in its own contract; Demo.DemoGame.ShuffledTypes and Demo.DemoGame.PlaceField state it, so a caller of `placeShapes` knows the field's flags, sizes, colours and margins but not which type is where.
- Demo.DemoGame.PlaceShapes states the margin bounds only for a canvas at least 104 wide (or tall). On a smaller canvas `rand` takes its bounds in reverse order and the demo keeps no margin.
- Demo.TooClose compares squared distances instead of calling `Math.hypot`. This is the same test, since the minimum distance is positive.
- Demo.DemoGame.PlaceShape colours a shape with the corrected `ColourIndex` (see Findings), and so does every member that promises `WellPlaced`: Demo.DemoGame.PlaceField, Demo.DemoGame.PlaceShapes, Demo.DemoGame.StartGame, Demo.DemoGame.RenderTick, Demo.DemoGame.HandleInput and Demo.FieldIsWellPlaced. The demo itself gives a non-target at position 0 palette entry 0.

## Findings

| source | as written | input that shows it | evidently intended | confidence | as-written member | corrected member |
|---|---|---|---|---|---|---|
| js/demo.js:194 | a non-target at position i gets colour `1 + ((i - 1) % 7)`; JavaScript's `%` keeps the dividend's sign, so at i = 0 this is `1 + (-1)` = 0, the target's colour (`ColourIndexAsWritten`) | a shuffle that moves the target off position 0, e.g. types `[square, circle, …]` with target circle: shape 0 is a non-target drawn in `PALETTE[0]` | colour 0 for the target alone; every other shape one of colours 1–7 | medium, not executed | Demo.FirstDecoyGetsTargetColour | Demo.ColourIndex |
