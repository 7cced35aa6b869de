# A verified model of the scene cycle and level session of a Phaser arcade game

The game has four scenes, started one after another: PreloadScene, then
MenuScene, GameScene and GameOverScene in a loop. The menu starts a level-1
game. In GameScene the player collects notes (+10 each) and avoids roaming
enemies for 60 seconds. The level ends as a win when the last note is taken,
and as a loss when the timer runs out or an enemy touches the player. The
result scene shows the outcome and goes back to the menu.

This project models the logic the game's own code contains:

- the payloads passed between scenes and how each scene defaults them;
- the session counters (level, score, seconds left, notes left);
- the placement of notes and enemies, including the rejection sampling that
  keeps enemies out of the safe zone around the screen centre;
- the three gameplay handlers and `endLevel`;
- the per-frame steering, animation and facing rule;
- the listeners of the menu and result scenes;
- the scene cycle as a whole.

Modules, one per file:

- `Optional`: the Option type.
- `Config`: the canvas size, 800 × 480.
- `Js`: JavaScript truthiness, the `x || fallback` idiom, and integer-to-text
  conversion with its inverse.
- `Payloads`: the `{ level }` and `{ success, score, level }` payloads and
  how `init` reads each one.
- `Systems`: the engine's sound manager and scene manager, which all scenes
  share, and GameScene's arcade physics world (the only scene that uses
  physics), reduced to one ordered log of the calls the scenes make.
- `Session`: the counters of one level attempt as values, one `Step` per
  event, and `Run` over a sequence of events.
- `GameScene`: the play scene as a class, with the placement loops, the
  steering and the `endLevel` effects.
- `MenuScene`, `GameOverScene`: the other two scenes, as classes.
- `SceneFlow`: the scene cycle as a transition function, with the invariant
  that every scene the game can reach satisfies.

Randomness (`Phaser.Math.Between`, inclusive at both ends) is read from a tape
of raw draws. A raw draw `r` gives `lo + r % (hi - lo + 1)`. The enemy
distance test `Distance.Between(centre, p) < 200` is written as the
equivalent integer test `dx² + dy² < 40000`, with the square defined by
recursion (`GameScene.Square`) so that the solver works with it only where a
proof asks it to. Every placement function is total: it gives None exactly
when the tape runs out. Not every long tape populates a level: a tape whose
candidates all fall inside the safe zone is used up by the rejection loop.
`GameScene.ZeroTapePopulates` shows that a long enough tape of zero draws
(two per note, four per enemy) populates every level, so placement can
always succeed.

Where the code and its comments disagree, the model follows the code. The
comment at src/scenes/MenuScene.js:42 says the ENTER listener fires once.
The code registers it with `on` and `emitOnRepeat = true`, so it fires on
every key-down, repeats included. Only the pointer listener is one-shot
(`MenuScene.EnterStartsEveryTime`, `MenuScene.PointerStartsOnce`). A level can
be any integer the payload carries, not only a level ≥ 1: `Session.Iterations`
counts how often a `for` loop with a non-positive bound runs (zero times).

## Model

| member | source | states |
|---|---|---|
| `Js.Or` | src/scenes/GameScene.js:12 | `v \|\| fallback`: a truthy (present, non-zero) value is kept, anything else becomes the fallback; with a non-zero fallback the result is never 0 |
| `Js.IntToString` | src/scenes/GameOverScene.js:37 | the text of an integer is a well-formed decimal, with a leading '-' exactly for negative numbers |
| `Js.ParseIntToString` | src/scenes/GameOverScene.js:37 | the printed text of an integer reads back as that integer |
| `Js.IntToStringInjective` | src/scenes/GameOverScene.js:37 | two integers print alike exactly when they are equal, so a displayed score identifies the score |
| `Js.LabelReadsBack` | src/scenes/GameScene.js:127 | `prefix + n` starts with the prefix and the rest reads back as `n` (score, time and result lines) |
| `Payloads.SessionLevel` | src/scenes/GameScene.js:12 | the session level is `data.level` when that is truthy (a present non-zero number) and 1 otherwise, so never 0 |
| `Payloads.Handover` | src/scenes/GameScene.js:146 | `endLevel` hands over exactly the current success flag, score and level |
| `Payloads.Receive` | src/scenes/GameOverScene.js:11-18 | `success` kept as received, with no default; `score` is `data.score` if truthy else 0; `level` is `data.level` if truthy else 1 |
| `Payloads.HandoverRoundTrip` | src/scenes/GameOverScene.js:13-17 | what GameScene hands over is what GameOverScene keeps, whenever the level is non-zero (a score of 0 survives because its default is 0) |
| `Payloads.MenuStartsLevelOne` | src/scenes/MenuScene.js:38 | the menu's `{ level: 1 }` gives a level-1 session |
| `Session.NoteCount` | src/scenes/GameScene.js:46 | `8 + level * 2` is even, and at least 10 exactly when the level is at least 1 |
| `Session.EnemyCount` | src/scenes/GameScene.js:62 | `2 + Math.min(5, level)` is at most 7: 2 + level up to level 5, and 7 from level 5 on, so at least 3 for any level ≥ 1 |
| `Session.Fresh` | src/scenes/GameScene.js:26-47 | a level starts with score 0, 60 seconds and as many notes as the note loop places, at least 10 for any level ≥ 1 |
| `Session.NextLevelIsHarder` | src/scenes/GameScene.js:46-62 | each next level places two more notes and the same number of enemies or one more |
| `Session.Step` | src/scenes/GameScene.js:113-133 | a collect removes one note and adds 10, and ends the level exactly when no note is left; a tick takes one second, keeps the score, and ends the level exactly when time is ≤ 0; a hit ends the level at once; the level never changes; an outcome is a success exactly for a collect and carries the current score and level |
| `Session.Run` | src/scenes/GameScene.js:113-133 | no events change nothing; the level never changes; an outcome needs at least one event and carries the final score and the session's level |
| `Session.RunAccounting` | src/scenes/GameScene.js:123-130 | over any events: the level is unchanged, score + 10 × notes left is constant, notes and time only go down, and an outcome carries the final score and the level |
| `Session.ScoreIsRewardPerNote` | src/scenes/GameScene.js:126 | from a fresh session the score is exactly 10 × the notes collected |
| `Session.WinExactlyWhenCleared` | src/scenes/GameScene.js:129 | while notes remain, a run leaves no note exactly when it ended the level with success |
| `Session.TicksCountDown` | src/scenes/GameScene.js:114-117 | fewer ticks than the seconds left only count the time down, with no outcome |
| `Session.TimerRunsOut` | src/scenes/GameScene.js:114-117 | as many ticks as seconds left end the level as a loss with the score untouched |
| `Session.SixtiethTickEndsLevel` | src/scenes/GameScene.js:27-28 | a fresh session (score 0, 60 seconds) survives 59 ticks and is lost on the 60th, with score 0 |
| `Session.CollectsCount` | src/scenes/GameScene.js:123-130 | collecting fewer notes than remain adds 10 per note and ends nothing |
| `Session.CollectingAllWins` | src/scenes/GameScene.js:129 | collecting every remaining note ends the level as a win with the full score |
| `Session.HitAfterAnythingLoses` | src/scenes/GameScene.js:133 | a hit ends a still-running level as a loss whatever the score |
| `Session.ScenarioAllNotes` | src/scenes/GameScene.js:123-130 | level 1, all 10 notes collected: `{ success: true, score: 100, level: 1 }` |
| `Session.ScenarioTimeOut` | src/scenes/GameScene.js:113-119 | level 1, 7 notes then 60 ticks: `{ success: false, score: 70, level: 1 }` |
| `Session.ScenarioHit` | src/scenes/GameScene.js:133 | level 3, 5 ticks, 5 notes, a hit: `{ success: false, score: 50, level: 3 }` |
| `GameScene.Between` | src/scenes/GameScene.js:49-50 | a draw lies in `[lo, hi]`, both ends included |
| `GameScene.BetweenCoversRange` | src/scenes/GameScene.js:71-72 | every value of the range can be drawn |
| `GameScene.NoteAt` | src/scenes/GameScene.js:49-50 | a note position has x in [40, width−40] and y in [60, height−40] |
| `GameScene.CandidateAt` | src/scenes/GameScene.js:71-72 | an enemy candidate has x in [20, width−20] and y in [40, height−20] |
| `GameScene.PlaceNotes` | src/scenes/GameScene.js:46-57 | places max(0, count) notes, the k-th drawn from draws 2k and 2k+1, all in the note area; fails only when the tape is too short |
| `GameScene.OutsideSafeZone` | src/scenes/GameScene.js:65-73 | a point outside the safe zone is never the centre, where the player starts |
| `GameScene.SafeZoneShape` | src/scenes/GameScene.js:65-73 | a point 200 or more from the centre along either axis is outside the safe zone, and a point outside it is more than 141 from the centre along some axis |
| `GameScene.SpawnFrom` | src/scenes/GameScene.js:69-73 | the candidate the do-while accepts lies in the enemy area and outside the safe zone; when the tape runs out first there is none and no draw is left |
| `GameScene.SpawnFailsOnlyWhenAllRejected` | src/scenes/GameScene.js:70-73 | no position is found exactly when every candidate the tape holds is inside the safe zone |
| `GameScene.SpawnPosition` | src/scenes/GameScene.js:65-73 | the loop gives exactly `SpawnFrom` of the tape; every rejected candidate lies inside the safe zone, and the accepted one is the next candidate, outside it |
| `GameScene.EnemyFrom` | src/scenes/GameScene.js:69-91 | an enemy drawn from a tape is inside its area, outside the safe zone, with both velocity components in [−70, 70]; when the tape runs out there is none and no draw is left |
| `GameScene.SpawnEnemy` | src/scenes/GameScene.js:64-91 | one pass of the enemy loop gives exactly `EnemyFrom` of the tape |
| `GameScene.PlaceFrom` | src/scenes/GameScene.js:63-92 | continuing the enemy loop for `count` more passes adds exactly max(0, count) enemies, or fails with no draw left |
| `GameScene.EnemiesFrom` | src/scenes/GameScene.js:62-92 | the enemy loop places exactly max(0, count) enemies, or fails with no draw left |
| `GameScene.PlaceFromPlaced` | src/scenes/GameScene.js:63-92 | every enemy the loop adds is well spawned, so a well-spawned group stays well spawned |
| `GameScene.PlaceFromZeros` | src/scenes/GameScene.js:62-92 | four zero draws per enemy always place all of them, and the draws after them are left over |
| `GameScene.ZeroTapePopulates` | src/scenes/GameScene.js:46-92 | every level can be populated: two zero draws per note and four per enemy suffice |
| `GameScene.PlaceEnemies` | src/scenes/GameScene.js:62-92 | the loop gives exactly `EnemiesFrom` of the tape, so it fails only when the tape runs out, with no draw left; on success it places max(0, count) enemies, each inside its area, outside the safe zone, with both velocity components in [−70, 70] |
| `GameScene.AxisVelocity` | src/scenes/GameScene.js:160-164 | −180 exactly when the negative key is held, +180 exactly when only the positive one is, else 0: opposite keys resolve to the negative direction |
| `GameScene.Steer` | src/scenes/GameScene.js:156-164 | vx follows left (arrow or A) over right (arrow or D), vy follows up over down |
| `GameScene.AnimationFor` | src/scenes/GameScene.js:170-174 | `player_fly` exactly when vx ≠ 0 or vy ≠ 0, otherwise `player_idle` |
| `GameScene.Facing` | src/scenes/GameScene.js:177-181 | flipped when vx < 0, not flipped when vx > 0, unchanged when vx = 0 |
| `GameScene.Ending` | src/scenes/GameScene.js:136-147 | no call when the level does not end; otherwise four calls, the last one starting GameOverScene with the handed-over outcome |
| `GameScene.EndingHandsOverOutcome` | src/scenes/GameScene.js:136-147 | `endLevel` stops `game_music` first, then plays `win_sound` exactly on success and `game_over_sound` exactly on failure, unlooped at full volume, then pauses physics, and its last call starts GameOverScene with a payload GameOverScene reads back as exactly `{ success, score, level }` |
| `GameScene.GameScene.Init` | src/scenes/GameScene.js:12 | the level is `data.level \|\| 1`, and nothing else changes |
| `GameScene.GameScene.Create` | src/scenes/GameScene.js:17-92 | starts `game_music` looping at volume 0.4; score 0 and 60 seconds on every entry; the HUD shows them; the player is at the centre, at rest; every placed entity satisfies the placement rules; placement succeeds exactly when the tape supplies every note and enemy, and then the counters are a fresh session for the level, with `2 + min(5, level)` enemies drawn as `EnemiesFrom` says; otherwise nothing is placed and no draw is left |
| `GameScene.GameScene.Populate` | src/scenes/GameScene.js:44-92 | the notes and enemies placed for the level, all inside their areas, enemies out of the safe zone; it succeeds exactly when the tape supplies them all, the k-th note from draws 2k and 2k+1 and the enemies as `EnemiesFrom` gives them from the draws after the notes; otherwise nothing is placed and no draw is left |
| `GameScene.GameScene.EndLevel` | src/scenes/GameScene.js:136-147 | the engine receives, in order: stop music, the win or loss cue, pause physics, start GameOverScene with `{ success, score, level }` |
| `GameScene.GameScene.Collect` | src/scenes/GameScene.js:123-130 | the note is removed and every other one kept, the counters move as `Session.Step` says, the HUD shows the new score, `note_sound` plays, and `endLevel(true)` follows exactly when no note is left; time, enemies and player are untouched |
| `GameScene.GameScene.RemoveNote` | src/scenes/GameScene.js:125-127 | the note is destroyed and every other one kept, the score grows by 10 as `Session.Step` says, and the HUD shows it |
| `GameScene.GameScene.Tick` | src/scenes/GameScene.js:113-119 | the counters move as `Session.Step` says for a tick, the HUD shows the new time, and `endLevel(false)` follows exactly when time is ≤ 0; score and notes are untouched |
| `GameScene.GameScene.CountDown` | src/scenes/GameScene.js:115-116 | one second less, as `Session.Step` says for a tick, and the HUD shows it |
| `GameScene.GameScene.Hit` | src/scenes/GameScene.js:133 | `endLevel(false)` with the current score and level, and no counter changes |
| `GameScene.GameScene.Update` | src/scenes/GameScene.js:153-182 | the background scrolls by 3; the player's velocity is the steering result; animation and facing follow `AnimationFor` and `Facing`; the position is untouched |
| `MenuScene.StartGameStartsLevelOne` | src/scenes/MenuScene.js:33-39 | `startGame` stops `intro_music` before it starts GameScene, and that start gives a fresh level-1 session: 10 notes, score 0, 60 seconds |
| `MenuScene.MenuScene.Create` | src/scenes/MenuScene.js:19 | entering the menu starts `intro_music` looping at volume 0.5 and registers both listeners |
| `MenuScene.MenuScene.StartGame` | src/scenes/MenuScene.js:33-39 | stop `intro_music`, then start GameScene with `{ level: 1 }` |
| `MenuScene.MenuScene.EnterDown` | src/scenes/MenuScene.js:43-44 | every ENTER down event calls the same `startGame`, repeats included |
| `MenuScene.MenuScene.PointerDown` | src/scenes/MenuScene.js:48 | the first pointer press calls the same `startGame` and removes the listener; later presses do nothing |
| `MenuScene.PointerStartsOnce` | src/scenes/MenuScene.js:48 | two pointer presses in one menu activation start the game once |
| `MenuScene.EnterStartsEveryTime` | src/scenes/MenuScene.js:43-44 | two ENTER events in one menu activation start the game twice |
| `GameOverScene.Heading` | src/scenes/GameOverScene.js:32 | 'Você sobreviveu!' exactly when `success` is truthy, ' Game Over!' exactly when it is not |
| `GameOverScene.GameOverScene.Init` | src/scenes/GameOverScene.js:11-18 | the fields kept are exactly `Payloads.Receive` of the payload |
| `GameOverScene.GameOverScene.Create` | src/scenes/GameOverScene.js:31-49 | the heading follows `success`, the score line is 'Pontuação: ' followed by the score, and both one-shot listeners are registered |
| `GameOverScene.GameOverScene.EnterDown` | src/scenes/GameOverScene.js:47 | the first ENTER starts MenuScene with no payload; the listener is then gone |
| `GameOverScene.GameOverScene.PointerDown` | src/scenes/GameOverScene.js:49 | the first pointer press starts MenuScene with no payload; the listener is then gone |
| `GameOverScene.ShowOutcome` | src/scenes/GameOverScene.js:32-37 | for a handed-over outcome, the survival heading shows exactly on success and the score line reads back as the score |
| `SceneFlow.Next` | src/scenes/MenuScene.js:38-48 | the four `scene.start` sites (also src/scenes/PreloadScene.js:82, src/scenes/GameScene.js:146, src/scenes/GameOverScene.js:47-49): PreloadScene goes to the menu exactly when loading completes; the menu starts Play exactly on ENTER or a pointer press; Play stays in play or goes to the result scene, and only gameplay events move it; the result scene goes to the menu exactly on ENTER or a pointer press |
| `SceneFlow.ConfirmInputsAgree` | src/scenes/MenuScene.js:43-48 | ENTER and a pointer press lead to the same scene from every scene |
| `SceneFlow.PlayIsEnteredFresh` | src/scenes/MenuScene.js:38 | Play is entered only from the menu, and always with level 1, score 0, 60 seconds and 10 notes |
| `SceneFlow.ReplayResetsSession` | src/scenes/GameOverScene.js:47-49 | from any result, a confirmation goes to the menu and the next one to a fresh level-1 session |
| `SceneFlow.PlayHandsOverOutcome` | src/scenes/GameScene.js:146 | a session that ends opens the result scene with exactly its outcome |
| `SceneFlow.NextKeepsConsistent` | src/scenes/GameScene.js:113-133 | every transition keeps the invariant of reachable scenes |
| `SceneFlow.ReachableConsistent` | src/main.js:25 | from PreloadScene on, every reachable Play has level 1 and score = 10 × notes taken, and every reachable result has level 1 and success exactly when the score is 100 |
| `SceneFlow.SurvivedExactlyWithFullScore` | src/scenes/GameOverScene.js:32 | a reachable result screen shows 'Você sobreviveu!' exactly when the score is 100 |

## Left out

- Asset loading and animation registration in PreloadScene: these are engine loader calls. Only its start of MenuScene is modelled, as the first transition of `SceneFlow`.
- Engine configuration beyond the 800 × 480 canvas and the scene order.
- Arcade physics. This covers overlap and collision detection, bounce, world-bounds clamping, movement integration, hitbox sizes and immovability. The model has the handlers' effects, not when the engine fires them. Entity positions after spawning are not tracked.
- Rendering: text positions and styles, images, the enemies' `enemy_fly` animation, canvas focus, and the console message in `startGame`.
- Audio playback itself. Only the calls are recorded, with volumes in percent. A `sound.play` without a config is recorded with Phaser's defaults: no loop, full volume.
- The real-time schedule. The 1-second timer is the `Tick` event and the frame loop is `Update`. Which of two same-frame events comes first is not modelled.
- Re-entrancy after a level ends. Like the source, the class handlers have no guard, so an event after `endLevel` calls it again. `Session.Run` and `SceneFlow` take the first end of a level as final. This rests on the engine shutting the scene down after `scene.start`.
- Timer cancellation at scene shutdown is done by the engine and is not modelled.
- Listener lifetime across menu activations. `MenuScene.create` adds an ENTER `down` listener with `on` to the key object `addKey` returns, each time the menu is entered. Whether Phaser drops that listener when the scene shuts down is engine behaviour the model does not capture. If it does not, each new menu visit adds one more listener, and one ENTER press would call `startGame` once per visit so far. The model starts each menu activation with exactly one listener.
- Payload fields hold only integers, booleans or nothing. Strings, fractions and NaN are not modelled.
- Randomness. The model reads a finite tape of draws, where the engine's generator never runs out. When the tape runs out, a placement returns None and `GameScene.GameScene.Create` reports `ok = false`; this is the only way placement fails. The source's rejection loop has no bound at all. `SceneFlow` assumes placement succeeds.
- GameScene.GameScene.Collect: requires the collected note to be one still on the field. The engine only reports overlaps with active notes.
- Session.Step: a collect with no note left changes nothing. The engine cannot report one.
