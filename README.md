# CyberSlayers pages, modelled in Dafny

CyberSlayers is a browser game that teaches cyber-security basics. The player
works through short lessons and quizzes on a dashboard of "arenas". Each arena
ends in a mini-game, and the run ends with two boss fights. This project models
the logic of the frontend pages. It covers the state each page keeps, the
event handlers and timers that change that state, and the rules each game
plays by. It proves what those rules guarantee.

The project has one module per page:

| module | page | form |
|---|---|---|
| `SnakeGame` | `password_security_game.jsx`: snake on a 20 by 20 board | class `Game` |
| `Dashboard` | `GameDashboard.jsx`: story and popup queues, arena levels, module quizzes | functions, classes `StoryQueues`, `LearningModule` |
| `Lessons` | `Lessons.jsx`: the four-question lesson quiz and its running average | class `LessonsPage` |
| `ScamProfile` | `phishing_detection_game.jsx`: find the seven red flags of a fake profile | class `ScamProfileGame` |
| `SpotTheThreat` | `game2.jsx`: pick the one correct object per level | class `SpotTheThreatGame` |
| `Lagdrakul` | `BossFight-Lagdrakul.jsx`: the first boss fight | class `BossFight` |
| `FinalFight` | `PasswordGame.jsx`: the two-stage final boss | class `FinalFightPage` |
| `WaveShooter` | `network_command_center.jsx`: a wave shooter | class `CommandCenter` |
| `Notes` | `CommentsPage.jsx`: the notes page | class `CommentsPage` |
| `SignUp` | `SignUpPage.jsx`: the sign-up form | class `SignUpPage` |
| `Js`, `Seqs` | JavaScript's `Math.round`, `trim`, `max`/`min`, and `filter`/`map` | functions and lemmas |

How the React pages become Dafny:

- **State.** Each page's `useState` and `useRef` values become fields of a
  class.
- **Handlers and effects.** Each handler or effect becomes a method. Its
  `modifies` clause names the fields it sets. Its `ensures` states the new
  state.
- **Functions beside the class.** Wherever the source computes a value (a
  level, a score, the bullets after a frame), a function returns that value.
  Lemmas prove properties of those functions.
- **Clocks and randomness.** Clock readings (`Date.now()`,
  `performance.now()`) are method parameters. So are random draws
  (`Math.random()`).
- **Timers.** A `setTimeout` callback becomes an entry in a `timers` sequence.
  `FireTimer(k)` runs pending timer `k`, in whatever order the environment
  picks.
- **Server calls.** Replies arrive as parameters.

This repository has no account service that the pages could call. The backend
it ships answers only its root and health routes. The sign-up page therefore
ends at the request body it would send, and at the message it shows for each
kind of reply.

## Model

| member | source | states |
|---|---|---|
| SnakeGame.NextDirection | frontend/src/pages/password_security_game.jsx:38-54 | An arrow key sets its direction unless it is the exact opposite of the current one. Any other key keeps the direction. The result is always a unit step, never the exact opposite of the current direction. Two presses within one tick can still turn the snake back onto itself, because each press is checked against the direction the previous press set. |
| SnakeGame.GetRandomFood | frontend/src/pages/password_security_game.jsx:9-16 | The loop redraws until a draw misses the snake. The food is one of the draws, on the board and off the snake. There is no food exactly when every draw hits the snake. |
| SnakeGame.Game.constructor | frontend/src/pages/password_security_game.jsx:21-25 | The game starts with a single-cell snake at (10, 10), moving right, with score 0 and food off the snake. |
| SnakeGame.Game.HandleKey | frontend/src/pages/password_security_game.jsx:38-54 | A key press changes only the direction, as `NextDirection` decides. After game over it changes nothing. |
| SnakeGame.Game.Tick | frontend/src/pages/password_security_game.jsx:64-103 | A tick ends the game when the new head leaves the board or hits the body. Eating grows the snake by one, adds one point and places new food. Otherwise the snake moves and keeps its length. The snake stays on the board, without repeated cells, and off the food. |
| SnakeGame.Game.Restart | frontend/src/pages/password_security_game.jsx:109-116 | Restart returns to the initial state. |
| SnakeGame.Game.Won | frontend/src/pages/password_security_game.jsx:28-34 | The game is won exactly when the snake has more than 25 cells: the first cell and one per apple. |
| Dashboard.ProgressColor | frontend/src/pages/GameDashboard.jsx:384-389 | The bar colour is chosen by 25-point bands of progress. Each colour holds exactly on its band. |
| Dashboard.GameStatus | frontend/src/pages/GameDashboard.jsx:391-397 | The arena badge is Offline only at score 0. Otherwise it is Bronze, Silver, Gold or Diamond by the 300/600/800 thresholds. |
| Dashboard.GameStatusMonotone | frontend/src/pages/GameDashboard.jsx:391-397 | For positive scores, a higher score never gives a lower badge. |
| Dashboard.ArenaScore | frontend/src/pages/GameDashboard.jsx:510-512 | A game with no stored score counts as 0. Otherwise its stored score is used. |
| Dashboard.HeaderLevel | frontend/src/pages/GameDashboard.jsx:696-697 | The header level is the 25-point band the progress falls in, starting at 1. |
| Dashboard.HeaderLevelRange | frontend/src/pages/GameDashboard.jsx:696-697 | For progress between 0 and 100, the level lies between 1 and 5. |
| Dashboard.ArenaLevel | frontend/src/pages/GameDashboard.jsx:918-923 | The arena bar shows a tenth of the score, capped at 100 and never below 0. |
| Dashboard.PendingBeats | frontend/src/pages/GameDashboard.jsx:351-370 | The queued story beats are the unlocked beats not yet shown, in table order. |
| Dashboard.PendingBeatsMembers | frontend/src/pages/GameDashboard.jsx:351-370 | A beat is queued if and only if it is in the table, unlocked by the progress, and not yet shown. |
| Dashboard.PendingBeatsAppend | frontend/src/pages/GameDashboard.jsx:351-370 | Filtering the beats distributes over joined tables, so table order is kept. |
| Dashboard.Remember | frontend/src/pages/GameDashboard.jsx:954-961 | A shown beat id is recorded once. The list of shown ids never gains a duplicate. |
| Dashboard.PopupImages | frontend/src/pages/GameDashboard.jsx:36-45 | Each of arenas 1 to 5 has at least one popup image. Other arenas have none. |
| Dashboard.StoryQueues.constructor | frontend/src/pages/GameDashboard.jsx:330-341 | Both queues start empty, no arena is selected, and the stored shown ids are kept. |
| Dashboard.StoryQueues.Enter | frontend/src/pages/GameDashboard.jsx:344-370 | Entering the dashboard queues the pending beats when there are any, starting at the first. Otherwise the queue is unchanged. |
| Dashboard.StoryQueues.AdvanceStory | frontend/src/pages/GameDashboard.jsx:952-968 | Closing a beat records its id and moves to the next beat. Closing the last beat empties the queue. |
| Dashboard.StoryQueues.ArenaClick | frontend/src/pages/GameDashboard.jsx:404-413 | Clicking an arena selects it, opens its modal and queues its popups from the first. |
| Dashboard.StoryQueues.FinishPopup | frontend/src/pages/GameDashboard.jsx:977-983 | Closing a popup moves to the next one. Closing the last one empties the queue. |
| Dashboard.CountCorrect | frontend/src/pages/GameDashboard.jsx:1150-1160 | The number of right answers never exceeds the number of questions. |
| Dashboard.QuizPercentage | frontend/src/pages/GameDashboard.jsx:1150-1160 | The score is `correct / total` as a percentage between 0 and 100. |
| Dashboard.PassedIff | frontend/src/pages/GameDashboard.jsx:1150-1180 | The 75% pass mark holds exactly when at least three quarters of the answers are right. |
| Dashboard.ModuleQuizPassMark | frontend/src/pages/GameDashboard.jsx:90-320 | Every module quiz has four questions, so a pass takes three right answers. |
| Dashboard.LearningModule.constructor | frontend/src/pages/GameDashboard.jsx:1131-1137 | A module opens on the reading stage at question 0, with no answers and score 0. |
| Dashboard.LearningModule.ScrollComplete | frontend/src/pages/GameDashboard.jsx:1139-1141 | Finishing the reading opens the quiz and changes nothing else. |
| Dashboard.LearningModule.SelectAnswer | frontend/src/pages/GameDashboard.jsx:1143-1148 | Choosing an answer records it for that question only. |
| Dashboard.LearningModule.AnswerClick | frontend/src/pages/GameDashboard.jsx:1414-1420 | An option can be clicked only while the explanation is hidden. The click records the answer for the current question and shows the explanation. The stage, question and score stay. |
| Dashboard.LearningModule.CalculateScore | frontend/src/pages/GameDashboard.jsx:1150-1160 | The loop's score is the percentage of answers equal to the key, the quiz is passed exactly when at least three quarters are right, and the result stage opens. |
| Dashboard.LearningModule.NextQuestion | frontend/src/pages/GameDashboard.jsx:1162-1169 | The Next button exists only once the explanation shows. It goes to the next question with the explanation hidden. After the last question every question has an answer and the score is computed. |
| Dashboard.LearningModule.RetakeQuiz | frontend/src/pages/GameDashboard.jsx:1171-1177 | Retaking clears the answers and the score and restarts the quiz at question 0. |
| Dashboard.LearningModule.IsPassed | frontend/src/pages/GameDashboard.jsx:1180 | A pass means a score between 75 and 100. |
| Lessons.CountCorrect | frontend/src/pages/Lessons.jsx:268-281 | The number of right answers never exceeds the number of questions. |
| Lessons.Percentage | frontend/src/pages/Lessons.jsx:268-281 | With four questions, each right answer is worth 25%, from 0 to 100. |
| Lessons.PassIffThreeRight | frontend/src/pages/Lessons.jsx:295 | The quiz is passed exactly when three or four answers are right. |
| Lessons.HasPassed | frontend/src/pages/Lessons.jsx:295 | There is no pass without a score. Of the percentages four questions can give, only 75 and 100 pass. |
| Lessons.AveragePercent | frontend/src/pages/Lessons.jsx:292-293 | There is no average before the first attempt. After that it is the rounded mean, and it stays within 0..100 when the total does. |
| Lessons.AverageBounds | frontend/src/pages/Lessons.jsx:292-293 | The rounded mean of percentages between 0 and 100 lies between 0 and 100. |
| Lessons.LessonsPage.constructor | frontend/src/pages/Lessons.jsx:8-18 | The quiz starts closed, with four empty answers, no score and no attempts. |
| Lessons.LessonsPage.SetQuizOpen | frontend/src/pages/Lessons.jsx:374-388 | Opening or closing the quiz changes nothing else. |
| Lessons.LessonsPage.AnswerChange | frontend/src/pages/Lessons.jsx:258-263 | An answer change replaces only that question's answer. |
| Lessons.LessonsPage.SubmitQuiz | frontend/src/pages/Lessons.jsx:265-290 | The loop counts the right answers. The submission stores the score and the percentage, adds one attempt, and adds the percentage to the running total. |
| Lessons.LessonsPage.Average | frontend/src/pages/Lessons.jsx:292-293 | The average shown lies between 0 and 100. It is absent exactly before the first attempt. |
| ScamProfile.SevenFoundMeansAll | frontend/src/pages/phishing_detection_game.jsx:84-91 | Seven distinct red flags found means every red flag of the profile is found. |
| ScamProfile.SizeBound | frontend/src/pages/phishing_detection_game.jsx:84-91 | While a flag is still missing, fewer than seven have been found. |
| ScamProfile.ScamProfileGame.constructor | frontend/src/pages/phishing_detection_game.jsx:64-67 | The game starts with no flags found, no selection, no feedback, and play on. |
| ScamProfile.ScamProfileGame.FlagClick | frontend/src/pages/phishing_detection_game.jsx:73-92 | Clicking an unknown id does nothing. A flag already found shows the "already flagged" note. A new flag is recorded once and shows its reason. The game is won exactly when seven are found. |
| ScamProfile.ScamProfileGame.Reset | frontend/src/pages/phishing_detection_game.jsx:94-99 | Reset returns to the initial state. |
| SpotTheThreat.CountTrue | frontend/src/pages/game2.jsx:64-96 | The count of correct objects is at most the number of objects. |
| SpotTheThreat.CountTrueAppend | frontend/src/pages/game2.jsx:64-96 | Counting distributes over appending one object. |
| SpotTheThreat.OneCorrectPerLevel | frontend/src/pages/game2.jsx:64-96 | Every level has exactly one correct object. |
| SpotTheThreat.SpotTheThreatGame.constructor | frontend/src/pages/game2.jsx:56-62 | The game starts at level 0 with 0 XP and the prompt. Level 0's info card opens first. |
| SpotTheThreat.SpotTheThreatGame.DoneReading | frontend/src/pages/game2.jsx:364 | Closing the info card shows the prompt and changes no progress. |
| SpotTheThreat.SpotTheThreatGame.Click | frontend/src/pages/game2.jsx:128-137 | Only the first click of a level counts. It completes the level, and only a right pick adds 10 XP; the message says which happened. Clicks behind the card or after completion change nothing. |
| SpotTheThreat.SpotTheThreatGame.NextLevel | frontend/src/pages/game2.jsx:99-142 | The next level starts uncompleted with the prompt. Its info card opens exactly when the level has info. |
| SpotTheThreat.XpBound | frontend/src/pages/game2.jsx:128-137 | The XP never exceeds 10 per level. |
| SpotTheThreat.SpotTheThreatGame.GameComplete | frontend/src/pages/game2.jsx:99 | The game is complete exactly when every level has been answered and none is waiting for its Next button. |
| Lagdrakul.HorizontalVolley | frontend/src/pages/BossFight-Lagdrakul.jsx:128-139 | Pattern 0 fires four falling bullets. |
| Lagdrakul.VerticalVolley | frontend/src/pages/BossFight-Lagdrakul.jsx:140-151 | Pattern 1 fires three bullets moving right. |
| Lagdrakul.HWaveRows | frontend/src/pages/BossFight-Lagdrakul.jsx:152-170 | Pattern 2 fires six bullets for each platform row. |
| Lagdrakul.VWaveColumns | frontend/src/pages/BossFight-Lagdrakul.jsx:171-195 | A rising wave fires one bullet in each of the five columns except the gap, and never one in the gap. |
| Lagdrakul.VWaveCovers | frontend/src/pages/BossFight-Lagdrakul.jsx:180-191 | Every column other than the gap gets its bullet. |
| Lagdrakul.TideColumn | frontend/src/pages/BossFight-Lagdrakul.jsx:202-222 | A tide column holds as many bullets as the line pattern gives it. |
| Lagdrakul.TideSize | frontend/src/pages/BossFight-Lagdrakul.jsx:196-271 | A full tide lists 1 + 2 + 3 + 2 + 1 = 9 bullets. |
| Lagdrakul.Schedule | frontend/src/pages/BossFight-Lagdrakul.jsx:171-271 | Patterns 3 and 4 set three timers each. Patterns 0 to 2 set none. |
| Lagdrakul.VolleySizes | frontend/src/pages/BossFight-Lagdrakul.jsx:128-271 | The patterns fire 4, 3, 18, 4 per wave, and 9 per tide. |
| Lagdrakul.RightmostColumnAlwaysFires | frontend/src/pages/BossFight-Lagdrakul.jsx:180-181 | The gap is drawn among the first four columns, so the fifth column always carries a bullet. |
| Lagdrakul.PatternFor | frontend/src/pages/BossFight-Lagdrakul.jsx:115-124 | The opening spawns are tide, rising waves, tide. After that, patterns 0 to 4 follow in turn. |
| Lagdrakul.EveryPatternInFive | frontend/src/pages/BossFight-Lagdrakul.jsx:115-124 | After the opening, any five consecutive spawns include every pattern. |
| Lagdrakul.MovePlayer | frontend/src/pages/BossFight-Lagdrakul.jsx:283-301 | A move keeps the player in the box. A held key moves 5 pixels on its axis, clamped to the box, with right winning over left and down over up. Without a held key the player does not move. |
| Lagdrakul.StepPlayerBullets | frontend/src/pages/BossFight-Lagdrakul.jsx:303-318 | Every player bullet kept is an input bullet risen by 8 and still below the top edge. |
| Lagdrakul.StepPlayerBulletsKeeps | frontend/src/pages/BossFight-Lagdrakul.jsx:303-318 | A bullet is kept, 8 higher, exactly when it was more than 8 pixels below the top. |
| Lagdrakul.StepPlayerBulletsAppend | frontend/src/pages/BossFight-Lagdrakul.jsx:303-318 | Stepping a joined list joins the steps, so the kept bullets keep their order. |
| Lagdrakul.BossAfterHits | frontend/src/pages/BossFight-Lagdrakul.jsx:303-318 | Each hit costs the boss 2 health, and the health never goes below 0. |
| Lagdrakul.StepBossBullets | frontend/src/pages/BossFight-Lagdrakul.jsx:320-336 | Every boss bullet kept is an input bullet moved by its velocity and is inside the box's 20-pixel margin. |
| Lagdrakul.StepBossBulletsKeeps | frontend/src/pages/BossFight-Lagdrakul.jsx:320-336 | A bullet is kept, moved, exactly when its move leaves it inside the margin. |
| Lagdrakul.FirstHit | frontend/src/pages/BossFight-Lagdrakul.jsx:339-345 | The hit bullet is the first one touching the player. There is none exactly when no bullet touches. |
| Lagdrakul.RemoveId | frontend/src/pages/BossFight-Lagdrakul.jsx:347-351 | Removing the hit bullet leaves no bullet with its id. |
| Lagdrakul.RemoveIdMembers | frontend/src/pages/BossFight-Lagdrakul.jsx:347-351 | A bullet survives the removal exactly when its id differs from the hit one's. |
| Lagdrakul.Outcome | frontend/src/pages/BossFight-Lagdrakul.jsx:366-372 | The boss at 0 means a win, even if the player is down too. The player at 0 alone means a loss. |
| Lagdrakul.TideSurvivors | frontend/src/pages/BossFight-Lagdrakul.jsx:196-271 | After one step, only the leading bullet of each tide column is inside the margin. The trailing bullets are dropped at once. |
| Lagdrakul.StepAppend | frontend/src/pages/BossFight-Lagdrakul.jsx:325-334 | Each boss bullet moves and leaves independently of the others: the step of a joined list is the join of the steps. |
| Lagdrakul.BossFight.constructor | frontend/src/pages/BossFight-Lagdrakul.jsx:64-79 | The fight starts in the box centre, at full health on both sides, with no bullets. |
| Lagdrakul.BossFight.KeyDown | frontend/src/pages/BossFight-Lagdrakul.jsx:82-93 | A key is marked held. A shoot key fires one bullet from the nose when the last shot is more than 200 ms old. |
| Lagdrakul.BossFight.KeyUp | frontend/src/pages/BossFight-Lagdrakul.jsx:95-97 | Releasing a key only unmarks it. |
| Lagdrakul.BossFight.SpawnBossAttack | frontend/src/pages/BossFight-Lagdrakul.jsx:108-277 | At most one attack in 2000 ms. An attack appends its pattern's bullets and timers and advances the pattern counter. |
| Lagdrakul.BossFight.Frame | frontend/src/pages/BossFight-Lagdrakul.jsx:279-372 | A frame moves the player and both bullet sets. Each boss-zone bullet costs 2 boss health. The first touching bullet costs the player 1 health and starts a 1 s invulnerability, and the frame's attack and outcome follow. |
| Lagdrakul.BossFight.Advance | frontend/src/pages/BossFight-Lagdrakul.jsx:279-345 | The part of a frame before the attack. It moves the player, resolves the shots at the boss, moves the boss bullets and applies the first hit against the starting position. |
| Lagdrakul.BossFight.MoveAndShots | frontend/src/pages/BossFight-Lagdrakul.jsx:283-318 | The player moves as `MovePlayer` says. Player bullets in the boss zone are removed, each costing the boss 2 health, and the others stay. |
| Lagdrakul.BossFight.BossBulletsAndHit | frontend/src/pages/BossFight-Lagdrakul.jsx:320-353 | The boss bullets move. Unless invulnerable, the first one touching the player's starting position is removed, costs 1 health without going below 0, and starts invulnerability with its 1 s timer. |
| Lagdrakul.BossFight.FireTimer | frontend/src/pages/BossFight-Lagdrakul.jsx:174-271 | A due wave or tide timer appends its bullets. The invulnerability timer ends invulnerability. The timer is removed. |
| Lagdrakul.BossFight.Reset | frontend/src/pages/BossFight-Lagdrakul.jsx:374-387 | Reset returns to the initial fight. |
| Lagdrakul.NoHitsKeepsAll | frontend/src/pages/BossFight-Lagdrakul.jsx:303-318 | With no bullet in the boss zone, every player bullet is kept. |
| Lagdrakul.BuildHorizontal | frontend/src/pages/BossFight-Lagdrakul.jsx:128-139 | The loop builds exactly pattern 0's volley. |
| Lagdrakul.BuildVertical | frontend/src/pages/BossFight-Lagdrakul.jsx:140-151 | The loop builds exactly pattern 1's volley. |
| Lagdrakul.BuildHWaves | frontend/src/pages/BossFight-Lagdrakul.jsx:152-170 | The nested loops build exactly the three platform rows. |
| Lagdrakul.BuildVWave | frontend/src/pages/BossFight-Lagdrakul.jsx:176-192 | The loop builds exactly the rising wave with its gap. |
| Lagdrakul.BuildTide | frontend/src/pages/BossFight-Lagdrakul.jsx:202-222 | The nested loops build exactly the full tide. |
| FinalFight.Clamp | frontend/src/pages/PasswordGame.jsx:23-25 | The result lies in the range and equals the input when it is already inside. |
| FinalFight.ClampMonotone | frontend/src/pages/PasswordGame.jsx:23-25 | Clamping preserves order. |
| FinalFight.StageT | frontend/src/pages/PasswordGame.jsx:172-175 | The stage progress lies between 0 and 1. |
| FinalFight.StageTMonotone | frontend/src/pages/PasswordGame.jsx:172-175 | Progress never runs backwards as time passes. |
| FinalFight.Health | frontend/src/pages/PasswordGame.jsx:192-200 | Stage 1 drains the boss from 100 to 50 and stage 2 from 50 to 0. |
| FinalFight.HealthNonIncreasing | frontend/src/pages/PasswordGame.jsx:192-200 | The boss's health never rises during a stage. |
| FinalFight.AttackInterval | frontend/src/pages/PasswordGame.jsx:206-211 | Attacks come every 900 ms, then 750 ms after half of stage 1. In stage 2 they come every 620 ms, then 480 ms after 40%. |
| FinalFight.MovePlayer | frontend/src/pages/PasswordGame.jsx:140-170 | The player stays inside the box. A single held key on an axis moves 5 pixels, clamped to the box. With opposing keys balanced, the axis does not move. |
| FinalFight.Survivors | frontend/src/pages/PasswordGame.jsx:232-260 | The survivors are the bullets that are neither expired nor outside the margin. |
| FinalFight.StepOne | frontend/src/pages/PasswordGame.jsx:232-276 | An expired or escaped bullet is dropped. A survivor is consumed, with the frame marked hit, exactly when the player is not invulnerable, no hit has happened yet and the bullet would hurt. Every other survivor is appended, moved. |
| FinalFight.StepAll | frontend/src/pages/PasswordGame.jsx:232-276 | The update never lengthens the list and never hits an invulnerable player. When the player is not invulnerable, any survivor that would hurt makes the frame a hit. |
| FinalFight.StepAllSpec | frontend/src/pages/PasswordGame.jsx:232-276 | The update loop equals `UpdateSpec` on the frame's survivors. |
| FinalFight.StepOneSpec | frontend/src/pages/PasswordGame.jsx:232-276 | One turn of the loop, applied to `UpdateSpec` of the survivors so far, gives `UpdateSpec` of the survivors with this bullet. |
| FinalFight.FirstHitter | frontend/src/pages/PasswordGame.jsx:256-268 | The index found would hurt the player, and no earlier bullet would. The index is the length when no bullet would hurt. |
| FinalFight.UpdateSpec | frontend/src/pages/PasswordGame.jsx:232-276 | The frame is a hit exactly when the player is not invulnerable and some survivor would hurt. Then exactly the first such survivor is consumed and the others move on in order. Without a hit every survivor moves on. |
| FinalFight.FirstHitterAppend | frontend/src/pages/PasswordGame.jsx:256-268 | Appending a bullet keeps an earlier first hitter. Otherwise the new bullet is the first hitter if it would hurt. |
| FinalFight.AppendAfterHit | frontend/src/pages/PasswordGame.jsx:232-276 | After the first hurting bullet, a further survivor only moves on behind the others. |
| FinalFight.AppendHitter | frontend/src/pages/PasswordGame.jsx:256-268 | The first survivor that would hurt is consumed and every earlier one moves on. |
| FinalFight.AppendMiss | frontend/src/pages/PasswordGame.jsx:232-276 | With no hit so far and none from the new survivor, it moves on behind the others. |
| FinalFight.RainVolley | frontend/src/pages/PasswordGame.jsx:731-744 | Code rain fires six columns. |
| FinalFight.Diagonals | frontend/src/pages/PasswordGame.jsx:745-771 | Each row of diagonals fires two bullets, one from each side. |
| FinalFight.GapRow | frontend/src/pages/PasswordGame.jsx:781-798 | A bar or net row fires every segment but the gap, and nothing in the gap. |
| FinalFight.GapRowCovers | frontend/src/pages/PasswordGame.jsx:781-798 | Every segment other than the gap is present. |
| FinalFight.GapIndex | frontend/src/pages/PasswordGame.jsx:782 | The random gap is a valid segment index. |
| FinalFight.GapRowsSize | frontend/src/pages/PasswordGame.jsx:773-800 | The rows fire one bullet fewer than their segment count each. |
| FinalFight.PacketVolleySize | frontend/src/pages/PasswordGame.jsx:809-834 | The packets fire 3, 4, 3, 4, 3 = 17 bullets. |
| FinalFight.StormSize | frontend/src/pages/PasswordGame.jsx:923-968 | Each half of the lagstorm fires 9 bullets. |
| FinalFight.LaserColumns | frontend/src/pages/PasswordGame.jsx:870-880 | No laser column is the safe column. |
| FinalFight.LaserColumnsMembers | frontend/src/pages/PasswordGame.jsx:875-880 | A column fires exactly when it is not the safe column and its skip draw did not skip it. |
| FinalFight.SafeColumnStaysSafe | frontend/src/pages/PasswordGame.jsx:869-921 | The safe column gets neither warning nor laser. A timer is set exactly when a warning is shown. Each laser lies under its warning. |
| FinalFight.LaserVolley | frontend/src/pages/PasswordGame.jsx:869-921 | At most one timer is set, exactly when some warning fires. It fires after the laser delay with one laser per warning. Every warning lives 350 ms from now. |
| FinalFight.BuildRain | frontend/src/pages/PasswordGame.jsx:731-744 | The loop builds exactly the code rain. |
| FinalFight.BuildDiagonals | frontend/src/pages/PasswordGame.jsx:745-771 | The loop builds exactly the diagonals. |
| FinalFight.BuildGapRows | frontend/src/pages/PasswordGame.jsx:773-800 | The nested loops build exactly the gap rows. |
| FinalFight.BuildPackets | frontend/src/pages/PasswordGame.jsx:809-834 | The nested loops build exactly the packet columns. |
| FinalFight.BuildStorm | frontend/src/pages/PasswordGame.jsx:923-968 | The nested loops build exactly one half of the storm. |
| FinalFight.BuildLasers | frontend/src/pages/PasswordGame.jsx:869-921 | The loop builds exactly the warnings and the laser timer. |
| FinalFight.SpawnAttack | frontend/src/pages/PasswordGame.jsx:725-1024 | `spawnAttack` fires the stage's pattern for its progress: rain, diagonals or bars in stage 1, and packets, nets with lasers, or the storm with heavy lasers in stage 2. |
| FinalFight.Attack | frontend/src/pages/PasswordGame.jsx:725-1024 | Stage 1 and the first 35% of stage 2 set no timer. Every attack sets at most one. |
| FinalFight.UpdateBullets | frontend/src/pages/PasswordGame.jsx:232-276 | The update loop equals the bullet-update specification. |
| FinalFight.FightStepSpec | frontend/src/pages/PasswordGame.jsx:188-279 | Inside a stage, the health follows the clock and the attack fires on its interval. The bullets become `UpdateSpec` of the survivors, with the new attack's bullets included. A hit starts invulnerability and sets its 400 ms timer. |
| FinalFight.FightStep | frontend/src/pages/PasswordGame.jsx:188-279 | Inside a stage the page stays in play, and the attack clock either moves to now or stays. |
| FinalFight.FinalFightPage.constructor | frontend/src/pages/PasswordGame.jsx:29-42 | The page starts on the intro, at full boss health, with no bullets. |
| FinalFight.FinalFightPage.StartStage1 | frontend/src/pages/PasswordGame.jsx:102-111 | Stage 1 starts now, with the player centred and a full boss. |
| FinalFight.FinalFightPage.StartStage2 | frontend/src/pages/PasswordGame.jsx:113-121 | Stage 2 starts now, with the player centred and the boss's health kept. |
| FinalFight.FinalFightPage.KeyDown | frontend/src/pages/PasswordGame.jsx:52-79 | During the break, a modifier key changes nothing and any other key starts stage 2: the player centred, no bullets, no invulnerability, the boss's health kept. On the intro, Enter starts stage 1 the same way at full health. Otherwise a key is only marked held. |
| FinalFight.FinalFightPage.KeyUp | frontend/src/pages/PasswordGame.jsx:81-84 | Releasing a key only unmarks it. |
| FinalFight.FinalFightPage.Frame | frontend/src/pages/PasswordGame.jsx:136-279 | A frame first moves the player. Stage 1's end goes to the break and stage 2's end to the win, and both leave the attack clock, invulnerability and timers as they were. Inside a stage, the frame does what `FightStep` says. |
| FinalFight.FinalFightPage.Fight | frontend/src/pages/PasswordGame.jsx:188-279 | The part after the stage check does what `FightStep` says. |
| FinalFight.FinalFightPage.SpawnPhase | frontend/src/pages/PasswordGame.jsx:192-217 | The boss's health follows the clock. When the attack interval has passed, an attack fires, its bullets and timers are appended and the attack clock moves to now. |
| FinalFight.FinalFightPage.BulletPhase | frontend/src/pages/PasswordGame.jsx:219-279 | The bullets become the update loop's result. A hit starts invulnerability and sets its 400 ms timer. |
| FinalFight.FinalFightPage.FireTimer | frontend/src/pages/PasswordGame.jsx:912-920 | A due laser timer adds its lasers, born now. The invulnerability timer ends invulnerability. |
| WaveShooter.EnemyType.Points | frontend/src/pages/network_command_center.jsx:27-65 | An enemy is worth 100 to 250 points by its type. |
| WaveShooter.Formation | frontend/src/pages/network_command_center.jsx:259-293 | The enemies of a wave are numbered 0, 1, 2, … in order, all alive and none diving. |
| WaveShooter.FormationLayout | frontend/src/pages/network_command_center.jsx:259-293 | Column `c` of row `r` is the enemy numbered after all earlier rows, at that row's height and of that row's type. |
| WaveShooter.WaveSizes | frontend/src/pages/network_command_center.jsx:71-107 | The four waves hold 24, 32, 40 and 24 enemies. Any other index gives none. |
| WaveShooter.WaveEnemies | frontend/src/pages/network_command_center.jsx:259-293 | An index outside the waves gives no enemies. The enemies of a wave are numbered from 0, all alive and none diving. |
| WaveShooter.CreateWaveEnemies | frontend/src/pages/network_command_center.jsx:259-293 | The nested loops with the running id build exactly the wave's formation. |
| WaveShooter.MoveX | frontend/src/pages/network_command_center.jsx:380-385 | The ship moves 6 pixels only when a single horizontal direction is held, and stays in 0..550. |
| WaveShooter.MoveY | frontend/src/pages/network_command_center.jsx:387-392 | The ship moves 6 pixels only when a single vertical direction is held, and stays in 350..640. |
| WaveShooter.AdvanceShots | frontend/src/pages/network_command_center.jsx:407 | Every shot kept has risen by 10 and is still on screen. |
| WaveShooter.AdvanceShotsKeeps | frontend/src/pages/network_command_center.jsx:407 | A shot more than 10 pixels from the top is kept, 10 pixels higher. |
| WaveShooter.AdvanceEnemyShots | frontend/src/pages/network_command_center.jsx:408-414 | Every enemy shot kept is on screen and is an input shot moved 5 down and by its own sideways speed. |
| WaveShooter.AdvanceEnemyShotsKeeps | frontend/src/pages/network_command_center.jsx:408-414 | A moved shot is kept exactly when it is on screen. |
| WaveShooter.AdvanceEnemyShotsAppend | frontend/src/pages/network_command_center.jsx:408-414 | Advancing a joined list joins the advanced parts, so the kept shots keep their order. |
| WaveShooter.Follow | frontend/src/pages/network_command_center.jsx:543-552 | A laser whose source enemy lives hangs under that enemy. Otherwise it stays where it was. Its source and timing never change. |
| WaveShooter.FindAlive | frontend/src/pages/network_command_center.jsx:544 | The laser's source is found exactly when a living enemy has its id. |
| WaveShooter.AdvanceLasers | frontend/src/pages/network_command_center.jsx:539-553 | No laser is added, and each kept laser is a live input laser following its enemy. |
| WaveShooter.AdvanceLasersKeeps | frontend/src/pages/network_command_center.jsx:539-553 | Every live laser is kept, following its enemy. |
| WaveShooter.AdvanceLasersAppend | frontend/src/pages/network_command_center.jsx:539-553 | Advancing a joined list joins the advanced parts, so the kept lasers keep their order. |
| WaveShooter.StrikeFacts | frontend/src/pages/network_command_center.jsx:561-585 | One shot kills exactly the living enemies it touches, pays their points, and reports a hit exactly when it scored. |
| WaveShooter.ResolveFacts | frontend/src/pages/network_command_center.jsx:561-607 | Only living enemies die and each pays once. A shot vanishes only by hitting. Points are gained exactly when some shot hit. |
| WaveShooter.NoContactNoChange | frontend/src/pages/network_command_center.jsx:561-607 | With no contact, the collision pass changes nothing. |
| WaveShooter.StrikeNone | frontend/src/pages/network_command_center.jsx:566-585 | A shot touching no living enemy changes nothing. |
| WaveShooter.KilledPointsChain | frontend/src/pages/network_command_center.jsx:561-585 | Points from two successive passes add up. |
| WaveShooter.ResolveShots | frontend/src/pages/network_command_center.jsx:561-607 | The nested loops equal the collision specification. |
| WaveShooter.AliveCount | frontend/src/pages/network_command_center.jsx:590 | The count of living enemies is 0 exactly when all are dead. |
| WaveShooter.MissedFacts | frontend/src/pages/network_command_center.jsx:611-622 | Some enemy shot hits the player exactly when the filter removes one. With no hit, nothing is removed. |
| WaveShooter.Hits | frontend/src/pages/network_command_center.jsx:609-680 | A tick costs at most three lives, one per kind of hit: shot, laser, body. None is lost while invulnerable. |
| WaveShooter.PressKey | frontend/src/pages/network_command_center.jsx:327-355 | Each mapped key sets exactly its own flag. Unmapped keys change nothing. |
| WaveShooter.CommandCenter.constructor | frontend/src/pages/network_command_center.jsx:299-317 | The game starts at wave 1 with the first formation, no shots, full lives and score 0. |
| WaveShooter.CommandCenter.KeyDown | frontend/src/pages/network_command_center.jsx:327-346 | Key presses count only while playing. |
| WaveShooter.CommandCenter.KeyUp | frontend/src/pages/network_command_center.jsx:348-355 | Key releases always count. |
| WaveShooter.CommandCenter.EnemyFire | frontend/src/pages/network_command_center.jsx:449-505 | Enemy shots and lasers are appended. |
| WaveShooter.CommandCenter.Tick | frontend/src/pages/network_command_center.jsx:379-680 | A tick moves the ship and fires as `MoveAndFire` says, and moves the lasers with the enemies from before the tick. The collision result is applied to the moved shots. Then, unless invulnerable, each kind of hit against the position, lasers and enemies from before the tick costs a life, and the hitting shots are removed. |
| WaveShooter.CommandCenter.MoveAndFire | frontend/src/pages/network_command_center.jsx:379-553 | The ship moves, fires if the cooldown allows, and all shots and lasers move on. |
| WaveShooter.CommandCenter.MoveShip | frontend/src/pages/network_command_center.jsx:379-407 | The ship moves and may fire from its previous position. The shots rise. |
| WaveShooter.CommandCenter.Collisions | frontend/src/pages/network_command_center.jsx:556-607 | The collision result is applied. Clearing a wave sets the next-wave timer, or wins after the last wave. |
| WaveShooter.CommandCenter.HitPhase | frontend/src/pages/network_command_center.jsx:556-680 | The collision result is applied, and a cleared wave sets the wave flag. It then sets the next-wave timer, or wins after the last wave. Unless invulnerable, each kind of hit on the player costs a life and sets a 2 s timer, and 0 lives loses the game. |
| WaveShooter.CommandCenter.PlayerHits | frontend/src/pages/network_command_center.jsx:609-680 | Each kind of hit costs one life and sets a 2 s timer. The game is lost at 0 lives. |
| WaveShooter.CommandCenter.LoseLife | frontend/src/pages/network_command_center.jsx:625-631 | One life is lost and invulnerability starts. |
| WaveShooter.CommandCenter.FireTimer | frontend/src/pages/network_command_center.jsx:596-600 | The next-wave timer loads the wave it saw. The invulnerability timer ends invulnerability. |
| WaveShooter.CommandCenter.Restart | frontend/src/pages/network_command_center.jsx:687-702 | Restart returns to wave 1 with the initial state. |
| WaveShooter.CommandCenter.ResetShip | frontend/src/pages/network_command_center.jsx:688-692 | The ship is back at the start with no shots. |
| WaveShooter.CommandCenter.ResetWave | frontend/src/pages/network_command_center.jsx:693-701 | The first wave, score, lives and flags are reset. |
| Notes.Submitted | frontend/src/pages/CommentsPage.jsx:26-40 | A blank draft is ignored. Otherwise the cleaned draft is saved first, the old notes follow, and the draft empties. |
| Notes.BlankDraftIgnored | frontend/src/pages/CommentsPage.jsx:28 | A draft saves nothing exactly when it is all white space. |
| Notes.SubmitKeepsOrder | frontend/src/pages/CommentsPage.jsx:38 | The older notes keep their order behind the new one. |
| Notes.Deleted | frontend/src/pages/CommentsPage.jsx:42-45 | No kept note has the deleted id, and each kept note was there before. |
| Notes.DeletedMembers | frontend/src/pages/CommentsPage.jsx:42-45 | A note is kept exactly when its id differs. |
| Notes.DeletedKeepsOrder | frontend/src/pages/CommentsPage.jsx:42-45 | Deleting keeps the survivors in order. |
| Notes.DeleteAbsentId | frontend/src/pages/CommentsPage.jsx:42-45 | Deleting an unknown id changes nothing. |
| Notes.DeleteIdempotent | frontend/src/pages/CommentsPage.jsx:42-45 | Deleting twice is the same as deleting once. |
| Notes.DeleteShortens | frontend/src/pages/CommentsPage.jsx:42-45 | The list shrinks exactly when a note has that id. |
| Notes.Cleared | frontend/src/pages/CommentsPage.jsx:47-52 | The list is emptied only when the dialog is confirmed. |
| Notes.Restored | frontend/src/pages/CommentsPage.jsx:13-18 | A visit starts from the stored list, or from nothing. |
| Notes.SavedAsWritten | frontend/src/pages/CommentsPage.jsx:20-24 | The save effect writes a non-empty list and leaves storage alone for an empty one. |
| Notes.DeletedLastNoteReturns | frontend/src/pages/CommentsPage.jsx:20-24 | Deleting the only note is never saved, so the note comes back on the next visit. |
| Notes.Saved | frontend/src/pages/CommentsPage.jsx:20-24 | The corrected save lets the next visit start from exactly the list shown. |
| Notes.DeleteSurvivesReload | frontend/src/pages/CommentsPage.jsx:20-24 | With the corrected save, a delete survives a reload. |
| Notes.CommentsPage.constructor | frontend/src/pages/CommentsPage.jsx:9-18 | A visit starts from the stored list with an empty draft. |
| Notes.CommentsPage.Save | frontend/src/pages/CommentsPage.jsx:20-24 | As written: a non-empty list is written to storage, and an empty one leaves storage as it was. |
| Notes.CommentsPage.SaveAll | frontend/src/pages/CommentsPage.jsx:20-24 | The corrected save writes every list, so the next visit starts from the list shown, even an empty one. |
| Notes.CommentsPage.ChangeText | frontend/src/pages/CommentsPage.jsx:92 | Typing replaces the draft. |
| Notes.CommentsPage.Submit | frontend/src/pages/CommentsPage.jsx:26-40 | The submit handler does what `Submitted` says. |
| Notes.CommentsPage.Delete | frontend/src/pages/CommentsPage.jsx:42-45 | The delete handler does what `Deleted` says. |
| Notes.CommentsPage.ClearAll | frontend/src/pages/CommentsPage.jsx:47-52 | A confirmed clear empties both the list and storage. |
| SignUp.WithField | frontend/src/pages/SignUpPage.jsx:17-21 | An input sets exactly the field it names. |
| SignUp.Validate | frontend/src/pages/SignUpPage.jsx:29-39 | A password mismatch is reported first, then a password under six characters. There is no error exactly when both checks pass. |
| SignUp.RequestFor | frontend/src/pages/SignUpPage.jsx:41-54 | A request is sent exactly when validation passes. It carries the e-mail and a password typed twice and at least six characters long. |
| SignUp.ResponseMessage | frontend/src/pages/SignUpPage.jsx:56-78 | Success is shown exactly for an OK reply. The server's non-empty detail is shown, otherwise the generic failure, and the offline text when the request fails. The message is never empty. |
| SignUp.SignUpPage.constructor | frontend/src/pages/SignUpPage.jsx:8-15 | The form starts empty, with no message and nothing loading. |
| SignUp.SignUpPage.InputChange | frontend/src/pages/SignUpPage.jsx:17-24 | Typing sets one field and clears a shown message. |
| SignUp.SignUpPage.TogglePassword | frontend/src/pages/SignUpPage.jsx:316 | The eye button flips the password's visibility. |
| SignUp.SignUpPage.Submit | frontend/src/pages/SignUpPage.jsx:26-42 | A failed check shows its error and sends nothing. Otherwise loading starts and the request is `RequestFor(form)`. |
| SignUp.SignUpPage.HandleResponse | frontend/src/pages/SignUpPage.jsx:56-82 | The reply's message is shown, a success schedules the redirect, and loading ends. |

## Left out

- Rendering, styles, images, sounds and the resize handlers are not modelled. Neither are the pages with no logic of their own: `HomePage`, `AboutUs`, `LoginPage`, `DailyFactModal`, the router and config.
- Navigation (`navigate`, `window.location`) is not modelled. The sign-up redirect is only the `redirecting` flag.
- `fetch` is not modelled. A reply arrives as the `Response` parameter; the account service is not part of this repository.
- `localStorage` on the dashboard is passed in (`Option<int>` progress, stored shown ids). On the notes page it is the `stored` field. JSON parse errors are not modelled.
- The profanity filter of the notes page is a library. It is the `clean` parameter, with no property assumed.
- Clocks (`Date.now()`, `performance.now()`) are parameters. One frame uses one reading, even where the source reads the clock twice.
- `Math.random()` draws are parameters (food cells, gaps, drifts, the safe column, laser skips). The snake's redraw loop is given a finite sequence of draws, so it may end without food.
- `setInterval` and `requestAnimationFrame` scheduling are not modelled. Each tick or frame is one method call. React's batching of state updates is replaced by the sequential order of the handler's statements, reading state captured at the start of the tick where the source's closure does.
- Pending `setTimeout` callbacks run in the order the caller picks via `FireTimer(k)`. Their due times are kept but not enforced.
- The wave shooter's enemy AI is not modelled: the formation sway, dives, shooting windows and their timers. Enemy shots and lasers enter through `EnemyFire`.
- WaveShooter.EnemyX: only the formation spacing is modelled. The sway offsets added each tick are not.
- Explosions and other display-only effects are not modelled.
- Floating-point coordinates are `real`, so there is no rounding. String lengths count characters, not UTF-16 code units.
- The browser's `required` and `minLength` checks on the sign-up form are not modelled. Only the handler's own checks are.
- SnakeGame.Game.Won: the navigation to the dashboard after 25 apples is not modelled. The predicate only says when the game is won.
- WaveShooter.CommandCenter.Tick: its contract leaves out the new timers, wave flag and game state. `Collisions` and `PlayerHits` state them phase by phase.

## Findings

| source | as written | input that shows it | evidently intended | confidence | as-written member | corrected member |
|---|---|---|---|---|---|---|
| frontend/src/pages/CommentsPage.jsx:20-24 | the save effect writes the list only when it is not empty | one stored note, deleted | deleting the last note also empties the stored copy | medium; not executed | Notes.DeletedLastNoteReturns | Notes.DeleteSurvivesReload |
