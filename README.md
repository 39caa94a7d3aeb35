# A verified model of the Turtles side-scroller engine

The game under `source/proposal/assets/js/` is a small canvas beat-'em-up. A
turtle walks right through a scrolling street. Foot soldiers walk in from the
edges to fight it. At the end of the street the boss drops in: it charges,
shoots bolts and rows of flames, reels when struck and floats off. Once it is
dead the ending plays and two message boards type out the closing text.

This project models the engine's core in Dafny, one module per script:

- `Timelines` (`timeline.js` and the tween it drives): `Timeline` and `Tween` classes; `Track` is the pure state of one timeline and `Step` is one `update`.
- `Messages` (`messager.js`): `Messager` class over the word wrap and typing counters, with module functions for the wrap.
- `Enemies` (`enemy.js`): `Enemy` class; each branch of `update` is a function on `State`, and the methods are proved against those functions.
- `Turtles` (`turtle.js`): `Turtle` class (the player) in the same form.
- `Shredders` (`shredder.js`): `Shredder` class (the boss) in the same form.
- `Flames` (`flames.js`): `Flame` and `Flames` classes.
- `Explosions` (`explosion.js`): `Explosion` class.
- `Levels` (`level.js`): `Level` class over the scroll state.
- `Projectiles` (`projectile.js`): `Projectile` class, and the `Shot` sum of a bolt or a row of flames that the game lists as projectiles.
- `Games` (`main.js`): `Game` class with the entity lists, split into `Effects` (projectiles and explosions), `Schedule` (tweens and timelines), `Cast` (enemies, boss, spawn points, entity list) and `Boards` (message boards).
- `Scene`, `Config`, `Sorting` (shared): boxes, facings, `inRange`, the random `Dice`, the callback cues; the spawn points and messages; the stable sort `render` uses for the entity list.

JavaScript numbers are modelled as `real`. Where the scripts truncate,
round or floor, the model does so explicitly (`Floor`, `Round`). Where a
counter is stored as an integer in practice, it is an `int`. Each call to
`Math.random` draws the next value from a `Dice` object, so the model is
exact for every sequence of draws. `Tween` completion callbacks and the
callbacks of timelines are `Cue` values. The update that fires a cue returns
it, and the game dispatches it right after the sweep that fired it. A cue
also carries the end value its tween writes to the game's state, such as the
spot a float brings the boss to, and that value is written when the cue is
handled.

The properties proved include these:
- A tween fires its callback at most once.
- A timeline schedule built by chained `add` calls is the prefix sums of the durations.
- A timeline sweep updates each unfinished timeline once and keeps exactly those, in order.
- The boss's float timeline is listed twice in its own list, so its sweep updates it twice per frame.
- The word wrap never makes a line longer than 28 characters, except for a single word that is longer itself.
- The message board completes once every character has been counted: it then shows every line in full, having counted exactly `totalChars + 1`.
- The counters of the soldiers, turtle and boss stay in range, and three hits kill a soldier.
- The turtle's eight-way steering follows the keys.
- Spawning consumes one spawn point per wave, and the waves sum to the soldiers spawned.
- `render` sorts the entity list stably by `getY`.
- `cleanUp` removes exactly the dead entries and keeps the others in order, up to a row of flames right of the screen, whose missing `destroy` ends the frame.
- Flames in a frame hurt the turtle at most twice.
- A playing frame keeps the game's invariant, leaves the entity list sorted by depth, and turns to `game_ending` exactly when the callback of the turtle's victory pose is dispatched.

## Model

| member | source | states |
|---|---|---|
| Timelines.Cues | source/proposal/assets/js/timeline.js:60 | an optional callback contributes exactly one cue when present, and none otherwise |
| Timelines.Crossed | source/proposal/assets/js/main.js:360-363 | a tween's callback fires exactly when its elapsed time goes from below its duration to at least it, and only if it has one |
| Timelines.Tween.constructor | source/proposal/assets/js/timeline.js:20-21 | a new tween holds its motion and has spent no time |
| Timelines.Tween.Update | source/proposal/assets/js/main.js:361-362 | `update` adds the frame time to the elapsed time and fires the callback on the advance that ends the tween |
| Timelines.SumFront | source/proposal/assets/js/timeline.js:26 | a sum of durations splits into its first term and the rest |
| Timelines.SumNonNegative | source/proposal/assets/js/timeline.js:26 | a sum of non-negative durations is non-negative |
| Timelines.CallbackFiresOnce | source/proposal/assets/js/main.js:360-369 | however a tween is advanced by non-negative steps, its callback fires at most once, and exactly when the steps carry it past its duration |
| Timelines.Schedule | source/proposal/assets/js/timeline.js:17-35 | `add` appends one trigger: the total duration without a position, the rounded position otherwise; the total duration grows by the tween's duration, or becomes the larger of itself and position plus duration |
| Timelines.ScanFrom | source/proposal/assets/js/timeline.js:64-75 | the trigger scan changes no entry count and moves the triggered index forward by at most the entries scanned |
| Timelines.Completed | source/proposal/assets/js/timeline.js:68-69 | no more tweens stop than were scanned |
| Timelines.FiredIn | source/proposal/assets/js/timeline.js:66 | no more callbacks fire than tweens were scanned |
| Timelines.ScanReadsOnlyRange | source/proposal/assets/js/timeline.js:64-75 | what the scan counts and fires depends only on the entries it scans |
| Timelines.AdvancedIn | source/proposal/assets/js/timeline.js:66 | exactly the scanned entries are advanced, each by the frame time |
| Timelines.FirstUnreached | source/proposal/assets/js/timeline.js:64-74 | the scan stops at the first trigger not yet reached; every trigger before it has been reached |
| Timelines.FirstUnreachedIs | source/proposal/assets/js/timeline.js:64-74 | the stop index is the only index with every earlier trigger reached and its own not |
| Timelines.Step | source/proposal/assets/js/timeline.js:54-76 | one `update` keeps a timeline well formed |
| Timelines.ScanAdvancesReached | source/proposal/assets/js/timeline.js:64-75 | the scan advances exactly the tweens from the triggered index up to the first unreached trigger |
| Timelines.ScanCountsStopped | source/proposal/assets/js/timeline.js:68-70 | the triggered index moves on once for each scanned tween that stops animating |
| Timelines.ScanCollectsFired | source/proposal/assets/js/timeline.js:66 | the scan collects the callbacks of the scanned tweens, in queue order |
| Timelines.FiredBelongToScanned | source/proposal/assets/js/timeline.js:64-75 | every callback the scan fires belongs to a scanned tween |
| Timelines.StepFacts | source/proposal/assets/js/timeline.js:54-76 | `update` keeps the schedule and advances the clock by the frame time; the timeline is finished exactly when it was or its time reached its duration, and that step fires only the timeline's callback; otherwise only tweens from the triggered index on fire, the index never moves back, and each tween is untouched or advanced by the frame time once its trigger is reached |
| Timelines.Timeline.constructor | source/proposal/assets/js/timeline.js:4-12 | a new timeline is paused, empty and not finished |
| Timelines.Timeline.Add | source/proposal/assets/js/timeline.js:17-48 | `add` queues the tween, schedules its trigger as `Schedule` says, changes nothing else and returns the timeline itself |
| Timelines.Timeline.Update | source/proposal/assets/js/timeline.js:54-76 | `update` leaves the timeline in the state `Step` gives and returns the callbacks it fires |
| Timelines.ScheduleAll | source/proposal/assets/js/timeline.js:17-35 | a series of adds schedules one trigger per tween |
| Timelines.ChainedAddsArePrefixSums | source/proposal/assets/js/timeline.js:24-27 | adds without a position trigger each tween at the sum of the durations before it, and the total is the sum of them all |
| Timelines.TotalNeverDecreases | source/proposal/assets/js/timeline.js:26-34 | with non-negative durations the total duration never decreases over a series of adds |
| Timelines.Visit | source/proposal/assets/js/main.js:373-374 | the timeline sweep updates an entry only if it is not finished, and keeps it well formed |
| Timelines.TrackAt | source/proposal/assets/js/main.js:372-380 | every timeline stays well formed while a sweep runs |
| Timelines.KeptTimelines | source/proposal/assets/js/main.js:372-380 | a sweep keeps no more entries than it visited |
| Timelines.KeptTweens | source/proposal/assets/js/main.js:360-369 | a tween sweep keeps no more entries than it visited |
| Timelines.VisitTimeline | source/proposal/assets/js/main.js:373-379 | the sweep body drops a finished timeline and updates and keeps any other |
| Timelines.SweepTimelines | source/proposal/assets/js/main.js:372-380 | the timeline sweep leaves every timeline as `TrackAt` says, keeps `KeptTimelines` and fires `TimelineCues` |
| Timelines.SweepDistinctTimelines | source/proposal/assets/js/main.js:372-380 | over a list that holds no timeline twice, the sweep updates each unfinished timeline once, keeps exactly those in order, and fires only their callbacks |
| Timelines.VisitTween | source/proposal/assets/js/main.js:361-367 | the sweep body drops a tween that stopped animating and advances and keeps any other |
| Timelines.SweepTweens | source/proposal/assets/js/main.js:360-369 | the tween sweep leaves every tween as `ElapsedAt` says, keeps `KeptTweens` and fires `SweptCues` |
| Timelines.DistinctTrackAt | source/proposal/assets/js/main.js:372-380 | with no timeline listed twice, a sweep updates each unfinished timeline exactly once |
| Timelines.DistinctSweepKeepsUnfinished | source/proposal/assets/js/main.js:373-379 | with no timeline listed twice, the sweep keeps exactly the timelines that were unfinished |
| Timelines.StepTimes | source/proposal/assets/js/timeline.js:54-76 | repeated updates keep a timeline well formed |
| Timelines.SweepStepsOncePerListing | source/proposal/assets/js/main.js:372-380 | a sweep updates a timeline once for every entry that holds it, so a timeline listed twice is updated twice in one frame |
| Timelines.DistinctElapsedAt | source/proposal/assets/js/main.js:360-369 | with no tween listed twice, a sweep advances each animating tween exactly once |
| Timelines.UnfinishedDistinct | source/proposal/assets/js/main.js:372-380 | the unfinished timelines are entries of the list, none twice |
| Timelines.DistinctSweepKeepsAnimating | source/proposal/assets/js/main.js:361-367 | with no tween listed twice, the sweep keeps exactly the tweens that were animating |
| Timelines.AnimatingDistinct | source/proposal/assets/js/main.js:360-369 | the animating tweens are entries of the list, none twice |
| Timelines.KeptAreListed | source/proposal/assets/js/main.js:372-380 | the timelines a sweep keeps are entries of the swept list |
| Timelines.KeptTweensListed | source/proposal/assets/js/main.js:360-369 | the tweens a sweep keeps are entries of the swept list |
| Timelines.SweptCuesBelong | source/proposal/assets/js/main.js:360-369 | every callback a tween sweep fires belongs to a swept tween |
| Timelines.TrackAtKeepsSchedule | source/proposal/assets/js/main.js:372-380 | a sweep leaves every timeline's queue and callback alone |
| Timelines.TimelineCuesBelong | source/proposal/assets/js/main.js:372-380 | every callback a timeline sweep fires belongs to one of the swept timelines as it stood before |
| Messages.SentenceList | source/proposal/assets/js/messager.js:6 | `init` wraps a single string into a one-element list and keeps a list as it is |
| Messages.Split | source/proposal/assets/js/messager.js:39 | `split(' ')` gives at least one piece |
| Messages.SplitHasNoSpaces | source/proposal/assets/js/messager.js:39 | no piece of `split(' ')` contains a space |
| Messages.JoinSplit | source/proposal/assets/js/messager.js:39 | splitting at spaces loses nothing: joining the pieces with single spaces gives the sentence back |
| Messages.SplitJoin | source/proposal/assets/js/messager.js:39 | pieces without spaces are recovered from their join |
| Messages.SplitWord | source/proposal/assets/js/messager.js:39 | a word without spaces splits into itself |
| Messages.SplitWordThen | source/proposal/assets/js/messager.js:39 | a word followed by a space comes first among the pieces |
| Messages.Strip | source/proposal/assets/js/messager.js:46-56 | `replace` of the bar removes exactly one character when the word holds a bar, and none otherwise |
| Messages.StripRemovesFirstBar | source/proposal/assets/js/messager.js:46-56 | `replace` removes only the first bar, keeping the characters before and after it in order |
| Messages.Spaced | source/proposal/assets/js/messager.js:50-53 | a word adds its text less the first bar, followed by one space |
| Messages.Lines | source/proposal/assets/js/messager.js:35-61 | `textIntoLines` always pushes at least one line, the final buffer |
| Messages.FlattenLength | source/proposal/assets/js/messager.js:27-29 | the length of the lines written out is the sum that `init` adds up into `totalChars` |
| Messages.FoldKeepsText | source/proposal/assets/js/messager.js:44-57 | the word loop loses no character: pushed lines then buffer spell the spaced words |
| Messages.LinesKeepText | source/proposal/assets/js/messager.js:35-61 | the lines, concatenated, are every word of the sentence in order, each less its first bar and followed by a space |
| Messages.TotalCharsCountsWords | source/proposal/assets/js/messager.js:27-29 | `totalChars` counts exactly the characters the board shows |
| Messages.FoldFits | source/proposal/assets/js/messager.js:45-56 | in the word loop, every line and the buffer fit in 28 characters or hold a single word |
| Messages.LinesFit | source/proposal/assets/js/messager.js:36-56 | every line fits in 28 characters, unless it holds a single word too long to fit anywhere |
| Messages.BarStartsLine | source/proposal/assets/js/messager.js:45-56 | a word with a bar always starts a new line, whether or not it fits; a word without one that fits joins the current line |
| Messages.FoldNonEmpty | source/proposal/assets/js/messager.js:44-57 | after a word the buffer is never empty, and no pushed line after the first is empty |
| Messages.LaterLinesNonEmpty | source/proposal/assets/js/messager.js:35-61 | only the first line can be empty |
| Messages.FoldFirstLine | source/proposal/assets/js/messager.js:44-57 | the first line of the word loop is empty exactly when the first word holds a bar or does not fit |
| Messages.FirstLineEmptyIff | source/proposal/assets/js/messager.js:35-61 | the first line is empty exactly when the first word holds a bar or is too long; the board then shows nothing, though it still completes |
| Messages.Put | source/proposal/assets/js/messager.js:95 | an array store at the end appends; one inside replaces that entry and keeps the others |
| Messages.SumLengthsPrefix | source/proposal/assets/js/messager.js:27-29 | the lengths of some of the lines never add up to more than all of them |
| Messages.SumLengthsOfLine | source/proposal/assets/js/messager.js:92-96 | what is shown is the full lines before the current one plus part of it |
| Messages.SumLengthsPutLine | source/proposal/assets/js/messager.js:95 | storing the current line's text replaces what is shown of it |
| Messages.RevealKeepsLayout | source/proposal/assets/js/messager.js:88-104 | a frame swap keeps the shown lines whole before the current one, the current one partly shown, and none beyond |
| Messages.RevealKeepsCounting | source/proposal/assets/js/messager.js:88-104 | after the first, each frame swap counts one more character and shows one more |
| Messages.RevealKeepsShowing | source/proposal/assets/js/messager.js:88-104 | a frame swap keeps the shape of the board |
| Messages.FreshBoard | source/proposal/assets/js/messager.js:7-29 | a board that has shown nothing yet has the shape of the board |
| Messages.LinesRemainWhileShowing | source/proposal/assets/js/messager.js:81-86 | while characters remain to be counted, the board is not past its last line, so the early return at line 83 is never taken |
| Messages.ShownInFull | source/proposal/assets/js/messager.js:68-78 | once more characters have been counted than there are, every line is shown in full and exactly one more than the total has been counted |
| Messages.Messager.constructor | source/proposal/assets/js/messager.js:5-30 | `init` stores the sentences, wraps the first one, sums its line lengths, zeroes the counters, takes 12 fps and a font size of 11 unless one is given, and leaves a board of sound shape |
| Messages.Messager.Update | source/proposal/assets/js/messager.js:65-108 | `update` fires the completion exactly once, on the first call after every character has been counted, and changes only the flag and the clock then; it swaps only when strictly more than the frame time has passed, counting one character and revealing as `Reveal` says; it keeps the board's shape |
| Messages.Messager.FrameSwap | source/proposal/assets/js/messager.js:88-106 | a frame swap counts one character, reveals as `Reveal` says and resets the clock |
| Messages.TextIntoLines | source/proposal/assets/js/messager.js:35-61 | the word loop gives exactly `Lines` of the sentence |
| Messages.Prepare | source/proposal/assets/js/messager.js:6-29 | `init` computes the sentence list, the lines of the first sentence and their total length |
| Messages.TotalChars | source/proposal/assets/js/messager.js:27-29 | the loop of `init` adds up the line lengths |
| Messages.ShowLine | source/proposal/assets/js/messager.js:92-101 | the character loop rebuilds the shown part of the current line, moving to the next line when the last character is reached, as `Reveal` says |
| Enemies.Frames | source/proposal/assets/js/enemy.js:57-75 | every sequence has one to four frames, the same for both facings |
| Enemies.Decrement | source/proposal/assets/js/enemy.js:264 | `seqCount--` lowers a number by one and turns a frame array of two or more entries, or NaN, into NaN |
| Enemies.AttackCountNeverEnds | source/proposal/assets/js/enemy.js:263-276 | the count an attack stores is the frame array, which the decrement turns into NaN and which is never again loosely equal to 0: an attack never ends by its animation |
| Enemies.FreshIsSound | source/proposal/assets/js/enemy.js:6-86 | `init` leaves a soldier with 6 health whose counters and flags are in range |
| Enemies.AfterThink | source/proposal/assets/js/enemy.js:142-149 | `think` stops travelling, stands, and thinks for 15 to 24 updates |
| Enemies.AfterAttack | source/proposal/assets/js/enemy.js:169-183 | `attack` is ignored while an attack plays; otherwise it starts the attack sequence and strikes the player exactly when in range |
| Enemies.AfterHurt | source/proposal/assets/js/enemy.js:185-203 | `hurt` takes the player's damage; a blow that leaves no health kills, any other stops travel and attack and starts the hurt pause |
| Enemies.HurtsDrainHealth | source/proposal/assets/js/enemy.js:186 | each blow takes the player's damage of 2 from the health |
| Enemies.ThirdHurtKills | source/proposal/assets/js/enemy.js:185-203 | a soldier at full health survives two blows and starts dying on the third |
| Enemies.Faced | source/proposal/assets/js/enemy.js:285-291 | the soldier faces left exactly when the player's centre is to its left |
| Enemies.AnimateSwapsFrames | source/proposal/assets/js/enemy.js:241-281 | a frame swap happens only after strictly more than the frame time, leaves the cursor inside the sequence and resets the clock; otherwise only the clock moves |
| Enemies.AnimateNeverEndsSequence | source/proposal/assets/js/enemy.js:263-276 | with the count in its possible shapes, a frame swap never reaches the end of a one-shot sequence, so it clears no flag and draws nothing |
| Enemies.BehaveKeepsInvariant | source/proposal/assets/js/enemy.js:295-334 | the state machine of `update` keeps the counters and flags in range |
| Enemies.MuseKeepsInvariant | source/proposal/assets/js/enemy.js:337-339 | the random afterthought keeps the counters and flags in range |
| Enemies.UpdateKeepsInvariant | source/proposal/assets/js/enemy.js:283-343 | `update` keeps the counters and flags in range |
| Enemies.UpdateKeepsAttackAndHurt | source/proposal/assets/js/enemy.js:263-297 | once attacking, a soldier stays attacking through any number of updates; a hurt soldier stays hurt until its recovery tween completes |
| Enemies.ThinkingCountsDown | source/proposal/assets/js/enemy.js:298-305 | a thought counts down by one per update; at its end the soldier attacks, and strikes, if the player is in range, and travels again otherwise |
| Enemies.WalkApproaches | source/proposal/assets/js/enemy.js:306-334 | a travelling soldier moves across by its speed and in depth by half of it towards the player's rectangle, not at all along an axis where they overlap; it stops and thinks exactly when it ends close to the player's centre |
| Enemies.DeathTakes1100 | source/proposal/assets/js/enemy.js:205-228 | the death timeline finishes on the first update that brings it to 1100 ms, and none before; that update fires the death, with the explosion placed at the end of the fall |
| Enemies.DeathCuesNameIt | source/proposal/assets/js/enemy.js:215-225 | the death timeline's callbacks act on the dying soldier and no other |
| Enemies.Enemy.constructor | source/proposal/assets/js/enemy.js:6-86 | `init` leaves the soldier's starting state, whose counters are in range |
| Enemies.Enemy.CollisionRect | source/proposal/assets/js/enemy.js:128-135 | the floor rectangle starts at the position and is the soldier's width across and depth deep |
| Enemies.Enemy.CenterPoint | source/proposal/assets/js/enemy.js:105-110 | the centre point is the middle of the floor rectangle |
| Enemies.Enemy.GetY | source/proposal/assets/js/enemy.js:116-118 | the depth used for sorting lies within the floor rectangle |
| Enemies.Enemy.Think | source/proposal/assets/js/enemy.js:142-149 | `think` leaves the state `AfterThink` gives and draws once |
| Enemies.Enemy.Attack | source/proposal/assets/js/enemy.js:169-183 | `attack` leaves the state and the strike `AfterAttack` gives for the range test as it stood |
| Enemies.Enemy.Decide | source/proposal/assets/js/enemy.js:153-167 | `decide` attacks when the player is in range and walks on otherwise |
| Enemies.Enemy.Hurt | source/proposal/assets/js/enemy.js:185-203 | `hurt` leaves the state `AfterHurt` gives; a killing blow returns the death timeline, any other the 1000 ms tween that ends the pause, holding the soldier at the x it was hurt at |
| Enemies.Enemy.Kill | source/proposal/assets/js/enemy.js:205-228 | `kill` starts dying and returns a fresh death timeline: fall for 800 ms, bounce from 100 ms, lie still for 200 ms |
| Enemies.Enemy.Fall | source/proposal/assets/js/enemy.js:215 | the end of the fall-away tween leaves the soldier at the fall's end point with the dead sequence, and changes nothing else |
| Enemies.Enemy.Recover | source/proposal/assets/js/enemy.js:196-199 | the end of the hurt tween leaves the soldier at the x it was pinned to with the hurt flag cleared, and changes nothing else |
| Enemies.Enemy.Die | source/proposal/assets/js/enemy.js:230-235 | `die` clears the dying flag and sets the dead one |
| Enemies.Enemy.CountDown | source/proposal/assets/js/enemy.js:263-276 | the count-down of `animate` leaves the state `CountedDown` gives |
| Enemies.Enemy.Animate | source/proposal/assets/js/enemy.js:241-281 | `animate` leaves the state `Animated` gives |
| Enemies.Enemy.Approach | source/proposal/assets/js/enemy.js:307-322 | the first half of a walk takes the walk sequence and steps towards the player |
| Enemies.Enemy.Walk | source/proposal/assets/js/enemy.js:306-334 | the walking branch of `update` leaves the state `Walked` gives |
| Enemies.Enemy.EndThought | source/proposal/assets/js/enemy.js:299-304 | the end of a thought clears the action flags and decides |
| Enemies.Enemy.Behave | source/proposal/assets/js/enemy.js:295-334 | the state machine of `update` leaves the state `Behaved` gives and reports whether the soldier struck |
| Enemies.Enemy.Muse | source/proposal/assets/js/enemy.js:337-339 | the random afterthought leaves the state `Mused` gives |
| Enemies.Enemy.Update | source/proposal/assets/js/enemy.js:283-343 | `update` leaves the state `AfterUpdate` gives, with the player's rectangle, the range test and the draws |
| Enemies.StatesOf | source/proposal/assets/js/enemy.js:283-343 | the states of a list of soldiers, entry by entry |
| Enemies.DeathTimeline | source/proposal/assets/js/enemy.js:211-225 | the timeline `kill` builds, scheduled as `DeathTrack` says, with the fall's end point fixed when it is built |
| Enemies.Spawn | source/proposal/assets/js/enemy.js:88-98 | `spawn` with a position places the soldier there without drawing; without one it draws three times and places it 40 to 55 pixels beyond the left or right edge, at a depth from 112 to 224 |
| Turtles.FrameCount | source/proposal/assets/js/turtle.js:80-111 | every sequence has one to sixteen frames, the same for both facings |
| Turtles.FreshIsSound | source/proposal/assets/js/turtle.js:6-120 | `init` leaves a turtle with 3 lives and 16 health whose counters and flags are in range |
| Turtles.SetDirComposesParts | source/proposal/assets/js/turtle.js:264-298 | the chain of tests in `setDir` takes the vertical part (up over down) and the horizontal part (left over right) separately; no flag gives no direction, and the facing changes only with a horizontal part |
| Turtles.JumpIsSilent | source/proposal/assets/js/turtle.js:208-214 | the jump timeline calls nothing back |
| Turtles.AttackGuards | source/proposal/assets/js/turtle.js:164-173 | an attack starts exactly when the turtle neither attacks nor jumps and the key was released; it then plays three frame swaps unless a count is already running, and otherwise changes nothing |
| Turtles.HeldKeyAttacksOnce | source/proposal/assets/js/turtle.js:167-196 | a held key attacks once: a second attack needs `resetAttack` in between, even after the first has ended |
| Turtles.JumpGuards | source/proposal/assets/js/turtle.js:198-206 | a jump starts exactly when the turtle neither jumps, attacks nor reels and the key was released; it then plays eight frame swaps unless a count is already running |
| Turtles.JumpTakes700 | source/proposal/assets/js/turtle.js:208-214 | the jump timeline rises for 400 ms then falls for 300: it finishes on the first update that reaches 700 ms, and fires nothing |
| Turtles.HurtOutcomes | source/proposal/assets/js/turtle.js:219-238 | `hurt` is ignored while hurt or jumping; a blow that empties the health costs a life and refills the health, without a hurt; any other takes the amount and reels for 30 updates and two frame swaps; lives are never checked |
| Turtles.ClampKeepsOnField | source/proposal/assets/js/turtle.js:355-372 | after the bounds step the turtle is inside the field (up to 135 or 170 across, from 135 down to the bottom edge); a scroll is asked for exactly when it was pushed back from the right edge while heading right; only its position changes, and not at all when it was inside |
| Turtles.MovementRules | source/proposal/assets/js/turtle.js:304-352 | no move while attacking or reeling; otherwise a cardinal direction moves one coordinate by the speed and each of the four diagonals moves both by the cosine and sine parts, with the signs of its direction |
| Turtles.SwapKeepsCursor | source/proposal/assets/js/turtle.js:376-395 | a frame swap keeps the cursor inside the current sequence, restarts it on a new sequence or facing, and remembers the sequence |
| Turtles.CountDownEnds | source/proposal/assets/js/turtle.js:402-411 | a one-shot sequence counts down one per frame swap, and the swap that brings it to zero clears the attack, the jump and the count |
| Turtles.OneShotLasts | source/proposal/assets/js/turtle.js:402-411 | a one-shot sequence with c swaps to go ends after exactly c swaps and no sooner |
| Turtles.ActKeepsInvariant | source/proposal/assets/js/turtle.js:303-352 | the state machine of `update` keeps the counters and flags in range |
| Turtles.AnimateKeepsInvariant | source/proposal/assets/js/turtle.js:375-414 | the animation keeps the counters and flags in range and does not move the turtle |
| Turtles.UpdateKeepsInvariant | source/proposal/assets/js/turtle.js:300-419 | `update` keeps the counters and flags in range, leaves the turtle inside the field and drops the moving flags |
| Turtles.ActionsKeepInvariant | source/proposal/assets/js/turtle.js:164-256 | starting an attack, a jump, a hurt or the victory pose keeps the counters and flags in range |
| Turtles.Struck | source/proposal/assets/js/turtle.js:176-180 | a blow takes the turtle's damage from a soldier in range that is neither dying nor dead, and leaves any other alone |
| Turtles.BlownStates | source/proposal/assets/js/turtle.js:175-182 | after the blows reach the first k soldiers, those are struck as they stood before the attack and the others are unchanged |
| Turtles.Recoveries | source/proposal/assets/js/turtle.js:175-182 | the blows start at most one recovery per soldier |
| Turtles.Deaths | source/proposal/assets/js/turtle.js:175-182 | the blows start at most one death timeline per soldier |
| Turtles.RecoveriesNameSoldiers | source/proposal/assets/js/turtle.js:175-182 | every recovery the blows start calls back to a soldier of the list, holding it where it was struck |
| Turtles.DeathsNameSoldiers | source/proposal/assets/js/turtle.js:175-182 | every death timeline the blows start is well formed and acts on a soldier of the list |
| Turtles.StrikeOne | source/proposal/assets/js/turtle.js:176-181 | the blow on one soldier extends the blows and what they start by that soldier's share, with only fresh tweens and timelines |
| Turtles.Blow | source/proposal/assets/js/turtle.js:176-181 | the blow on one soldier hurts it exactly when it is in range and neither dying nor dead, and returns the recovery or death timeline that hurt starts |
| Turtles.StrikeAll | source/proposal/assets/js/turtle.js:175-182 | the blows of an attack on the soldiers, in list order: each in range and neither dying nor dead is hurt, no other changes, and the fresh tweens and timelines are exactly those the hurts start |
| Turtles.BossStruck | source/proposal/assets/js/turtle.js:184-191 | the blow changes the boss only if it is in range and neither dying nor dead |
| Turtles.StrikeBoss | source/proposal/assets/js/turtle.js:184-191 | the blow on the boss, when spawned, leaves it as `BossStruck` says, without queueing anything on it |
| Turtles.Strike | source/proposal/assets/js/turtle.js:175-191 | an attack's blows: the soldiers in list order, then the boss |
| Turtles.Turtle.constructor | source/proposal/assets/js/turtle.js:6-120 | `init` leaves the turtle's starting state |
| Turtles.Turtle.CollisionRect | source/proposal/assets/js/turtle.js:150-157 | the floor rectangle starts at the position and is the turtle's width across and depth deep |
| Turtles.Turtle.CenterPoint | source/proposal/assets/js/turtle.js:127-132 | the centre point is the middle of the floor rectangle |
| Turtles.Turtle.GetY | source/proposal/assets/js/turtle.js:138-140 | the depth used for sorting lies within the floor rectangle |
| Turtles.Turtle.SetDir | source/proposal/assets/js/turtle.js:264-298 | `setDir` derives the direction and facing from the flags, as `Pressed` says |
| Turtles.Turtle.MoveUp | source/proposal/assets/js/turtle.js:259 | `moveUp` sets the up flag and derives the direction |
| Turtles.Turtle.MoveDown | source/proposal/assets/js/turtle.js:260 | `moveDown` sets the down flag and derives the direction |
| Turtles.Turtle.MoveLeft | source/proposal/assets/js/turtle.js:261 | `moveLeft` sets the left flag and derives the direction |
| Turtles.Turtle.MoveRight | source/proposal/assets/js/turtle.js:262 | `moveRight` sets the right flag and derives the direction |
| Turtles.Turtle.BeginAttack | source/proposal/assets/js/turtle.js:164-173 | the start of `attack` leaves the state `Attacked` gives and reports whether the attack started |
| Turtles.Turtle.Attack | source/proposal/assets/js/turtle.js:164-192 | `attack` leaves the state `Attacked` gives; an attack that does not start strikes no one, and one that starts deals the blows as `Strike` says |
| Turtles.Turtle.ResetAttack | source/proposal/assets/js/turtle.js:194-196 | `resetAttack` allows the next attack and changes nothing else |
| Turtles.Turtle.Jump | source/proposal/assets/js/turtle.js:198-215 | `jump` leaves the state `Jumped` gives and, when the jump starts, returns a fresh jump timeline |
| Turtles.Turtle.Hurt | source/proposal/assets/js/turtle.js:219-233 | `hurt` leaves the state `Hurted` gives and does not move the turtle |
| Turtles.Turtle.Kill | source/proposal/assets/js/turtle.js:235-238 | `kill` costs a life and refills the health |
| Turtles.Turtle.End | source/proposal/assets/js/turtle.js:240-256 | `end` strikes the victory pose and returns its fresh 1500 ms tween, whose end starts the ending |
| Turtles.Turtle.Walk | source/proposal/assets/js/turtle.js:315-351 | the moving branch of `update` leaves the state `Walked` gives |
| Turtles.Turtle.Act | source/proposal/assets/js/turtle.js:303-352 | the state machine of `update` leaves the state `Acted` gives |
| Turtles.Turtle.Clamp | source/proposal/assets/js/turtle.js:355-372 | the bounds step leaves the state and the scroll request `Clamped` gives |
| Turtles.Turtle.Swap | source/proposal/assets/js/turtle.js:378-395 | the frame-cursor part of a swap leaves the state `Swapped` gives |
| Turtles.Turtle.CountDown | source/proposal/assets/js/turtle.js:402-411 | the count-down part of a swap leaves the state `CountedDown` gives |
| Turtles.Turtle.Animate | source/proposal/assets/js/turtle.js:375-414 | the animation leaves the state `Animated` gives |
| Turtles.Turtle.Update | source/proposal/assets/js/turtle.js:300-419 | `update` leaves the state and the scroll request `AfterUpdate` gives |
| Turtles.Turtle.Move | source/proposal/assets/js/turtle.js:300-372 | the first part of `update` leaves the state `Moved` gives |
| Turtles.Turtle.Settle | source/proposal/assets/js/turtle.js:375-418 | the end of `update` animates and drops the moving flags |
| Turtles.JumpTimeline | source/proposal/assets/js/turtle.js:208-212 | the jump timeline is a fresh timeline scheduled as `JumpTrack`: 400 ms up, then 300 ms down |
| Shredders.FrameCount | source/proposal/assets/js/shredder.js:64-84 | every sequence has one to three frames, the same for both facings |
| Shredders.ArrivalIsSound | source/proposal/assets/js/shredder.js:6-96 | `init` leaves the boss entering, with 32 health, and its counters and flags in range |
| Shredders.Faced | source/proposal/assets/js/shredder.js:260-266 | the boss faces left exactly when the player's centre is to its left |
| Shredders.Launched | source/proposal/assets/js/shredder.js:292-300 | an attack launches in the boss's facing, a bolt exactly when the attack is forward |
| Shredders.HurtIgnoredWhileEnteringOrFloating | source/proposal/assets/js/shredder.js:191-193 | `hurt` is ignored while the boss enters or floats |
| Shredders.HurtLandsBelowCap | source/proposal/assets/js/shredder.js:196-226 | a hit lands only while fewer than four have landed since the last recoil: it counts itself, takes the player's damage, stops the attack and reels the boss for 30 updates; a lethal hit leaves it dead, neither dying nor hurt |
| Shredders.OnlyRecoilResetsHits | source/proposal/assets/js/shredder.js:313-327 | no step but the end of a recoil lowers the hit count |
| Shredders.HurtKeepsInvariant | source/proposal/assets/js/shredder.js:191-211 | `hurt` keeps the counters and flags in range |
| Shredders.ActKeepsInvariant | source/proposal/assets/js/shredder.js:278-345 | the state machine of `update` keeps the counters and flags in range |
| Shredders.HearKeepsInvariant | source/proposal/assets/js/shredder.js:147-322 | every completion callback keeps the counters and flags in range |
| Shredders.HearAllKeepsInvariant | source/proposal/assets/js/shredder.js:347-368 | the callbacks of a sweep, heard in order, keep the counters and flags in range |
| Shredders.UpdateKeepsInvariant | source/proposal/assets/js/shredder.js:258-373 | `update` keeps the counters and flags in range, whatever callbacks its sweeps fire |
| Shredders.ChargeCountsDown | source/proposal/assets/js/shredder.js:281-304 | the charge counts down by one per update; its last update picks the forward attack exactly when the draw is below 0.35, launches a bolt for it and flames otherwise, and holds the attack for 50 updates |
| Shredders.AttackEndsInFloat | source/proposal/assets/js/shredder.js:305-312 | once the charge is over an attack counts down, and its last update, and only that, floats the boss away, drawing twice |
| Shredders.ChargeLasts | source/proposal/assets/js/shredder.js:281-304 | a charge of c updates ends after exactly c updates, having drawn once, and the boss then holds its attack for 50 |
| Shredders.CallbacksStartCharge | source/proposal/assets/js/shredder.js:139-186 | the end of the entrance puts the boss at row 180 and, like the landing of a float, starts a 50-update charge; the end of a float's middle leg puts the boss at its spot; the end of a recoil puts the boss at the recoil's spot, resets the hit count and floats the boss, drawing twice |
| Shredders.FloatTakes3000 | source/proposal/assets/js/shredder.js:158-185 | a float is three chained legs of 1000 ms: it finishes on the first update that reaches 3000 ms and then fires the landing; its only callbacks are the move to its spot and the landing |
| Shredders.FloatSweptTwice | source/proposal/assets/js/shredder.js:158-185 | `float` lists its timeline twice, so one sweep of the boss's timelines updates an unfinished float timeline twice |
| Shredders.CountTwo | source/proposal/assets/js/shredder.js:164-178 | a timeline held at exactly two adjacent entries is counted twice |
| Shredders.CountNone | source/proposal/assets/js/shredder.js:359-368 | a list that does not hold a timeline counts it zero times |
| Shredders.Shredder.constructor | source/proposal/assets/js/shredder.js:6-156 | `init` leaves the arrival state and, through `enter`, one fresh 6300 ms entrance tween and no timeline |
| Shredders.Shredder.CollisionRect | source/proposal/assets/js/shredder.js:125-132 | the floor rectangle starts at the position and is the boss's width across and depth deep |
| Shredders.Shredder.CenterPoint | source/proposal/assets/js/shredder.js:102-107 | the centre point is the middle of the floor rectangle |
| Shredders.Shredder.GetY | source/proposal/assets/js/shredder.js:113-115 | the depth used for sorting lies within the floor rectangle |
| Shredders.Shredder.Attack | source/proposal/assets/js/shredder.js:187-189 | `attack` sets the attacking flag and nothing else |
| Shredders.Shredder.Float | source/proposal/assets/js/shredder.js:158-185 | `float` takes the float sequence, draws twice and appends one fresh three-leg timeline twice; the new entry's state is `FloatTrack` of the drawn `Landing`, so the middle leg moves the boss to that spot |
| Shredders.Shredder.Kill | source/proposal/assets/js/shredder.js:213-220 | `kill` stops the hurt and dies |
| Shredders.Shredder.Die | source/proposal/assets/js/shredder.js:222-229 | `die` clears the dying flag and sets the dead one |
| Shredders.Shredder.TakeHit | source/proposal/assets/js/shredder.js:199-204 | a landed hit stops the attack, reels for 30 updates, counts itself and takes the player's damage |
| Shredders.Shredder.Hurt | source/proposal/assets/js/shredder.js:191-211 | `hurt` leaves the state `Hurted` gives and queues nothing |
| Shredders.Shredder.Charge | source/proposal/assets/js/shredder.js:281-304 | the charging branch of `update` leaves the state, the draws and the launch `Charged` gives |
| Shredders.Shredder.HoldAttack | source/proposal/assets/js/shredder.js:305-312 | the attacking branch of `update` leaves the state `Attacked` gives; when the boss was attacking it appends the float timeline twice (state `FloatTrack(Landing(...))`), otherwise the timeline list is unchanged |
| Shredders.Shredder.Reel | source/proposal/assets/js/shredder.js:313-327 | the hurt branch of `update` leaves the state `Reeled` gives; its last update draws the direction and returns the fresh 100 ms recoil tween to `RecoilSpot` |
| Shredders.Shredder.Act | source/proposal/assets/js/shredder.js:277-345 | the state machine of `update` leaves the state `Acted` gives and returns its launch and recoil; exactly when the step ends an attack (`EndsAttack`) it appends the float timeline twice with state `FloatTrack(Landing(...))`, otherwise the timeline list is unchanged |
| Shredders.Shredder.Hear | source/proposal/assets/js/shredder.js:147-322 | a callback leaves the state `Heard` gives and keeps the tweens; exactly `BossRecoiled` appends the float timeline twice with state `FloatTrack(Landing(...))`, any other callback leaves the timeline list unchanged |
| Shredders.Shredder.HearAll | source/proposal/assets/js/shredder.js:347-368 | the callbacks of the boss's sweeps, heard in order, leave the state `HeardAll` gives; the timelines they add have exactly the states `HeardFloats` lists, two float tracks per `BossRecoiled` |
| Shredders.Shredder.HearNext | source/proposal/assets/js/shredder.js:347-368 | one callback of the boss's sweeps is heard as `Heard` says; the states of the timelines added so far grow by that callback's `HeardFloats` |
| Shredders.HeardFloatsDraws | source/proposal/assets/js/shredder.js:158-185 | the float tracks the heard callbacks add are exactly as many as the draws hearing them takes: each float draws twice and lists its timeline twice |
| Shredders.Shredder.SweepOwnTweens | source/proposal/assets/js/shredder.js:347-357 | the boss's tween sweep keeps `KeptTweens` and fires `SweptCues` |
| Shredders.Shredder.SweepOwnTimelines | source/proposal/assets/js/shredder.js:359-368 | the boss's timeline sweep keeps `KeptTimelines` and fires `TimelineCues` |
| Shredders.Shredder.Animate | source/proposal/assets/js/shredder.js:231-256 | `animate` leaves the state `Animated` gives |
| Shredders.Shredder.Face | source/proposal/assets/js/shredder.js:260-266 | the boss turns to the player |
| Shredders.Shredder.Sweep | source/proposal/assets/js/shredder.js:347-368 | the boss's tween sweep then its timeline sweep fire `SweptCues` then `TimelineCues`, in that order, and leave exactly `KeptTweens` and `KeptTimelines` |
| Shredders.Shredder.Settle | source/proposal/assets/js/shredder.js:347-371 | the end of `update` fires the sweeps' callbacks, keeps exactly `KeptTweens`, keeps `KeptTimelines` followed by the floats `HeardFloats` lists for what was fired, and leaves the state `Animated(HeardAll(...))` |
| Shredders.Shredder.Begin | source/proposal/assets/js/shredder.js:258-345 | the first half of `update` faces the player and acts as `Acted` says, keeps the tweens, returns the acting timeline list with its states (`ActedLists`) and a fresh recoil tween with motion `Recoil(RecoilSpot(...))` when one is due |
| Shredders.Shredder.Update | source/proposal/assets/js/shredder.js:258-373 | `update` faces the player and acts as `Acted` says; the timelines after acting are the old ones plus, when an attack ends, two float tracks (`ActedLists`); the callbacks returned are exactly `SweptCues` of the old tweens then `TimelineCues` of the acting list; the tweens left are `KeptTweens`, the timelines `KeptTimelines` plus the `HeardFloats` of the callbacks; a recoil tween is fresh with motion `Recoil(RecoilSpot(...))` |
| Shredders.FloatTimeline | source/proposal/assets/js/shredder.js:158-176 | the float timeline is fresh, scheduled as `FloatTrack` with the middle leg ending at the `Landing` the two draws pick, and its building draws twice |
| Shredders.RecoilSpot | source/proposal/assets/js/shredder.js:316-317 | the recoil ends five units behind the boss's facing, and five up on a draw below one half, five down otherwise |
| Shredders.Landing | source/proposal/assets/js/shredder.js:167-168 | a float lands on a whole column from -32 to 223 and a whole row from 120 to 199: across the screen less half the boss's width, in the floor band less its depth |
| Shredders.Shredder.Recoiled | source/proposal/assets/js/shredder.js:318-323 | the end of the recoil leaves the boss at the recoil's spot with no hits counted, as `Heard` says, keeps the tweens and appends the float timeline twice with state `FloatTrack(Landing(...))` |
| Flames.Minus | source/proposal/assets/js/flames.js:38-40 | subtracting from a missing coordinate leaves it missing, as arithmetic on `undefined` gives NaN; a present one is lowered |
| Flames.LevelSprite | source/proposal/assets/js/flames.js:18-22 | the three heights are 16, 24 and 32 pixels, all starting at sprite column 160 |
| Flames.Column | source/proposal/assets/js/flames.js:69-72 | frame idx is drawn at column 16 times idx |
| Flames.AfterSwaps | source/proposal/assets/js/flames.js:55-67 | the cursor always stays on one of three frames of one of three heights |
| Flames.SwapsClosedForm | source/proposal/assets/js/flames.js:55-67 | the cursor walks frames 0, 1, 2 of each height in turn, and the flame dies on its ninth swap, from the last frame of the largest height |
| Flames.HeightAfter | source/proposal/assets/js/flames.js:53-71 | the drawn height lags the cursor by one swap: swaps 3q+1 to 3q+3 draw at 16, 24 then 32 pixels, so the frame on which the flame dies is drawn at the largest height |
| Flames.ColumnAfter | source/proposal/assets/js/flames.js:69-72 | the column drawn after a swap is that of the frame the swap moved to |
| Flames.FreshFlame | source/proposal/assets/js/flames.js:5-27 | a new flame is alive, on its first frame and has swapped nothing |
| Flames.TickKeepsConsistent | source/proposal/assets/js/flames.js:46-77 | an update swaps at most once, exactly when more than the frame time has gathered, keeps the flame on its animation and moves it nowhere |
| Flames.DiesOnNinthSwap | source/proposal/assets/js/flames.js:61-66 | a flame dies on its ninth swap and not before |
| Flames.Flame.constructor | source/proposal/assets/js/flames.js:5-27 | `Flame.init` leaves a fresh flame at the given coordinates |
| Flames.Flame.CollisionRect | source/proposal/assets/js/flames.js:29-36 | a flame has a floor rectangle exactly when both coordinates are present, 16 across and 10 deep |
| Flames.Flame.GetY | source/proposal/assets/js/flames.js:38-40 | `getY` is the top of the sprite, defined only once a swap has set the height |
| Flames.Flame.Update | source/proposal/assets/js/flames.js:46-77 | `Flame.update` leaves the state `Tick` gives |
| Flames.SnapshotsOf | source/proposal/assets/js/flames.js:131-138 | the states of a list of flames, entry by entry |
| Flames.Survivors | source/proposal/assets/js/flames.js:134-137 | the living flames among the first n keep their order |
| Flames.TickAll | source/proposal/assets/js/flames.js:131-133 | every flame is updated once by the frame time |
| Flames.VisitFlame | source/proposal/assets/js/flames.js:132-137 | the pruning body updates the flame and keeps it unless it died |
| Flames.Prune | source/proposal/assets/js/flames.js:131-138 | the pruning loop updates every flame once and splices out the dead, the rest keeping their order and staying a sound row |
| Flames.SurvivorIndex | source/proposal/assets/js/flames.js:131-138 | every survivor is a living entry of the list |
| Flames.SurvivorsDistinct | source/proposal/assets/js/flames.js:131-138 | the survivors hold no flame twice when the list does not |
| Flames.SurvivorsListed | source/proposal/assets/js/flames.js:131-138 | the survivors are entries of the list |
| Flames.SurvivorsValid | source/proposal/assets/js/flames.js:131-138 | after the update every survivor is a valid living flame of the list, none held twice |
| Flames.CreateFlame | source/proposal/assets/js/flames.js:118-124 | `createFlame` appends one fresh flame at the given coordinates and counts it, keeping the row sound |
| Flames.NextFlameX | source/proposal/assets/js/flames.js:147-152 | the next flame goes one flame width further along the heading per flame laid, counting from one before the first |
| Flames.Flames.constructor | source/proposal/assets/js/flames.js:88-108 | `Flames.init` stores the position and heading, is alive, and creates the first flame with no coordinates |
| Flames.Flames.PruneFlames | source/proposal/assets/js/flames.js:127-143 | the first half of `Flames.update` gathers the time, updates every flame, splices out the dead, and dies exactly when none is left |
| Flames.Flames.LayFlame | source/proposal/assets/js/flames.js:146-155 | the second half lays the next flame along the heading at the row's depth and restarts the wait |
| Flames.Flames.Update | source/proposal/assets/js/flames.js:126-156 | `Flames.update` updates and prunes every flame, dies once none is left, and lays a new flame exactly when more than a frame time has gathered and fewer than nine have been laid |
| Explosions.Trunc | source/proposal/assets/js/explosion.js:10-11 | truncation moves a number towards zero by less than one |
| Explosions.ToInt32 | source/proposal/assets/js/explosion.js:10-11 | the bitwise or with zero gives a signed 32-bit integer congruent to the truncated value, and equal to it when that fits |
| Explosions.FinishesOnThirdSwap | source/proposal/assets/js/explosion.js:43-58 | the frames run 0, 1, 2 and never wrap; the third swap finishes the explosion and later swaps leave it finished on frame 2 |
| Explosions.Explosion.constructor | source/proposal/assets/js/explosion.js:6-29 | `init` truncates the position to 32-bit integers, is 48 by 48, plays from frame 0 at 7 fps |
| Explosions.Explosion.FinishedFromThirdSwap | source/proposal/assets/js/explosion.js:35-58 | `isFinished` holds exactly from the third frame swap on |
| Explosions.Explosion.Animate | source/proposal/assets/js/explosion.js:39-64 | `animate` swaps only after strictly more than the frame time, stepping the frame or finishing on the last, setting the sprite column and resetting the clock; it never moves the explosion |
| Projectiles.SpriteOffsets | source/proposal/assets/js/projectile.js:17-23 | a bolt heading left is drawn from column 8, one heading right from column 40, both on row 464 |
| Projectiles.Projectile.constructor | source/proposal/assets/js/projectile.js:6-24 | `init` stores the position and heading, is 32 by 32 with speed 5, alive, with the sprite offsets of its heading |
| Projectiles.Projectile.Destroy | source/proposal/assets/js/projectile.js:30-32 | `destroy` marks the bolt dead and does not move it |
| Projectiles.Projectile.Update | source/proposal/assets/js/projectile.js:38-45 | `update` moves the bolt 5 along its heading and keeps its depth and state |
| Projectiles.StatesOf | source/proposal/assets/js/projectile.js:38-45 | the states of a list of bolts and rows of flames, entry by entry |
| Levels.Scrolled | source/proposal/assets/js/level.js:27-49 | a scroll steps the offset back by the speed; past `-width` it pins the offset there, marks the end and stops scrolling |
| Levels.Travelled | source/proposal/assets/js/level.js:29-31 | the distance travelled grows by the speed exactly when the level could scroll before the step |
| Levels.StartIsSound | source/proposal/assets/js/level.js:6-24 | `init` starts at offset 0, scrollable and not at the end |
| Levels.ScrollKeepsInvariant | source/proposal/assets/js/level.js:26-50 | a scroll keeps the flags opposite and the pinned offset, never clears the end and never allows scrolling again |
| Levels.ScrollAtEndStays | source/proposal/assets/js/level.js:27-49 | once at the end a scroll leaves the level and the distance as they are |
| Levels.EndReachedAfter | source/proposal/assets/js/level.js:26-50 | from the start the level reaches its end exactly on the scroll that would take it past `-width`, and until then sits at minus the distance scrolled |
| Levels.EnemyShifted | source/proposal/assets/js/level.js:34-36 | a scroll moves a soldier back by the step and changes nothing else about it |
| Levels.ExplosionShifted | source/proposal/assets/js/level.js:37-39 | a scroll moves an explosion back by the step and changes nothing else about it |
| Levels.ShotShifted | source/proposal/assets/js/level.js:40-42 | a scroll moves a bolt or a row of flames back by the step and changes nothing else about it |
| Levels.EnemiesShifted | source/proposal/assets/js/level.js:34-36 | once the loop has reached the first k soldiers, those are moved back and the rest unchanged |
| Levels.ExplosionsShifted | source/proposal/assets/js/level.js:37-39 | once the loop has reached the first k explosions, those are moved back and the rest unchanged |
| Levels.ShotsShifted | source/proposal/assets/js/level.js:40-42 | once the loop has reached the first k projectiles, those are moved back and the rest unchanged |
| Levels.BlastsOf | source/proposal/assets/js/level.js:37-39 | the states of a list of explosions, entry by entry |
| Levels.ShiftEnemies | source/proposal/assets/js/level.js:34-36 | every soldier is moved back by the step |
| Levels.EnemyShiftGrows | source/proposal/assets/js/level.js:34-36 | moving soldier k back extends the loop's progress by one |
| Levels.ShiftExplosions | source/proposal/assets/js/level.js:37-39 | every explosion is moved back by the step and stays sound |
| Levels.ExplosionShiftGrows | source/proposal/assets/js/level.js:37-39 | moving explosion k back extends the loop's progress by one |
| Levels.ShiftShots | source/proposal/assets/js/level.js:40-42 | every bolt and row of flames is moved back by the step; the rows stay sound and keep their flames |
| Levels.ShiftShot | source/proposal/assets/js/level.js:41 | one bolt or row of flames is moved back by the step |
| Levels.ShotShiftGrows | source/proposal/assets/js/level.js:40-42 | moving projectile k back extends the loop's progress by one |
| Levels.ShiftActors | source/proposal/assets/js/level.js:33-42 | the soldiers, explosions and projectiles are all moved back by the step |
| Levels.ShiftEffects | source/proposal/assets/js/level.js:37-42 | the explosions and projectiles are moved back by the step |
| Levels.Level.constructor | source/proposal/assets/js/level.js:6-24 | `init` starts at offset 0, scrollable, not at the end, with the level's width one screen less than the foreground's |
| Levels.Level.ScrollBackground | source/proposal/assets/js/level.js:26-50 | `scrollBackground` steps the level back as `Scrolled` says, counts the distance only if the level could scroll, and moves every soldier, explosion and projectile back by the same step |
| Levels.Level.Pin | source/proposal/assets/js/level.js:44-49 | a level stepped past `-width` is pinned there, marked at its end and scrolls no more |
| Scene.Footprint | source/proposal/assets/js/enemy.js:128-135 | the floor rectangle of an entity starts at its base and is its width across and depth deep |
| Scene.Centre | source/proposal/assets/js/enemy.js:105-110 | the centre point lies in the middle of the floor rectangle |
| Scene.Max | source/proposal/assets/js/timeline.js:34 | `Math.max` is one of its arguments and no smaller than either |
| Scene.Round | source/proposal/assets/js/enemy.js:93-94 | `Math.round` is within one half of its argument, halves going up |
| Scene.Floor | source/proposal/assets/js/enemy.js:145 | `Math.floor` is the largest integer not above its argument |
| Scene.CeilDiv | source/proposal/assets/js/main.js:154 | `Math.ceil` of a division by a positive divisor is the smallest integer whose multiple reaches the dividend |
| Scene.NextFrame | source/proposal/assets/js/enemy.js:251-254 | the frame cursor steps to the next frame and wraps to the first after the last, or when it was left beyond the end |
| Scene.Dice.constructor | source/proposal/assets/js/enemy.js:91-94 | a new stream of draws has used none |
| Scene.Dice.Roll | source/proposal/assets/js/enemy.js:91-94 | each `Math.random` call returns the next draw of the stream |
| Sorting.Insert | source/proposal/assets/js/main.js:340-344 | one step of the insertion sort adds one entry |
| Sorting.Sort | source/proposal/assets/js/main.js:340-344 | the sort keeps the number of entries |
| Sorting.Firsts | source/proposal/assets/js/main.js:340-344 | the entities of a list of entity and depth pairs, in order |
| Sorting.WithKeyAppend | source/proposal/assets/js/main.js:340-344 | appending an entry adds it under its own key only |
| Sorting.InsertAscending | source/proposal/assets/js/main.js:340-344 | inserting into an ascending list keeps it ascending |
| Sorting.InsertBounded | source/proposal/assets/js/main.js:340-344 | a bound on every key of a list and of the inserted entry bounds the result |
| Sorting.InsertPermutes | source/proposal/assets/js/main.js:340-344 | inserting adds exactly the inserted entry |
| Sorting.InsertStable | source/proposal/assets/js/main.js:340-344 | among the entries of one key, the inserted one comes last |
| Sorting.SortAscending | source/proposal/assets/js/main.js:340-344 | the comparator sort leaves the entities ordered by `getY` |
| Sorting.SortPermutes | source/proposal/assets/js/main.js:340-344 | the sort only rearranges the entities |
| Sorting.SortStable | source/proposal/assets/js/main.js:340-344 | entities of equal `getY` keep their order, since the comparator answers 0 for them |
| Sorting.WithKeyHas | source/proposal/assets/js/main.js:340-344 | every entry shows among the entries of its key |
| Sorting.WithKeyFrom | source/proposal/assets/js/main.js:340-344 | every entry under a key is an entry of the list with that key |
| Sorting.SortUnique | source/proposal/assets/js/main.js:340-344 | any ascending arrangement that keeps the order under every key is the sorted one, so the result does not depend on how the stable sort is carried out |
| Sorting.LastIsLargest | source/proposal/assets/js/main.js:340-344 | the last entry of an ascending list has the largest key |
| Sorting.SameArrangement | source/proposal/assets/js/main.js:340-344 | two ascending lists with the same entries under every key are equal |
| Games.Kept | source/proposal/assets/js/main.js:252-257 | filtering never lengthens a list |
| Games.KeptInOrder | source/proposal/assets/js/main.js:252-257 | a splice-and-step-back loop keeps exactly the unflagged entries, in their original order |
| Games.KeptDistinct | source/proposal/assets/js/main.js:252-257 | splicing entries out never makes an entry appear twice |
| Games.KeptIff | source/proposal/assets/js/main.js:252-257 | an entry survives exactly when it was listed under an unset flag |
| Games.GoneFlags | source/proposal/assets/js/main.js:262-269 | the flag of each projectile entry says whether `cleanUp` splices it out |
| Games.FirstHalt | source/proposal/assets/js/main.js:260-270 | the first row of flames right of the screen, the one whose missing `destroy` throws; no entry before it throws |
| Games.Destroyed | source/proposal/assets/js/main.js:262-264 | passing the first k entries destroys the off-screen projectiles among them and keeps the number of entries |
| Games.KeptShotsDistinct | source/proposal/assets/js/main.js:260-270 | pruning the front of the projectile list keeps it free of repeats and adds nothing new |
| Games.ScrollActors | source/proposal/assets/js/level.js:26-50 | a scroll moves the level as `Levels.Scrolled` says, grows the distance as `Levels.Travelled` says, shifts every soldier, explosion and projectile by the scroll speed (`EnemiesShifted`, `ExplosionsShifted`, `ShotsShifted`), and keeps every explosion and row of flames sound with its flames as they were |
| Games.BurnRow | source/proposal/assets/js/flames.js:126-156 | a row's update keeps it sound and its flames are old ones or new ones it laid |
| Games.Effects.constructor | source/proposal/assets/js/main.js:47-48 | the projectile and explosion lists start empty |
| Games.Effects.AddExplosion | source/proposal/assets/js/main.js:194-199 | `addExplosion` appends one new explosion at the truncated coordinates, in its first state, and leaves the rest of the list as it was |
| Games.Effects.AddProjectile | source/proposal/assets/js/main.js:187-192 | `addProjectile` appends one new live bolt at the given place and heading, and leaves the rest of the list as it was |
| Games.Effects.AddFlames | source/proposal/assets/js/shredder.js:296-299 | the boss's flamer appends one new live row, holding its first flame, at the given place and heading |
| Games.Effects.PruneShots | source/proposal/assets/js/main.js:259-270 | the projectile loop destroys off-screen projectiles and keeps exactly the live ones, in order, up to the first row right of the screen; that row and everything after it stay, and the frame halts |
| Games.Effects.PruneBlasts | source/proposal/assets/js/main.js:272-278 | exactly the unfinished explosions stay, in order |
| Games.Effects.Scroll | source/proposal/assets/js/level.js:26-50 | the level scrolls as `Levels.Scrolled` says, the distance grows as `Levels.Travelled` says, and every soldier, explosion and projectile shifts by the scroll speed; the effects' lists are unchanged |
| Games.Effects.UpdateRow | source/proposal/assets/js/flames.js:126-156 | a row's update keeps the effects sound and only adds held flames |
| Games.Effects.UpdateBlast | source/proposal/assets/js/explosion.js:39-64 | an explosion keeps its place; it accumulates the elapsed time until that passes the frame time, then swaps to the next frame, ending after its last |
| Games.PruneList | source/proposal/assets/js/main.js:259-270 | the projectile loop on a list: what it keeps, whether it halts, and that it only destroys off-screen projectiles before the halt |
| Games.ShotStep | source/proposal/assets/js/main.js:262-266 | one step of the projectile loop destroys entry k if it is off the screen, after which it is dead exactly when `cleanUp` splices it out |
| Games.StartedKnown | source/proposal/assets/js/turtle.js:164-192 | the tweens and timelines an attack starts call back only to the soldiers it struck |
| Games.Schedule.constructor | source/proposal/assets/js/main.js:37-38 | the tween and timeline queues start empty |
| Games.Schedule.PushTweens | source/proposal/assets/js/enemy.js:202 | new tweens go to the end of the queue in order, the timelines unchanged |
| Games.Schedule.PushTimelines | source/proposal/assets/js/enemy.js:227 | new timelines go to the end of the queue in order, the tweens unchanged |
| Games.Schedule.Enqueue | source/proposal/assets/js/turtle.js:164-192 | an attack's tweens and timelines go to the end of their queues in order |
| Games.Schedule.StepTweens | source/proposal/assets/js/main.js:360-369 | the tween loop fires exactly `SweptCues` of the tweens, keeps exactly the unfinished ones (`Animating`), leaves the timelines alone and fires only known callbacks |
| Games.Schedule.StepTimelines | source/proposal/assets/js/main.js:372-380 | the timeline loop fires exactly `TimelineCues` of the timelines, keeps exactly the unfinished ones (`Unfinished`), leaves the tweens alone and fires only known callbacks |
| Games.Schedule.SweepTweens | source/proposal/assets/js/main.js:360-369 | every animating tween advances once by the elapsed time and is kept, in order; every finished one is spliced out; the callbacks of the tweens that finish fire, in order |
| Games.Schedule.SweepTimelines | source/proposal/assets/js/main.js:372-380 | every unfinished timeline updates once and is kept, in order; every finished one is spliced out; the callbacks they fire are exactly the timelines' own, in order |
| Games.Wave | source/proposal/assets/js/main.js:154-168 | a spawn point at a positive distance brings at least two soldiers: the one ahead and at least one behind |
| Games.SoldiersInAll | source/proposal/assets/js/main.js:148-172 | the eight spawn points bring 28 foot soldiers over a whole game |
| Games.Hits | source/proposal/assets/js/main.js:236-240 | no more hits than flames |
| Games.FlameRects | source/proposal/assets/js/main.js:236-237 | the rectangles of a row's flames, in order |
| Games.ShotHitsStep | source/proposal/assets/js/main.js:234-245 | one more projectile adds the hits of its flames if it is a row, and none if it is a thrown bolt |
| Games.ScorchedAtMostTwice | source/proposal/assets/js/turtle.js:219-233 | however many flames touch the turtle, it is hurt at most twice in a frame; a reeling or jumping turtle is not hurt; one with health to spare is hurt once |
| Games.HitsStep | source/proposal/assets/js/main.js:236-240 | one more flame adds one hit exactly when it touches the turtle |
| Games.ScorchRow | source/proposal/assets/js/main.js:236-240 | every flame of the row that touches the turtle hurts it by 2, and the turtle does not move |
| Games.ScorchAll | source/proposal/assets/js/main.js:232-246 | the turtle ends hurt by 2 once for every touching flame of every row, in list order |
| Games.ScorchShot | source/proposal/assets/js/main.js:232-245 | one projectile of the list adds the hits of its row of flames, if it is one, to those of the projectiles before it, and the turtle does not move |
| Games.DeadFlags | source/proposal/assets/js/main.js:253 | the dead flag of each soldier |
| Games.PruneEnemies | source/proposal/assets/js/main.js:252-257 | exactly the living soldiers stay, in order |
| Games.LivingSurvive | source/proposal/assets/js/main.js:252-257 | a soldier survives `cleanUp` exactly when it is listed and alive, and none twice |
| Games.SteeringFollowsKeys | source/proposal/assets/js/main.js:205-217 | the arrow presses in any order give the same flags, heading and facing as the keys held |
| Games.HeldSpaceJumpsOnce | source/proposal/assets/js/main.js:218-223 | holding SPACE jumps once: a jump disarms the key, a disarmed key starts no jump, and only a frame without SPACE re-arms it |
| Games.Assault | source/proposal/assets/js/turtle.js:164-192 | an attack updates the turtle as `Turtles.Attacked` says; a blocked attack starts nothing; what it starts is new, listed once and calls back only to listed soldiers; the boss's queues are untouched |
| Games.SetupParts | source/proposal/assets/js/main.js:98-136 | `setupGame`'s parts: the level at its start, the turtle fresh at (30, 195), empty lists and queues |
| Games.Steer | source/proposal/assets/js/main.js:205-217 | the turtle after the arrows, as `Steered` says |
| Games.JumpKey | source/proposal/assets/js/main.js:218-223 | with SPACE the turtle jumps as `Turtles.Jumped` says and a started jump's timeline is appended; without SPACE only the jump is re-armed |
| Games.AttackKey | source/proposal/assets/js/main.js:224-229 | with X the turtle attacks and its tweens and timelines are appended; without X only the attack is re-armed |
| Games.Handle | source/proposal/assets/js/main.js:205-230 | the turtle ends as `Handled` says; new tweens and timelines only extend the queues; the boss's queues are untouched |
| Games.SteerAndJump | source/proposal/assets/js/main.js:205-223 | the turtle ends as the arrows and SPACE direct; only timelines are added, new ones at the end |
| Games.Tidy | source/proposal/assets/js/main.js:259-278 | the projectile loop as `Effects.PruneShots` says, then, unless it halted, the explosion loop as `Effects.PruneBlasts` says |
| Games.Conclude | source/proposal/assets/js/main.js:280-284 | once the boss is dead the turtle strikes its victory pose and exactly one tween, of that pose, is appended; otherwise nothing changes |
| Games.Close | source/proposal/assets/js/main.js:259-284 | the projectile and explosion loops, then the ending, which a halt skips |
| Games.Strike | source/proposal/assets/js/enemy.js:283-343 | a soldier updates as `Enemies.AfterUpdate` says, and when its blow lands the turtle is hurt by 2 |
| Games.Walk | source/proposal/assets/js/turtle.js:300-419 | the turtle updates as `Turtles.AfterUpdate` says; exactly when it scrolls, the level scrolls, the distance grows and every soldier, explosion and projectile shifts by the scroll speed; otherwise they stay put |
| Games.Tread | source/proposal/assets/js/turtle.js:300-419 | the turtle's update keeps the level and effects sound, and the distance grows only by a scroll |
| Games.Loose | source/proposal/assets/js/shredder.js:287-299 | the boss's forward attack appends a bolt, its down attack a row of flames, each at the boss's launch point and heading |
| Games.Deliver | source/proposal/assets/js/shredder.js:287-325 | the boss's attack adds one projectile and its recoil adds one tween, at the end of the queue |
| Games.Rampage | source/proposal/assets/js/shredder.js:258-373 | the boss updates as `Shredders.Shredder.Update` says: its new state, the acting lists, the callbacks fired (`SweptCues` then `TimelineCues`), the tweens and timelines kept and the floats heard; its attack joins the projectiles, and a recoil appends one fresh tween at rest whose motion is `Recoil(RecoilSpot(...))` to the game's tweens |
| Games.Soldiers | source/proposal/assets/js/main.js:330 | each soldier's entry of the entity list |
| Games.Missiles | source/proposal/assets/js/main.js:331 | each projectile's entry of the entity list |
| Games.Bursts | source/proposal/assets/js/main.js:332 | each explosion's entry of the entity list |
| Games.GatheredHolds | source/proposal/assets/js/main.js:329-337 | the entity list holds every soldier, projectile and explosion, the turtle, and the boss once spawned, and nothing else; its length is their count |
| Games.Answer | source/proposal/assets/js/enemy.js:195-231 | the end of a soldier's hurt clears its hurt counter and leaves it at the x it was pinned to; the end of its fall leaves it at the fall's end point, dead; the end of its death timeline adds one explosion at its final middle and kills it |
| Games.Widened | source/proposal/assets/js/enemy.js:195-231 | callbacks known for the soldiers queued are known for every soldier spawned |
| Games.Deaths | source/proposal/assets/js/enemy.js:222-225 | no more deaths than callbacks |
| Games.Levy | source/proposal/assets/js/main.js:163-168 | the loop spawns exactly `count` new soldiers, each from the next three draws |
| Games.Muster | source/proposal/assets/js/main.js:158-168 | one spawn point brings the soldier ahead, at `width + 42`, then `count` soldiers at random places, using one draw and then three per soldier |
| Games.DistinctCount | source/proposal/assets/js/main.js:163-168 | a list of distinct soldiers holds as many as it is long |
| Games.WavesStep | source/proposal/assets/js/main.js:150-171 | counting spawn points one at a time adds each point's wave |
| Games.Cast.constructor | source/proposal/assets/js/main.js:26-44 | no soldiers, no boss, all eight spawn points ahead and no entities |
| Games.Cast.Cull | source/proposal/assets/js/main.js:252-257 | the dead soldiers are spliced out, the living kept in order |
| Games.Cast.Enlist | source/proposal/assets/js/main.js:148-172 | once the distance passes the next spawn point p, `ceil(p / 500)` plus one new soldiers join the end of the list and the point is dropped; otherwise nothing changes and nothing is drawn |
| Games.Cast.Join | source/proposal/assets/js/main.js:161-171 | the new soldiers join the end of the list and the spawn point is dropped |
| Games.Cast.Summon | source/proposal/assets/js/main.js:174-184 | at the level's end the boss spawns once, new and entering; otherwise the boss is as it was |
| Games.Boards.constructor | source/proposal/assets/js/main.js:124-132 | the closing message shows the thanks and is not yet complete |
| Games.Game.constructor | source/proposal/assets/js/main.js:11-65 | `init` and `setupGame`: the start screen with a fade of 60, no distance travelled, all spawn points ahead, the level at its start, the turtle at (30, 195), the thanks message, empty lists |
| Games.Game.Key | source/proposal/assets/js/main.js:340-344 | each entity paired with its depth, `getY` |
| Games.Game.Arrange | source/proposal/assets/js/main.js:329-344 | the entity list becomes the gathered entities sorted by depth, ascending, and a permutation of them |
| Games.Game.Line | source/proposal/assets/js/main.js:329-344 | the entity list is set and the rest of the cast unchanged |
| Games.Game.Perform | source/proposal/assets/js/turtle.js:250-252 | a callback performed adds one explosion when it is a soldier's death, and the stage's end starts the closing fade |
| Games.Game.Finish | source/proposal/assets/js/turtle.js:250-252 | the end of the victory pose sets the state to `game_ending` |
| Games.Game.Refloat | source/proposal/assets/js/shredder.js:319-323 | the end of the boss's recoil leaves it at the recoil's spot as `Shredders.Heard` says, keeps its tweens and appends its float timeline twice with state `FloatTrack(Landing(...))` |
| Games.Game.Respond | source/proposal/assets/js/enemy.js:195-231 | a soldier's callback, as `Games.Answer` states |
| Games.Game.Dispatch | source/proposal/assets/js/main.js:360-380 | the callbacks performed in order add one explosion per soldier's death, and a stage end sets `game_ending` |
| Games.Game.SweepTweens | source/proposal/assets/js/main.js:360-369 | the tween loop fires exactly `SweptCues` of the game's tweens, all of them callbacks the game knows |
| Games.Game.SweepTimelines | source/proposal/assets/js/main.js:372-380 | the timeline loop fires exactly `TimelineCues` of the game's timelines, all of them callbacks the game knows |
| Games.Game.RunTweens | source/proposal/assets/js/main.js:360-369 | the tween loop fires exactly `SweptCues` of the game's tweens and performs them: one explosion per death, `game_ending` at the stage's end |
| Games.Game.RunTimelines | source/proposal/assets/js/main.js:372-380 | the timeline loop fires exactly `TimelineCues` of the game's timelines and performs them: one explosion per death, `game_ending` at the stage's end |
| Games.Game.Advance | source/proposal/assets/js/main.js:383-384 | a soldier's update, as `Games.Strike` states |
| Games.Game.Stride | source/proposal/assets/js/main.js:383-384 | the turtle's update adds to the distance travelled exactly when it scrolls |
| Games.Game.Pace | source/proposal/assets/js/turtle.js:300-419 | the distance grows only by a scroll |
| Games.Game.Travel | source/proposal/assets/js/main.js:26 | the distance travelled is set, and the screen is unchanged |
| Games.Game.Soar | source/proposal/assets/js/projectile.js:38-45 | a bolt moves one step of its speed along its heading and nothing else changes |
| Games.Game.Burn | source/proposal/assets/js/flames.js:126-156 | a row burns on and the effects' lists are unchanged |
| Games.Game.Flare | source/proposal/assets/js/explosion.js:39-64 | an explosion keeps its place; before the frame time it only adds the elapsed time to its accumulator; past it, it resets the accumulator, counts a swap and moves to the frame `Explosions.Swap` gives |
| Games.Game.Menace | source/proposal/assets/js/shredder.js:258-373 | the boss's update leaves it in the state `Animated(HeardAll(Acted(...)))` with the draws that takes, adds its launch to the projectiles, and a recoil adds one tween whose motion is `Recoil(RecoilSpot(...))` |
| Games.Game.UpdateEntity | source/proposal/assets/js/main.js:383-384 | one entity updates, by its kind; the cast and the screen are unchanged |
| Games.Game.UpdateActor | source/proposal/assets/js/main.js:383-384 | a soldier, the turtle or the boss updates; the cast and the screen are unchanged |
| Games.Game.UpdateEntities | source/proposal/assets/js/main.js:383-386 | every entity of the list updates in order; the cast and the screen are unchanged |
| Games.Game.PlayFrame | source/proposal/assets/js/main.js:324-390 | a playing frame leaves the entities sorted ascending by depth; a frame that throws fires nothing; the screen turns to `game_ending` exactly when a stage-end callback fires |
| Games.Game.Play | source/proposal/assets/js/main.js:347-386 | the frame after sorting: a halt fires nothing, and only a stage end changes the screen |
| Games.Game.Settle | source/proposal/assets/js/main.js:347-354 | input, collisions and clean-up keep the entity list, the soldiers spawned and the boss |
| Games.Game.Heed | source/proposal/assets/js/main.js:347-351 | input and collisions keep the game sound |
| Games.Game.Purge | source/proposal/assets/js/main.js:353-354 | the clean-up keeps the held objects and the entity list |
| Games.Game.Proceed | source/proposal/assets/js/main.js:356-386 | spawn, queues and updates keep the entity list, and only a stage end changes the screen |
| Games.Game.Populate | source/proposal/assets/js/main.js:356-357 | spawning keeps the entity list and only adds soldiers and the boss |
| Games.Game.Progress | source/proposal/assets/js/main.js:359-386 | the queues then the updates keep the entity list, and only a stage end changes the screen |
| Games.Game.RunQueues | source/proposal/assets/js/main.js:359-380 | the tween then the timeline loop fire exactly `SweptCues` of the tweens then `TimelineCues` of the timelines; only a stage end changes the screen |
| Games.Game.HandleInput | source/proposal/assets/js/main.js:205-230 | the turtle ends as `Handled` says and the queues are only extended |
| Games.Game.HandleCollisions | source/proposal/assets/js/main.js:232-246 | the turtle is hurt by 2 once for every flame of a row in range, in list order |
| Games.Game.CleanUp | source/proposal/assets/js/main.js:249-286 | the living soldiers kept in order; off-screen projectiles destroyed and the live ones kept, up to a halting row; unless halted, the finished explosions spliced out and, once the boss is dead, the victory tween appended |
| Games.Game.Bury | source/proposal/assets/js/main.js:252-257 | the dead soldiers are spliced out |
| Games.Game.Clear | source/proposal/assets/js/main.js:259-284 | the projectiles, explosions and ending of `cleanUp`, as `Games.Close` states |
| Games.Game.SpawnEnemies | source/proposal/assets/js/main.js:148-185 | a spawn point passed brings `Games.Muster`'s soldiers and is dropped; at the level's end the boss spawns once |
| Games.Game.Reinforce | source/proposal/assets/js/main.js:150-172 | the soldiers' part of `spawnEnemies`, as `Games.Cast.Enlist` states |
| Games.Game.Herald | source/proposal/assets/js/main.js:174-184 | the boss's part of `spawnEnemies`, as `Games.Cast.Summon` states |
| Games.LineupHeld | source/proposal/assets/js/main.js:329-344 | every entity the sort lines up is one the game holds |

## Left out

- Tween interpolation: a tween here carries its duration and its completion callback. The model writes the end value of each tween that moves the game's state when that tween completes, as part of its callback. It does not write the values in between, so during a tween the moved fields keep the value they had before it started. The sprite offsets of a fall, a float and the turtle's jump (enemy.js:216, shredder.js:172-174, turtle.js:208-212) are drawing only and are not modelled.
- `Shredders.Arrival`: the boss's `init` places it at row 200 (shredder.js:11), which is the row this state records. The entrance tween starts it above the screen (shredder.js:145). The model keeps row 200 until the tween ends and then writes row 180 (`Shredders.Heard` on `BossArrived`).
- `Shredders.FloatTimeline`: the middle leg's end writes the landing spot (shredder.js:173, `BossMoved`). The glide towards the spot during that leg is not modelled.
- `Shredders.Shredder.Reel`: the recoil tween's end writes the recoil's end point (shredder.js:316-318) before its callback runs. The 100 ms glide is not modelled.
- `Enemies.Enemy.Hurt`: the hurt pause holds the soldier at the x where it was hurt (enemy.js:196). The model writes that x when the pause ends (`EnemyRecovered`), not on every frame of the pause.
- `Enemies.Enemy.Kill`: the knock-away's end writes the fall's final x (enemy.js:215, `EnemyFell`); the 800 ms slide towards it is not modelled. The still tween at that x (enemy.js:219) has no callback and changes nothing further.
- `Turtles.Turtle.End`: the victory tween holds the turtle at its x (turtle.js:249). The model does not write that x when the tween ends, because its callback turns the game to `game_ending` and no later playing frame reads the turtle's position.
- `Messages.Messager.constructor`: requires a non-empty list of sentences. With an empty list, `init` calls `textIntoLines` (messager.js:25), which calls `split` on an undefined first sentence and fails with a `TypeError` (messager.js:39). The model does not represent that error, and no caller passes an empty list (config.js:44-47).
- `Messages.Prepare`: requires a non-empty list of sentences, for the same reason as the constructor.
- Numbers: JavaScript numbers are `real` and integers `int`. Floating-point rounding is not modelled. Only the truncations the scripts write out (`Math.floor`, `Math.round`, `Math.ceil`, the bitwise or with zero) are modelled.
- Drawing, the HUD, audio, fonts, console output, `loadAssets`, `scaleCanvas`, `Input.init` and the canvas. None of them affects the game's state. The sprite fields that only `draw` reads (sheet offsets, sprite sizes, colours) are left out with them.
- `requestAnimationFrame` and `performance.now`: the elapsed time of a frame is a parameter `dt`.
- The keyboard: the keys held during a frame are a `Keys` parameter.
- `Math.random`: its values come from a `Dice` object holding an arbitrary stream of draws in [0, 1).
- `inRange`: its definition is not part of this model, so it is a parameter `inRange: (Box, Box) -> bool`. A flame laid without coordinates has no rectangle, and what `inRange` answers for it is a second parameter `unplaced`.
- Default arguments are not defaults in the model; every caller passes the value. This covers `Flames.init` with direction `'right'`, `Projectile.init` with direction `'left'`, `Enemy.init` with type `'footsoldier'`, `Enemy.spawn` with `(0, 0)` for a random place, and the `Messager` options object, of which only the font size is read.
- Callbacks fired during a tween or timeline sweep are performed in order right after that sweep rather than inside it. No callback touches the list being swept, so the outcome is the same.
- A soldier's blow: it hurts the turtle once the soldier's update returns, not inside it. The turtle's scroll likewise scrolls the level once the turtle's update returns. Nothing in between reads what either changes.
- The error thrown by `cleanUp` on a row of flames right of the screen (rows have no `destroy`) ends the playing frame: the model returns `halted` and performs none of the rest of the frame. It does not model that the browser stops scheduling frames after the error.
- The screens other than `playing`: the start fade, `game_ending`, `end`, `final_message` and the message boards' updates there (main.js:304-323, 391-446) are not modelled. The model builds the boards in `setupGame` and shows they start sound. The `paused` screen is never entered by the scripts, and it is a constructor of `Screen` only.
- `Games.Game.PlayFrame` states the sorted entity list, the halt and the change of screen. What each part of the frame does is stated by the members it calls, not repeated in its own contract.
- `Games.Game.Burn`: a row's update is stated in full by `Flames.Flames.Update`. Seen from the game, it only keeps the row sound.
- `Games.Game.Heed` states only that input and collisions keep the game sound and only add queued entries. It does not state the turtle's state after input (`Games.Game.HandleInput` states it) nor the hurt flames do to the turtle (`Games.Game.HandleCollisions` states it).
- `Games.Game.Purge` and `Games.Game.Populate` state only soundness and what the frame keeps. Clean-up is stated by `Games.Game.CleanUp` and spawning by `Games.Game.SpawnEnemies`, which they call.
- `Games.Game.Menace` states the boss's new state, the draws it takes, its launch, whether it recoils and the recoil tween's motion. It does not state which callbacks the boss's own sweeps fire, nor which of its tweens and timelines it keeps. `Games.Rampage`, which it calls, states both; restating them here puts `Games.Game.UpdateActor` over the proof budget.
- `Games.BurnRow` states only that the row stays sound and lists only flames it had or has just laid. The flames' ticks, the survivors, the new flame and the row's timers are stated by `Flames.Flames.Update`, which it calls. Restating them here puts `Games.Effects.UpdateRow` over the proof budget.
- `Games.Effects.UpdateRow` states only that the effects stay sound and hold the row's new flames. What the row's update does is stated by `Flames.Flames.Update`.
- `Games.Assault` does not state which soldiers and whether the boss the blow hits, nor their new states. `Turtles.Turtle.Attack`, which it calls, states them.
- `Games.AttackKey` does not state the blows either (see `Games.Assault`). It states the turtle's state and that the attack's tweens and timelines are appended.
- `Games.Handle` does not state the blows (see `Games.Assault`), nor exactly which tweens and timelines a jump or an attack appends; it states that the queues are only extended.
- `Games.Game.HandleInput` states what `Games.Handle` states, and no more.
- `Games.Tread` states only the distance and soundness. The turtle's new state and the shift of the other actors are stated by `Games.Walk`, which it calls.
- `Games.Game.Pace` states only the distance and soundness, as `Games.Tread` does.
- `Games.Game.Stride` states the distance, soundness and that the cast and the screen are unchanged. The turtle's new state and the shift of the other actors are stated by `Games.Walk`.
- `Games.Game.Perform` states the explosion count and the change of screen. What a callback does to its soldier or to the boss is stated by `Games.Game.Respond` and `Games.Game.Refloat`, which it calls.
- `Games.Game.Dispatch` states the explosion count and the change of screen over the whole list. It does not state each callback's effect on its soldier or the boss (see `Games.Game.Perform`).
- `Games.Game.SweepTweens` states the callbacks fired. The tweens kept and their new elapsed times are stated by `Games.Schedule.SweepTweens`.
- `Games.Game.SweepTimelines` states the callbacks fired. The timelines kept and their new states are stated by `Games.Schedule.SweepTimelines`.
- `Games.Game.RunTweens` and `Games.Game.RunTimelines` state the callbacks fired, the explosion count and the screen. They do not state the entries kept (see `Games.Game.SweepTweens`, `Games.Game.SweepTimelines`) nor each callback's effect (see `Games.Game.Perform`).
- `Games.Game.RunTimelines`: see the line above.
- `Games.Game.RunQueues` states the callbacks fired and the change of screen. It does not state the explosion count, the entries kept or each callback's effect; `Games.Game.RunTweens` and `Games.Game.RunTimelines` state the count for each half.
- `Games.Game.UpdateEntity`, `Games.Game.UpdateActor` and `Games.Game.UpdateEntities` state only soundness, growth and that the cast and the screen are unchanged. Each entity's own update is stated by the member its kind calls: `Games.Game.Soar`, `Games.Game.Burn`, `Games.Game.Flare`, `Games.Game.Advance`, `Games.Game.Stride` and `Games.Game.Menace`.
- `Games.Game.UpdateActor`: see the line above.
- `Games.Game.UpdateEntities`: see the line above.
- `Games.Game.Play`, `Games.Game.Settle`, `Games.Game.Proceed` and `Games.Game.Progress` state soundness, the entity list and the change of screen. Each part of the frame they run is stated by the member that runs it: `Games.Game.HandleInput`, `Games.Game.HandleCollisions`, `Games.Game.CleanUp`, `Games.Game.SpawnEnemies`, `Games.Game.RunQueues` and `Games.Game.UpdateEntities`.
- `Games.Game.Settle`: see the line above.
- `Games.Game.Proceed`: see the line above.
- `Games.Game.Progress`: see the line above.
