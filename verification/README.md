# Water-drop catching game: a verified model of the round rules

This project models the rule core of `script.js`, a browser game in which
drops fall into a play area and the player moves a water can to catch clean
drops and avoid dirty drops and obstacles before the clock runs out. It
covers:

- the mutable `state` object and the active configuration `CFG`, as the
  class `Game.Game`, with the handlers that change them in place:
  `clearTimers`, `resetState`, `applyDifficulty`, `start` with its
  once-a-second clock callback, `endRound`, `resetAndStart`, `showStart`,
  the start button, and `checkCollision`;
- the difficulty table `DIFF` and the choice of a preset (`Presets`);
- the decisions `spawn` takes for a new drop: its kind (a two-stage random
  split), its size and its left offset (`Spawning`);
- the landing rules on values: the bounding-box overlap test and the
  clean, dirty and obstacle effects with their clamps, the obstacle's
  escalation of the spawn interval and the pollution loss check (`Rules`);
- the numbers the heads-up display shows: the clean/dirty quality split
  and the remaining-time bar (`Hud`), with `Math.round` in `JsMath`.

Modelling choices:

- `Math.random()` draws are parameters, each a real in [0, 1).
- The speed multiplier `speedMul` is an integer count of hundredths
  (100 is 1.0) that rises by the preset's step (12, 15 or 18) per obstacle
  caught; the chances are exact reals.
- `setInterval` and `clearInterval` are host calls. The class keeps the set
  `live` of interval ids the host is running and the next id it hands out.
  Every handler keeps `live` equal to the ids held in `state.tick` and
  `state.spawner`. So an interval is never left running without a handle,
  and a re-armed spawner never runs beside the one it replaced.
- A tick and a landing are explicit method calls (`Tick`, `CheckCollision`).
  Each runs to completion, as callbacks on the page's single thread do.
- `checkCollision` has no check that a round is running, and neither does
  the clock callback. The model keeps this. The spawner is re-armed
  whenever an obstacle is caught, even outside a round. A drop that
  lands in the same frame as the losing catch is still scored, and since
  pollution stays at 100 it ends the round again, so the people count on
  the end screen can change after the loss.
- The code has no phase or stored outcome. It has only `running`, and
  `endRound` receives the outcome as `isWin`. Late ticks are prevented by
  clearing the intervals, not by a guard.

## Model

| member | source | states |
|---|---|---|
| `Presets.Preset` | script.js:25-29 | the easy, normal and hard rows of the table; each is well formed (positive duration, 0 < minSpawn <= spawn, chances in [0, 1], positive speed step) |
| `Presets.Lookup` | script.js:84 | a key has a preset exactly when it is "easy", "normal" or "hard", and the preset found is the one stored under that key |
| `Presets.LookupKeyOf` | script.js:25-29 | every preset is found again under its own key |
| `Presets.ChosenKey` | script.js:82 | the chosen key is the checked button's value when that is non-empty, and "normal" when nothing is checked or the value is empty; never empty |
| `Presets.DefaultIsNormal` | script.js:82 | with no button checked, or an empty value, the normal preset is selected |
| `Presets.HarderIsHarder` | script.js:25-29 | from easy to hard the duration and spawn interval shrink, obstacle chance and speed step grow, clean chance falls |
| `JsMath.Round` | script.js:53 | `Math.round(x)` is the integer n with n - 1/2 <= x < n + 1/2 |
| `JsMath.RoundUnique` | script.js:53 | that condition determines the rounded value |
| `JsMath.Min` | script.js:168 | `Math.min(a, b)` is at most both arguments and equal to one of them |
| `JsMath.Max` | script.js:177 | `Math.max(a, b)` is at least both arguments and equal to one of them |
| `Spawning.Classify` | script.js:136-139 | obstacle exactly when the first draw is below obstacleChance; otherwise clean exactly when the second draw is below cleanChance, dirty otherwise |
| `Spawning.ObstacleIgnoresSecondDraw` | script.js:138 | an obstacle does not depend on the second draw |
| `Spawning.CleanDirtySplitIndependentOfFirstDraw` | script.js:139 | for a non-obstacle, clean or dirty depends only on the second draw (the split is nested, not flat) |
| `Spawning.NoObstacleWithoutChance` | script.js:138 | with an obstacle chance of 0 no obstacle is spawned |
| `Spawning.EveryKindReachable` | script.js:136-139 | every preset can spawn each of the three kinds |
| `Spawning.DropSize` | script.js:144 | the drop size is between 28 and 50 pixels |
| `Spawning.DropLeft` | script.js:146 | the left offset lies in [0, width - size] when the drop fits, in [width - size, 0] otherwise, and within half a pixel of the scaled draw |
| `Spawning.NewDrop` | script.js:132-147 | a new drop has the classified kind, a size in [28, 50] and lies inside the play area when it fits |
| `Hud.QualitySplit` | script.js:52-54 | with no catches both percentages are 0; otherwise the clean percentage is in 0..100, the two sum to 100, and the clean one is the nearest whole percent to clean/total (halves up) |
| `Hud.CleanPctFormula` | script.js:53 | the clean percentage equals the integer expression (200 * clean + total) / (2 * total) |
| `Hud.AllCleanIsHundred` | script.js:53-54 | only clean catches show 100% clean and 0% dirty |
| `Hud.AllDirtyIsZero` | script.js:53-54 | only dirty catches show 0% clean and 100% dirty |
| `Hud.SplitMirror` | script.js:53 | swapping the clean and dirty counts gives clean percentages summing to 100 or 101, and to 101 exactly when (200·clean + total) is a multiple of 2·total, i.e. the clean share is a rounding tie |
| `Hud.TimeFillPct` | script.js:50 | the time bar is within 0..100% while 0 <= time <= duration, full at the start and empty at 0 |
| `Rules.Overlaps` | script.js:161-165 | a drop is caught exactly when its bottom is at or below the can's top and the two overlap strictly horizontally |
| `Rules.BottomEdgeInclusive` | script.js:162 | a drop whose bottom is level with the can's top counts as caught |
| `Rules.SideEdgesExclusive` | script.js:163-164 | a drop that only touches the can's left or right edge is missed |
| `Rules.OverlapIgnoresFarEdges` | script.js:161-165 | the test reads neither the drop's top nor the can's bottom |
| `Rules.Initial` | script.js:68-76 | the reset counters: score, pollution, clean and dirty 0, multiplier 1.00, spawn interval the preset's, all within bounds |
| `Rules.Hit` | script.js:166-199 | any catch keeps every counter in bounds (score >= 0, pollution/clean/dirty in 0..100, interval in [minSpawn, spawn]), never lowers the multiplier or pollution nor lengthens the interval, and raises the score exactly for a clean drop |
| `Rules.Resolve` | script.js:161-204 | a landing keeps the bounds and escalation direction; a miss changes nothing |
| `Rules.PollutionMaxed` | script.js:205 | the loss condition: pollution is 100 or more |
| `Rules.CleanHit` | script.js:166-168 | a clean catch adds 1 to the score and sets clean to min(100, clean + 10); nothing else changes |
| `Rules.DirtyHit` | script.js:176-179 | a dirty catch sets score to max(0, score - 1) and raises pollution and dirty by 10 up to 100; clean, multiplier and interval are unchanged |
| `Rules.DirtyHitAtCap` | script.js:178 | at pollution 100 a dirty catch keeps it at 100 and the loss condition holds |
| `Rules.LandingAfterLoss` | script.js:157-206 | a landing after the loss still meets the loss condition, and a caught clean drop still raises the score by 1 |
| `Rules.ObstacleHit` | script.js:183-187 | an obstacle catch sets score to max(0, score - 2), adds the step to the multiplier and sets the interval to max(minSpawn, interval - 80); pollution, clean and dirty are unchanged |
| `Rules.OnlyDirtyPollutes` | script.js:176-205 | a landing that newly triggers the pollution loss is a caught dirty drop |
| `Rules.FirstObstacleOnNormal` | script.js:183-187 | on the normal preset the first obstacle gives multiplier 1.15 and interval 520 ms |
| `Rules.PlayBoundedAndEscalating` | script.js:161-199 | over any run of landings the counters stay in bounds (score never negative, interval within [minSpawn, spawn]) and the interval never grows, multiplier and pollution never fall |
| `Rules.DirtyCatchesPollute` | script.js:176-179 | n dirty catches give pollution min(100, p + 10n), dirty min(100, d + 10n) and score max(0, s - n) |
| `Rules.TenDirtyCatchesFromReset` | script.js:176-205 | from reset counters nine dirty catches leave pollution at 90 and the tenth brings it to 100, the loss condition |
| `Rules.ObstacleCatchesEscalate` | script.js:185-187 | n obstacle catches give interval max(minSpawn, c - 80n) and multiplier m + n * step |
| `Rules.MissesChangeNothing` | script.js:161-165 | any run of misses leaves every counter unchanged |
| `Game.Game.constructor` | script.js:32-47 | page load: the normal preset, counters at their reset values, full clock, not running and no interval live |
| `Game.Game.SetInterval` | script.js:98 | the host's `setInterval`: a new interval with a fresh id and the given period is added to the live set, and the next id advances |
| `Game.Game.ClearInterval` | script.js:64 | the host's `clearInterval`: the interval's id leaves the live set, nothing else changes |
| `Game.Game.ClearTimers` | script.js:63-66 | both handles become null and no interval is left running |
| `Game.Game.ResetState` | script.js:68-79 | the counters return to their reset values for the active preset, the clock to its duration, and running becomes false; the invariant holds |
| `Game.Game.ApplyDifficulty` | script.js:81-85 | the recorded difficulty is the chosen key, and the active configuration becomes that key's preset when it has one |
| `Game.Game.Start` | script.js:87-99 | any running intervals are stopped and replaced by a fresh 1000 ms clock and a fresh spawner at the current interval; running becomes true |
| `Game.Game.Tick` | script.js:92-96 | runs only while the clock interval is live; time drops by exactly 1 and stays within 0..duration; the round ends as a win exactly when time is then <= 0, stopping both intervals; the counters are unchanged |
| `Game.Game.EndRound` | script.js:101-113 | running becomes false and both intervals are stopped and forgotten; the end screen shows max(0, score) and plays confetti only on a win |
| `Game.Game.ResetAndStart` | script.js:115-119 | a fresh round: reset counters, full clock, running with a new clock and a spawner at the preset's interval, none of the old intervals live |
| `Game.Game.ShowStart` | script.js:121-126 | back to the menu: no interval live, not running, counters reset |
| `Game.Game.PressStart` | script.js:246-250 | the chosen preset becomes active and a fresh round starts with it, on intervals none of which was live before |
| `Game.Game.ReArmSpawner` | script.js:189-190 | the current spawner, if any, is stopped and replaced by a fresh one at the current interval; the live set loses the old id and gains only the new one |
| `Game.Game.CheckCollision` | script.js:157-206 | the counters change as `Rules.Resolve` says; a caught obstacle replaces the spawner by a fresh one at the new interval and stops the old one; pollution >= 100 after any landing, caught or missed, ends the round as a loss with no interval live, and a landing after a loss always ends the round again; otherwise running and the clock are untouched and a running round stays armed |

## Left out

- DOM work: element lookups, style and class writes in `updateHUD` and
  `endRound`, clearing the play area, creating, pausing and removing drop
  elements, `hideStart`; these are presentation only.
- The timed visual feedback (`setTimeout` for hit, pop, shake, flash and the
  boost badge) and `burstConfetti`; they change no game state.
- Dragging the can: the model takes the can's bounding box as an input.
- Real timer behaviour of `setInterval`/`clearInterval` (periods elapsing,
  interleaving of callbacks); ticks and spawns are explicit calls.
- `Math.random`: draws are parameters.
- The fall duration `max(0.5, base / speedMul)` of `spawn` and the
  `toFixed(2)` rounding of `speedMul`: both are floating point.
- Reading the checked radio button: the model takes its value as an input.
- Hud.QualitySplit: computed on exact rationals; binary floating-point error in `clean / total * 100` before `Math.round` is not modelled.
- Game.Game.ApplyDifficulty: for a key with no preset the code sets `CFG` to an object with no fields; the model keeps the previous configuration and reports the key as unknown, because a configuration with undefined fields has no counterpart here.
