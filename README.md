# Fun.Uncle mini-games, modelled in Dafny

This project models the logic core of a small web site of browser mini-games.

- **Circle scorer** (`circle_score.dfy`, module `CircleScore`): `calculateCircleScore` from the circle-drawing game. It takes the centroid of the stroke, the mean distance of the points from it, and the mean absolute deviation of that distance. It subtracts a closure penalty for the gap between the first and the last point. The result is clamped to [10, 100]. Strokes under 10 points score 0, and "dots" with a mean radius under 10 score exactly 10.
- **Drawing session** (`shape_game.dfy`, module `ShapeGame`): the state of the circle game as a class `DrawingSession`. Presses start a stroke. Moves append points, show a live score at every fifth point past the tenth, and close the loop automatically when the stroke returns within 8 of its start after 80 points. A release scores strokes longer than 50 points. The best final score is kept.
- **Bottle flip** (`bottle_game.dfy`, module `BottleGame`): the `GameState` record and its updates, as functions on the record. They cover start, countdown tick, throw, landing and bottle reset. A class `Game` holds the record and the refs the handlers write. Also modelled: swipe recognition with its launch speed and spin clamps, the combo colour index, and the end-screen success rate and rank.
- **History timeline** (`history_game.dfy`, module `HistoryGame`):
  - the vertical layout of the events, gap 800 for technology events after 1900 and 500 otherwise;
  - the scroll handler, which scans for the active event and interpolates the year shown by the counter;
  - `formatYear` and the year-colour tiers;
  - the event list of the page, used as a fixture.
- **Era background** (`era_background.dfy`, module `EraBackground`): the particle list of the animated background as a class `ParticleField`. Each timer tick keeps the last k particles (k depends on the era) and appends a new one. Also modelled: the per-era spawn interval.
- **Copy protection** (`copy_protection.dfy`, module `CopyProtection`): which key presses have their default action prevented (F12, Ctrl+Shift+I/J/C, Ctrl+U), and the always-suppressed context menu.
- **Shared arithmetic** (`js_math.dfy`, module `JsMath`): `Math.round`, `Math.max` and `Math.min` on reals, used by the bottle game, the scorer and the timeline, with the order facts about division their proofs share.

Lengths are reals, and the distance function is a parameter `norm` applied to a displacement `(dx, dy)`. The scorer needs only that it is non-negative and zero at `(0, 0)`. Scale invariance also needs `norm(c*dx, c*dy) == c * norm(dx, dy)`. The clock, `Math.random()` draws and the browser's event targets are parameters of the operations that use them. `Math.round(x)` is `Floor(x + 0.5)` on reals, which is also right for negative years.

Where the code's behaviour differs from what a reader might expect, the model follows the code:
- The tuning constants are fixed values in the code (10 and 50 points, 10 px, 80 points, 8 px, multiplier 2, penalty 0.15 capped at 0.2), not configuration.
- Scale invariance can fail only when exactly one copy of a stroke falls under the 10 px dot threshold, because that copy scores a flat 10. `ScaleInvariantScore` states it for both copies on the same side of the threshold: both fitted, or both dots.
- A release scores a stroke only above 50 points, while `finishDrawing` accepts 50. `ShapeGame.ReleaseAtFinishThreshold` shows that a released 50-point stroke is discarded.
- The success rate is not capped at 100%. `BottleGame.FeverRateExceedsHundred` shows that a round of only upright landings, three or more, from a fresh scoreboard exceeds it.

## Model

| member | source | states |
|---|---|---|
| CircleScore.CentroidOfLevelStroke | src/pages/ShapeGame.tsx:19-20 | a stroke that stays on one column (row) has its centroid on that column (row) |
| CircleScore.Radii | src/pages/ShapeGame.tsx:18-28 | one radius per point, each the distance from that point to the centroid; none is negative under a norm |
| CircleScore.AverageRadius | src/pages/ShapeGame.tsx:22-29 | the mean radius is never negative under a norm |
| CircleScore.Deviations | src/pages/ShapeGame.tsx:34-35 | one deviation per point, each the absolute difference of its radius from the mean radius, so none is negative |
| CircleScore.AverageDeviation | src/pages/ShapeGame.tsx:34-36 | the mean deviation is never negative |
| CircleScore.ClosureGap | src/pages/ShapeGame.tsx:45-47 | the closure gap is never negative under a norm, and 0 when the stroke ends where it began |
| CircleScore.FitScore | src/pages/ShapeGame.tsx:38-58 | the score of a non-degenerate stroke always lies in [10, 100] |
| CircleScore.Score | src/pages/ShapeGame.tsx:15-59 | 0 exactly when the stroke has fewer than 10 points; otherwise in [10, 100]; exactly 10 when the mean radius is below 10 |
| CircleScore.SumConstant | src/pages/ShapeGame.tsx:19-29 | the running sum of n copies of v is n * v |
| CircleScore.SumNonNegative | src/pages/ShapeGame.tsx:23-35 | a sum of non-negative radii or deviations is non-negative |
| CircleScore.SumScaled | src/pages/ShapeGame.tsx:19-35 | scaling every summand scales the running sum |
| CircleScore.DeviationNeverRaisesScore | src/pages/ShapeGame.tsx:39-56 | with radius and gap fixed, a larger mean deviation never raises the score |
| CircleScore.DeviationLowersScore | src/pages/ShapeGame.tsx:39-56 | with radius and gap fixed, a strictly larger mean deviation gives a strictly lower score, unless that score is the floor of 10 |
| CircleScore.GapNeverRaisesScore | src/pages/ShapeGame.tsx:44-56 | with radius and deviation fixed, a larger closure gap never raises the score |
| CircleScore.FitScoreHundredIff | src/pages/ShapeGame.tsx:39-56 | the fit score is 100 if and only if the deviation and the closure gap are both 0 |
| CircleScore.PerfectCircleScoresHundred | src/pages/ShapeGame.tsx:15-59 | at least 10 points, all at the same radius of at least 10, with the first point equal to the last, score exactly 100 |
| CircleScore.MeanOfConstant | src/pages/ShapeGame.tsx:29 | the mean of equal values is that value |
| CircleScore.MeanScaled | src/pages/ShapeGame.tsx:20-36 | scaling every value scales the mean |
| CircleScore.ScaledCentroid | src/pages/ShapeGame.tsx:19-20 | scaling a stroke scales its centroid |
| CircleScore.ScaledRadii | src/pages/ShapeGame.tsx:22-28 | scaling a stroke scales every radius |
| CircleScore.ScaledAverageRadius | src/pages/ShapeGame.tsx:22-29 | scaling a stroke scales its mean radius |
| CircleScore.ScaledDeviations | src/pages/ShapeGame.tsx:35 | scaling a stroke by c > 0 scales every deviation |
| CircleScore.ScaledDeviation | src/pages/ShapeGame.tsx:35-36 | scaling a stroke by c > 0 scales the mean deviation |
| CircleScore.ScaledGap | src/pages/ShapeGame.tsx:45-47 | scaling a stroke scales its closure gap |
| CircleScore.FitScoreScaleFree | src/pages/ShapeGame.tsx:39-56 | scaling radius, deviation and gap by the same c > 0 keeps the radius positive and the fit score unchanged |
| CircleScore.FitOfScaledMeasures | src/pages/ShapeGame.tsx:38-56 | two strokes whose mean radius, mean deviation and gap all differ by the same factor c > 0 have the same fit score |
| CircleScore.ScaleInvariantFit | src/pages/ShapeGame.tsx:18-56 | scaling a stroke by c > 0 leaves its fit score unchanged |
| CircleScore.ScaleInvariantScore | src/pages/ShapeGame.tsx:15-59 | scaling a stroke by c > 0 leaves its score unchanged when both copies are on the same side of the dot threshold: both fitted, or both dots |
| ShapeGame.Best | src/pages/ShapeGame.tsx:177-180 | the kept high score is at least the old one and the new score, is one of them, and stays the old one exactly when the new score does not beat it |
| ShapeGame.DrawingSession.ClosesLoop | src/pages/ShapeGame.tsx:136-143 | a stroke closes itself exactly when it is past 80 points and its closure gap, as the scorer measures it, is under 8; the auto-closed stroke, its first point appended, is scored with no closure penalty |
| ShapeGame.DrawingSession.constructor | src/pages/ShapeGame.tsx:215-219 | a fresh session has no stroke and no score; the high score is the saved one, or 0 |
| ShapeGame.DrawingSession.ResetGame | src/pages/ShapeGame.tsx:207-212 | the points are emptied and the score cleared; the drawing flag and high score are kept |
| ShapeGame.DrawingSession.Start | src/pages/ShapeGame.tsx:111-119 | a press starts drawing a one-point stroke with no score shown |
| ShapeGame.DrawingSession.Finish | src/pages/ShapeGame.tsx:166-180 | under 50 points the stroke and score are cleared; otherwise the score is shown and the high score becomes the larger of the old one and the new score; the high score never drops |
| ShapeGame.DrawingSession.Move | src/pages/ShapeGame.tsx:122-149 | not drawing: nothing changes; drawing: exactly one point is appended; a live score appears at every fifth point past the tenth; past 80 points, within 8 of the start, drawing stops and the stroke plus its first point is scored |
| ShapeGame.DrawingSession.End | src/pages/ShapeGame.tsx:151-164 | a release stops drawing; over 50 points the stroke is scored; otherwise points and score are cleared |
| ShapeGame.ReleaseAtFinishThreshold | src/pages/ShapeGame.tsx:151-171 | a 50-point stroke drawn and released shows no score, although finishing it would score it |
| BottleGame.Clamp | src/pages/BottleGame.tsx:611-613 | `Math.min(Math.max(v, lo), hi)` lies in [lo, hi], is v inside the range and the nearer bound outside |
| BottleGame.Started | src/pages/BottleGame.tsx:542-553 | a started round is active and throwable with a full clock, a clean scoreboard and no fever; the state is consistent |
| BottleGame.Ticked | src/pages/BottleGame.tsx:556-573 | the clock shows 60 − elapsed, floored at 0; it reaches 0 exactly when 60 s have passed, and then the round ends and throwing stops; consistency is preserved |
| BottleGame.Thrown | src/pages/BottleGame.tsx:602-608 | a throw adds one try, puts the bottle in the air and blocks another throw; consistency is preserved |
| BottleGame.LandingPoints | src/pages/BottleGame.tsx:371-373 | a landing scores 1 or 2 points, 2 exactly when the new combo is at least 3 |
| BottleGame.Landed | src/pages/BottleGame.tsx:362-406 | an upright landing extends the combo and scores, with fever exactly from combo 3; a fall breaks the combo and scores nothing; consistency is preserved |
| BottleGame.BottleReset | src/pages/BottleGame.tsx:317-343 | the bottle stands again, throwable exactly while the round runs; consistency is preserved |
| BottleGame.ComboColorIndex | src/pages/BottleGame.tsx:26-28 | the colour index is below 10, changes every 3 combo steps and stays at the last colour from combo 27 on |
| BottleGame.ComboColorMonotone | src/pages/BottleGame.tsx:26-28 | the colour never goes back as the combo grows |
| JsMath.Round | src/pages/BottleGame.tsx:702 | `Math.round` is within one half of its argument |
| BottleGame.SuccessRate | src/pages/BottleGame.tsx:711 | the rate is the percentage of points per try rounded to the nearest integer; it is 0 exactly with no tries or when the points are under 1/200 of the tries |
| BottleGame.RateRounding | src/pages/BottleGame.tsx:702 | the rounded percentage is non-negative and 0 exactly when 200 × score < tries |
| BottleGame.RankOf | src/pages/BottleGame.tsx:701-708 | the rank is chosen by the rate: 0, above 30, above 15, otherwise |
| BottleGame.LaunchSpeed | src/pages/BottleGame.tsx:610-611 | the launch speed is in [12, 26] |
| BottleGame.BaseSpin | src/pages/BottleGame.tsx:613 | the spin before the random bonus is in [6, 22] |
| BottleGame.LaunchSpeedMonotone | src/pages/BottleGame.tsx:610-613 | a faster swipe never launches slower or spins less |
| BottleGame.UprightStreak | src/pages/BottleGame.tsx:371-381 | n upright landings from a fresh round take n tries, build a combo of n and score 1, 1, then 2 per landing |
| BottleGame.FeverRateExceedsHundred | src/pages/BottleGame.tsx:371-373 | a round of only upright landings, three or more, from a fresh scoreboard, gives a success rate above 100 |
| BottleGame.Game.constructor | src/pages/BottleGame.tsx:101-112 | the game starts in the intro state with no countdown |
| BottleGame.Game.StartGame | src/pages/BottleGame.tsx:542-556 | the state becomes the started record and the countdown runs from now; only the state and the timer change |
| BottleGame.Game.Tick | src/pages/BottleGame.tsx:556-574 | the running countdown applies the tick for the elapsed seconds and clears itself when time is up; only the state and the running flag change |
| BottleGame.Game.PointerDown | src/pages/BottleGame.tsx:580-590 | a press when throwing is allowed records its position and time, unless it is on a control button; only the three swipe refs change |
| BottleGame.Game.Registers | src/pages/BottleGame.tsx:593-602 | a release throws only while throwing is allowed (so during a round), after a press off the buttons, and after a rising swipe of positive duration |
| BottleGame.Game.PointerUp | src/pages/BottleGame.tsx:592-617 | a release throws exactly when allowed, started off the buttons, and over 50 px and 50 ms; it sets the clamped launch speed, z = −3 and a spin in [6, 24); the swipe start and the timer are untouched |
| BottleGame.Game.Land | src/pages/BottleGame.tsx:362-414 | the state becomes the landed record |
| BottleGame.Game.ResetBottle | src/pages/BottleGame.tsx:317-343 | velocities are zeroed and the state becomes the reset record; nothing else changes |
| BottleGame.Game.RestartGame | src/pages/BottleGame.tsx:624-639 | back to the initial record, with the countdown cleared and the bottle reset; the swipe refs and the timer start are untouched |
| HistoryGame.Gap | src/pages/HistoryGame.tsx:21-25 | the gap is 800 exactly for technology events after 1900, otherwise 500 |
| HistoryGame.Layout | src/pages/HistoryGame.tsx:15-39 | the first event is at 0.9 viewport and each later one exactly its gap below the previous; the final position is the last top (0 if none); the total height is final + 1500 + 1.5 viewport |
| HistoryGame.LaidOutSpacing | src/pages/HistoryGame.tsx:21-28 | laid-out events are at least 500 per step apart |
| HistoryGame.LaidOutIncreasing | src/pages/HistoryGame.tsx:15-31 | laid-out positions strictly increase |
| HistoryGame.ActiveIndexOf | src/pages/HistoryGame.tsx:56-63 | the active index is −1 or a valid index; every event up to it is reached and the next one is not |
| HistoryGame.ScanResultUnique | src/pages/HistoryGame.tsx:56-63 | only one index satisfies that description |
| HistoryGame.ActiveIndex | src/pages/HistoryGame.tsx:56-63 | the scan with its early break returns the active index |
| HistoryGame.ActiveIsLastReached | src/pages/HistoryGame.tsx:56-63 | on increasing positions, an event is at or before the active index exactly when the scroll offset has reached it |
| JsMath.RoundMonotone | src/pages/HistoryGame.tsx:80 | rounding preserves order |
| HistoryGame.Interpolate | src/pages/HistoryGame.tsx:78-80 | the rounded interpolated year lies between the two neighbouring years |
| HistoryGame.InterpolationBetween | src/pages/HistoryGame.tsx:80 | the unrounded interpolation lies between the two years |
| HistoryGame.InterpolateFalls | src/pages/HistoryGame.tsx:78-80 | on a segment running back in time, more progress never shows a later year |
| HistoryGame.Progress | src/pages/HistoryGame.tsx:74-77 | the clamped progress is in [0, 1], and inside the segment it is the fraction of the segment covered |
| HistoryGame.ProgressMonotone | src/pages/HistoryGame.tsx:76-77 | a later offset never means less progress |
| HistoryGame.CounterYear | src/pages/HistoryGame.tsx:65-80 | 2026 before the first event, the last year from the last event on, otherwise a year between the two neighbours |
| HistoryGame.YearCounter | src/pages/HistoryGame.tsx:55-81 | the scroll handler shows the counter year of the active index |
| HistoryGame.YearBeforeFirstEvent | src/pages/HistoryGame.tsx:65-68 | above the first event the counter shows 2026 |
| HistoryGame.YearPastLastEvent | src/pages/HistoryGame.tsx:69-72 | at or beyond the last event the counter shows its year |
| HistoryGame.ScrollingDownGoesBack | src/pages/HistoryGame.tsx:55-81 | on a timeline running back in time, scrolling further down never shows a later year |
| HistoryGame.FormatYear | src/pages/HistoryGame.tsx:83-89 | exactly one form: "N 년" for positive years, the 억 form from 10^8, the 만 form from 10^4, and 기원전 otherwise |
| HistoryGame.FormatYearRoundTrip | src/pages/HistoryGame.tsx:83-89 | the unrounded amount, times its unit and with its sign, gives back the year |
| HistoryGame.PrintedLabelNearYear | src/pages/HistoryGame.tsx:83-89 | the printed label, after `toFixed` rounding, reads as a year within half a printed digit of the real one, and exactly the year after the common era or within 10^4 years before it |
| HistoryGame.PrintedLabelsCoincide | src/pages/HistoryGame.tsx:86 | two different years of the timeline, -251,000,000 and -252,000,000, print the same label "2.5억 년 전" |
| HistoryGame.YearColorOf | src/pages/HistoryGame.tsx:185-188 | purple above 10^9, red above 6.5 × 10^7, emerald above 10^4, yellow otherwise |
| HistoryGame.ColorMonotone | src/pages/HistoryGame.tsx:185-188 | a year further from the present never gets a more recent colour |
| HistoryGame.Timeline | src/data/historyEvents.ts:13-99 | the page's timeline has 73 events |
| HistoryGame.FallingConcat | src/data/historyEvents.ts:13-99 | joining two falling lists whose seam falls gives a falling list |
| HistoryGame.FallingChronological | src/data/historyEvents.ts:13-99 | in a list falling step by step, every later year is at most every earlier one |
| HistoryGame.SectionsFalling | src/data/historyEvents.ts:13-99 | within each of the seven sections of the timeline, every year is at most the one before it |
| HistoryGame.TimelineFalling | src/data/historyEvents.ts:13-99 | across the whole timeline, section seams included, every year is at most the one before it |
| HistoryGame.FallingIsChronological | src/data/historyEvents.ts:13-99 | a list falling step by step from a first year of at most 2026 is chronological |
| HistoryGame.TimelineChronological | src/data/historyEvents.ts:13-99 | the timeline's years never increase and none is after 2026 |
| HistoryGame.TimelineCounterGoesBack | src/pages/HistoryGame.tsx:15-81 | on the page's own timeline and layout, scrolling down never shows a later year |
| EraBackground.KindOf | src/components/EraBackground.tsx:34-57 | each era spawns exactly one kind: Paleozoic meteors, Hadean embers, Oceanic bubbles, IceAge snow, Digital data, Network dots, Industrial sparks; the default era none |
| EraBackground.Keep | src/components/EraBackground.tsx:36-54 | the `slice(-k)` amounts: 2 for Paleozoic, 10 for Oceanic, 15 for Hadean and Network, 20 for IceAge, Digital and Industrial |
| EraBackground.Cap | src/components/EraBackground.tsx:34-54 | caps of 3 meteors, 16 embers, 11 bubbles, 21 snow, 21 data, 16 network dots and 21 sparks |
| EraBackground.KeepLast | src/components/EraBackground.tsx:36-54 | `slice(-k)` is the suffix of length min(length, k) |
| EraBackground.NewParticle | src/components/EraBackground.tsx:28-54 | the new particle has the era's kind; bubbles move at half the drawn speed; network dots start at left −10 and alone carry a top |
| EraBackground.ParticleBounds | src/components/EraBackground.tsx:29-32 | random draws give a scale in [1.2, 2), a speed in [1, 3) (bubbles [0.5, 1.5)) and a left in [0, 100) |
| EraBackground.Spawned | src/components/EraBackground.tsx:34-57 | after a spawn in a particle era the list holds min(old + 1, cap) particles; the default era empties the list |
| EraBackground.SpawnedShape | src/components/EraBackground.tsx:36-54 | after a spawn the new particle is last, the rest is the most recent suffix of the old list in order, and under the cap nothing is dropped |
| EraBackground.SpawnedWithinCap | src/components/EraBackground.tsx:34-54 | whatever the old list held, a spawn leaves at most the era's cap |
| EraBackground.SpawnRate | src/components/EraBackground.tsx:60-66 | no timer for the default era; 1200 ms for Paleozoic, 300 for Hadean and Industrial, 200 for the other eras |
| EraBackground.ParticleField.constructor | src/components/EraBackground.tsx:21-66 | a mounted background starts empty with its era's timer |
| EraBackground.ParticleField.SetEra | src/components/EraBackground.tsx:60-69 | a new era restarts the timer at its rate and empties the list only for the default era |
| EraBackground.ParticleField.Spawn | src/components/EraBackground.tsx:27-58 | a timer tick replaces the list with the spawned list |
| EraBackground.SpawnAll | src/components/EraBackground.tsx:34-63 | any run of ticks in one era stays within its cap, and from within the cap the list grows to min(old + ticks, cap) |
| CopyProtection.UpperChar | src/hooks/useCopyProtection.ts:21-22 | no lower-case letter is left, a character is a letter after exactly when it was one before, and non-letters are kept |
| CopyProtection.ToUpper | src/hooks/useCopyProtection.ts:21-22 | upper-casing keeps the length and leaves no lower-case letter |
| CopyProtection.ToUpperIdempotent | src/hooks/useCopyProtection.ts:21-22 | upper-casing twice is upper-casing once |
| CopyProtection.ContextMenuPrevented | src/hooks/useCopyProtection.ts:6-8 | the context menu is always suppressed |
| CopyProtection.UpperIsLetter | src/hooks/useCopyProtection.ts:21-22 | a key upper-cases to a letter exactly when it is that letter in either case |
| CopyProtection.KeyDownPrevented | src/hooks/useCopyProtection.ts:11-26 | a key press is blocked if and only if it is F12, Ctrl+U/u, or Ctrl+Shift with I, J or C in either case |
| CopyProtection.WithoutCtrlOnlyF12 | src/hooks/useCopyProtection.ts:11-26 | without Ctrl, a key is blocked exactly when it is F12 |
| CopyProtection.OtherLettersPass | src/hooks/useCopyProtection.ts:20-25 | with Ctrl and Shift, letters other than I, J, C and U pass in either case |
| CopyProtection.CtrlUBlocked | src/hooks/useCopyProtection.ts:22 | Ctrl+U is blocked with or without Shift, in either case |

## Left out

- Floating point: lengths, times and years are exact reals and integers. IEEE rounding, `NaN` (for example from `parseFloat` of a corrupt saved high score) and `Math.sqrt` are not modelled. The Euclidean distance is an abstract `norm`.
- The Three.js scene of the bottle game is not modelled: gravity, rotation, camera, water clipping and the per-frame kinematics. The floor test that decides whether the bottle stands arrives as the boolean `upright`.
- Sound, vibration, confetti, fireworks, emoji feedback, image export and sharing in both games are not modelled; they are output only.
- BottleGame.Game.StartGame: a second start while a countdown runs leaks the first interval in the source. The model keeps a single countdown.
- ShapeGame.DrawingSession.Move: the source reads `isDrawing` from the render closure and calls `setIsDrawing` and `finishDrawing` inside the `setPoints` updater. The model assumes each pointer event sees the state committed by the previous one, and that the updater runs exactly once.
- BottleGame.Game.Tick: the source's setter calls are applied together as one record update. React's batching of updates is not modelled.
- The per-character rendering of `toFixed`, `toLocaleString` and the template strings in `formatYear` is not modelled. `HistoryGame.FormatYear` models the branch and the amount before `toFixed` rounding; `HistoryGame.PrintedValue` models the rounded number that is printed, on reals rather than doubles.
- HistoryGame.FormatYearRoundTrip: holds for the unrounded amount only. The printed labels lose precision and can coincide: -251,000,000 and -252,000,000 both print "2.5억 년 전" (`HistoryGame.PrintedLabelsCoincide`); what the printed label keeps is stated by `HistoryGame.PrintedLabelNearYear`.
- The framer-motion background transform and the JSX of the timeline (logos, alternating sides) are not modelled; they are rendering.
- The mapping from the counter's year to an era is not part of this model, because the background takes the era as an input.
- Particle ids are `Date.now() + Math.random()`. Their uniqueness is not modelled.
- CopyProtection.UpperChar: only ASCII letters are upper-cased. JavaScript's `toUpperCase` also maps other characters, for example dotless ı to I and ß to SS.
- Registering and removing the event listeners is not modelled.
- Local storage is a parameter. The saved high score is read once, in the `DrawingSession` constructor, and the write is not modelled.
