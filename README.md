# human-mouse, modelled in Dafny

human-mouse drives a browser's pointer so that it looks like a person
moving it. The repository holds four variants of one idea, plus a small
weighted-random helper:

- `src/HumanMouse.js`: curved moves along a Bezier curve with a random step
  count, delays that shrink in the middle of a move, and single or double
  clicks.
- `testHumanMouse.js` (class `HumanMouse`): moves timed by an ease-in-out
  cubic with per-step noise, retries when setting up the position, and
  clicks at a random point inside an element's box.
- `HumanMouseDS.js`: moves along an overshooting curve with delays around a
  base speed, and an optional click that leaves the pointer drifted by up
  to 2 px.
- `HumanMouseTongyi.js`: the `src/HumanMouse.js` helpers, a move that always
  asks the sampler for 50 steps whatever the options, and a move and click
  that swallow every error.
- `src/MouseSimulator.js`: tween-animated moves, jittered clicks after a
  random pause, relative moves and move-then-click.
- `test.js`: `randomChoices` (cumulative weights and a lower-bound binary
  search), `range` and `randomChoice`.

How the model stands in for the JavaScript:

- Every `Math.random()` is a parameter of type `Draw`, a real in [0, 1).
  A loop's draws are a stream `nat -> Draw`.
- Coordinates are `real`s.
- Some things are passed in rather than computed:
  - `Math.hypot` becomes a `distance` argument, tied to the points by
    `IsDistance`;
  - `sin(p·π)` becomes a function `sinPi`;
  - the Bezier library's `getLUT` becomes a function `lut`;
  - the tween library becomes a function `tween`. It yields the frames the
    update callback sees.
- The pointer (Playwright's `page.mouse`) is the `trace` field of each
  class. It holds every command and wait sent, in order:
  `Move`, `Down`, `Up`, `ClickAt` and `Wait`.
- A rejected actuator command (a thrown exception) is the argument
  `fault`. It gives the number of the command that fails, counted from 0
  within a call. `Issued` is the part of a call's events that is sent
  before the failure stops it.

Each class keeps its own fields (`currentPosition` or `currentPos`,
`config`, `trace`), and its methods update them as the JavaScript does.
Each method is proved against functions over its inputs and old state.
Lemmas then prove the properties the code promises about those functions.

Modules:

| module | file | models |
|---|---|---|
| `Pointer` | pointer.dfy | events, draws, options, traces and their lemmas, shared by all variants |
| `SrcHumanMouse` | src_human_mouse.dfy | src/HumanMouse.js |
| `TestHumanMouse` | test_human_mouse.dfy | testHumanMouse.js, class `HumanMouse` |
| `HumanMouseDS` | human_mouse_ds.dfy | HumanMouseDS.js |
| `HumanMouseTongyi` | human_mouse_tongyi.dfy | HumanMouseTongyi.js |
| `MouseSimulator` | mouse_simulator.dfy | src/MouseSimulator.js |
| `Choices` | choices.dfy | test.js |

## Model

| member | source | states |
|---|---|---|
| Pointer.CenteredOffset | testHumanMouse.js:52-57 | `r * width - width / 2` lies in [-width/2, width/2) for a positive width (the curve offsets here, the click jitter in src/MouseSimulator.js:62-63 and testHumanMouse.js:116-117) |
| Pointer.SteppingShape | src/HumanMouse.js:53-59 | a move-then-wait loop over points and delays sends exactly the points as moves, in order, exactly the delays as waits, and one command per point |
| Pointer.SteppingCut | HumanMouseTongyi.js:21-28 | when move number i is rejected, the loop has sent the steps before it and that move, so the points moved to are the first i + 1 |
| Pointer.PressReleaseShape | src/HumanMouse.js:105-107 | a press-hold-release sends one down and one up of the button, no move, and waits exactly the hold |
| Pointer.IssuedAppend | HumanMouseTongyi.js:36-54 | in a sequence of commands, a rejection in the first part stops everything after it; otherwise the first part is sent whole and the second part is cut at the shifted fault |
| Pointer.IssuedWhole | HumanMouseTongyi.js:10-34 | with no rejection among a call's commands, every event of the call is sent |
| SrcHumanMouse.RandomSteps | src/HumanMouse.js:21-24 | `floor(r * (max - min)) + min` lies in [min, max) when min < max, equals min when they are equal, and lies in [max, min] when they are reversed |
| SrcHumanMouse.ToPoint | src/HumanMouse.js:26-33 | with min <= max and a box of non-negative size, the point lies in the box's [min, max] fraction on both axes (defaults 0.2 and 0.8) |
| SrcHumanMouse.BoxCoordinate | src/HumanMouse.js:30-31 | one axis of `_toPoint` lies between origin + extent·min and origin + extent·max |
| SrcHumanMouse.Fraction | src/HumanMouse.js:30 | `min + r * (max - min)` lies in [min, max] |
| SrcHumanMouse.GenerateControlPoints | src/HumanMouse.js:136-147 | four control points: start, a point within distance·randomness/2 (per axis) of 0.3 of the way from start, one within the same bound of 0.3 of the way back from end, and end; HumanMouseTongyi.js:56-67 is the same helper |
| SrcHumanMouse.Perturbation | src/HumanMouse.js:139-144 | `(r - 0.5) * distance * randomness` lies within ±distance·randomness/2 |
| SrcHumanMouse.ControlPointsWithoutRandomness | src/HumanMouse.js:136-147 | with randomness 0, the inner control points are exactly 0.3 of the way from start and 0.3 of the way back from end |
| SrcHumanMouse.ControlPointsDegenerate | src/HumanMouse.js:137-146 | a move from a point to itself has distance 0, so all four control points are that point |
| SrcHumanMouse.DynamicDelay | src/HumanMouse.js:149-154 | the delay is at least 10 ms; with speed in [0, 1] and sine in [0, 1] it is at most max(10, (10 + (1 - speed)·50)/2); HumanMouseTongyi.js:69-74 is the same helper |
| SrcHumanMouse.DynamicDelays | src/HumanMouse.js:53-55 | the loop's delays: one per point, each at least 10 ms |
| SrcHumanMouse.RandomDelay | src/HumanMouse.js:156-158 | `floor(r * (max - min + 1)) + min` lies in [min, max] for min <= max; HumanMouseTongyi.js:76-78 is the same helper |
| SrcHumanMouse.StepCount | src/HumanMouse.js:51 | a given non-zero step count is used as is; a missing or zero one falls back to a random count in [minSteps, maxSteps) |
| SrcHumanMouse.MoveEventsShape | src/HumanMouse.js:53-59 | a move sends each sampled point in order, one command per point, and every wait is at least 10 ms |
| SrcHumanMouse.ClickPressesShape | src/HumanMouse.js:105-114 | a click presses and releases the button once (twice for a double click) with no move; the hold is in [50, 150], and a double click waits [100, 300] between the pairs |
| SrcHumanMouse.HumanMouse.constructor | src/HumanMouse.js:11-19 | the position starts at (0, 0); missing step limits default to 15 and 50 |
| SrcHumanMouse.HumanMouse.MoveTo | src/HumanMouse.js:44-61 | the trace gains the planned path's moves and dynamic delays, the points moved to are exactly the sampled path, and the position ends at the target |
| SrcHumanMouse.HumanMouse.MoveBy | src/HumanMouse.js:83-87 | moves to the old position shifted by (deltaX, deltaY), with the same events as `moveTo` there |
| SrcHumanMouse.HumanMouse.Click | src/HumanMouse.js:98-115 | moves to the target with only the steps, speed and randomness options, then sends the presses of the chosen button (left by default), and the position ends at the target |
| TestHumanMouse.Merge | testHumanMouse.js:68 | every option given overrides its configured value and every option missing keeps it, for all five settings |
| TestHumanMouse.MergeComplete | testHumanMouse.js:109-110 | merging a full configuration replaces every field, so `humanClick` passing its merged config to `humanMove` changes nothing |
| TestHumanMouse.EaseInOutCubic | testHumanMouse.js:35-37 | maps [0, 1] into [0, 1] |
| TestHumanMouse.EaseFixedPoints | testHumanMouse.js:35-37 | the easing maps 0 to 0, 0.5 to 0.5 and 1 to 1 |
| TestHumanMouse.EaseMonotone | testHumanMouse.js:35-37 | the easing is non-decreasing on [0, 1], across its two branches |
| TestHumanMouse.TimeSequenceShape | testHumanMouse.js:40-46 | the time sequence has steps + 1 entries, starts at 0, ends at 1, stays in [0, 1] and is non-decreasing |
| TestHumanMouse.GenerateTimeSequence | testHumanMouse.js:40-46 | the loop builds exactly the eased progress `ease(i / steps)` for i = 0..steps |
| TestHumanMouse.NoWidthNoOffset | testHumanMouse.js:13 | with the default click variance 0, the jitter is exactly 0 |
| TestHumanMouse.BezierControlPoints | testHumanMouse.js:48-60 | start, points offset by [-intensity/2, intensity/2) per axis from 0.3 and 0.7 of the way (both measured from the start), and end |
| TestHumanMouse.HumanMoveSteps | testHumanMouse.js:73 | `max(5, floor(distance / stepDensity))`: at least 5, and otherwise the whole number of densities covered |
| TestHumanMouse.TotalTime | testHumanMouse.js:79-80 | with non-negative base time and acceleration, the total time lies in [baseTime, baseTime·(1 + acceleration)], strictly below the top when both are positive |
| TestHumanMouse.ElementPoint | testHumanMouse.js:129-135 | the point lies in [box.x, box.x + width) × [box.y, box.y + height), since `Math.random` ignores its arguments |
| TestHumanMouse.ElementPointIgnoresInset | testHumanMouse.js:132-133 | a zero draw yields the box's corner, outside the 0.2-0.8 inset the arguments suggest |
| TestHumanMouse.ScheduleShape | testHumanMouse.js:82-99 | the stepping loop sends the path's first n points in order, one command each, and only positive waits |
| TestHumanMouse.WaitedTime | testHumanMouse.js:82-98 | `prevTime` follows the noise-free target times, so each wait carries only its own step's noise: when every interval is positive, the waits of the first n steps add up to the target time of step n - 1 plus the n steps' noise, summed |
| TestHumanMouse.SumNoiseBound | testHumanMouse.js:88 | the summed noise of n intervals lies in [-5n, 5n] ms, strictly below 5n when n > 0 |
| TestHumanMouse.WaitedTimeBound | testHumanMouse.js:82-98 | when every interval is positive, the time waited over n > 0 steps lies in [-5n, 5n) ms of the last step's target time: it drifts by at most the per-step noise |
| TestHumanMouse.IntervalNoise | testHumanMouse.js:88-89 | each interval differs from its intended value by at least -5 and less than 5 ms |
| TestHumanMouse.Plan | testHumanMouse.js:72-80 | at least 5 steps, one target time per step plus one, and the exact target as the end |
| TestHumanMouse.Targets | testHumanMouse.js:88 | one target time per eased progress value |
| TestHumanMouse.MoveEventsShape | testHumanMouse.js:82-103 | a completed move sends the first steps + 1 path points and then the exact target: steps + 2 commands |
| TestHumanMouse.ClickEventsShape | testHumanMouse.js:112-126 | a click pauses [50, 150) ms, moves to a point within ±variance/2 of the target, presses left, holds [20, 70) ms, releases and moves back to the target |
| TestHumanMouse.ClickWithoutVariance | testHumanMouse.js:13 | with the default variance 0, the press lands exactly on the target |
| TestHumanMouse.InitAttemptsShape | testHumanMouse.js:21-32 | at most retry + 1 attempts, all moves to the origin and 500 ms apart; one attempt when the first is accepted |
| TestHumanMouse.InitAttemptsExhausted | testHumanMouse.js:22-30 | when every attempt is rejected, all retry + 1 attempts are made |
| TestHumanMouse.DefaultInitAttempts | testHumanMouse.js:17-32 | the constructor's call, with the default of 3 retries, makes at most 4 moves to the origin, 500 ms apart, and exactly 4 when all are rejected |
| TestHumanMouse.HumanMouse.constructor | testHumanMouse.js:5-18 | the default configuration and the position (0, 0) |
| TestHumanMouse.HumanMouse.InitializePosition | testHumanMouse.js:21-32 | succeeds exactly when some attempt among retry + 1 is accepted, then the position is (0, 0); otherwise it fails with the position unchanged |
| TestHumanMouse.HumanMouse.HumanMove | testHumanMouse.js:67-104 | the trace gains the planned move's events; a move whose sampler gave every point ends exactly at the target, and one that runs out of points stops at the last point it had |
| TestHumanMouse.HumanMouse.StepAlong | testHumanMouse.js:82-99 | the loop sends the scheduled steps, tracking the target times without noise; it completes exactly when the path has more than `steps` points and ends at `path[steps]` |
| TestHumanMouse.HumanMouse.HumanClick | testHumanMouse.js:107-127 | moves to the element point with the merged config, then clicks there, and the position ends exactly at that point; when the sampler runs out of points, the click is skipped and the position is the last point reached (unchanged for an empty path) |
| TestHumanMouse.HumanMouse.PressAt | testHumanMouse.js:112-126 | sends the click's events and leaves the position at the target |
| HumanMouseDS.MakeConfig | HumanMouseDS.js:15-20 | each setting given is used; each one missing defaults to 20, 40 or 80 |
| HumanMouseDS.RandomSteps | HumanMouseDS.js:65-68 | the random step count lies in [minSteps, maxSteps) |
| HumanMouseDS.DefaultRandomSteps | HumanMouseDS.js:16-17 | with the defaults the step count lies in [20, 40) |
| HumanMouseDS.StepCount | HumanMouseDS.js:34 | a given non-zero step count is used as is, otherwise a random one |
| HumanMouseDS.Sign | HumanMouseDS.js:85-86 | the overshoot sign is 1 exactly when the draw exceeds 0.5, else -1 |
| HumanMouseDS.Overshoot | HumanMouseDS.js:84-87 | the overshoot is ±10 % of the travel on each axis, and 0 on an axis with no travel |
| HumanMouseDS.OvershootControlPoints | HumanMouseDS.js:90-100 | four points, from start to end; the two inner points are offset from start and from end by the same amount, on each axis a tenth of the travel either way |
| HumanMouseDS.OvershootDegenerate | HumanMouseDS.js:84-100 | a move from a point to itself has all four control points at that point |
| HumanMouseDS.GenerateControlPoints | HumanMouseDS.js:104-119 | two points, at fractions in [0.3, 0.5) and [0.7, 0.9) of the travel on each axis (exactly the start on an axis with no travel) |
| HumanMouseDS.AxisControl | HumanMouseDS.js:111-116 | one axis of a control point lies between the given fraction and that fraction plus 0.2 of the travel |
| HumanMouseDS.RandomDelay | HumanMouseDS.js:132-135 | the delay lies in [0.7, 1.3) times the base speed |
| HumanMouseDS.Delays | HumanMouseDS.js:122-129 | one delay per point, each in [0.7, 1.3] times the base speed |
| HumanMouseDS.Drift | HumanMouseDS.js:146-147 | the drift after a click lies in [-2, 2) |
| HumanMouseDS.Drifted | HumanMouseDS.js:144-149 | the point after a click is within [-2, 2) of the position on each axis |
| HumanMouseDS.ClickEventsShape | HumanMouseDS.js:138-150 | one left press and release, a hold in [50, 150), then a single move to the drifted point |
| HumanMouseDS.MoveOptions.constructor | HumanMouseDS.js:28-29 | the options object holds the click flag and the step count it is given |
| HumanMouseDS.HumanMouse.constructor | HumanMouseDS.js:12-21 | the configuration with defaults and the position (0, 0) |
| HumanMouseDS.HumanMouse.MoveThroughPath | HumanMouseDS.js:122-129 | each point is moved to and followed by its delay, and the position ends at the last point (unchanged for an empty path) |
| HumanMouseDS.HumanMouse.HumanClick | HumanMouseDS.js:138-150 | sends the click's events and leaves the position drifted from where it was |
| HumanMouseDS.HumanMouse.MoveTo | HumanMouseDS.js:31-50 | replays the overshooting path, then the position is the target, or drifted from it when a click was asked for |
| HumanMouseDS.HumanMouse.MoveBy | HumanMouseDS.js:53-57 | `moveTo` the old position shifted by (deltaX, deltaY) |
| HumanMouseDS.HumanMouse.Click | HumanMouseDS.js:59-62 | sets the caller's `click` option, moves, clicks, and leaves the pointer within [-2, 2) px of the target on each axis, possibly on it |
| HumanMouseTongyi.MoveEventsShape | HumanMouseTongyi.js:17-28 | a move asks the sampler for 50 steps whatever the options, replays what it returns, sends each in order, one command each, and waits at least 10 ms after each |
| HumanMouseTongyi.RejectedMoveShape | HumanMouseTongyi.js:21-28 | when move k is rejected, exactly the first k + 1 points have been moved to |
| HumanMouseTongyi.PressIssued | HumanMouseTongyi.js:41-43 | a rejected press sends only the press; a rejected release sends press, hold and release; otherwise the whole pair is sent and succeeds |
| HumanMouseTongyi.DoublePressIssued | HumanMouseTongyi.js:41-50 | a double click stops inside the first press and release when one of them is rejected; otherwise it sends all of that pair and the gap, then the second pair up to a rejection |
| HumanMouseTongyi.RejectedStep | HumanMouseTongyi.js:21-33 | a rejected move ends the replay after the earlier steps and that move, and the replay counts as failed |
| HumanMouseTongyi.CompletedReplay | HumanMouseTongyi.js:21-30 | with no rejected move, the replay sends all of its steps and succeeds |
| HumanMouseTongyi.HumanMouse.constructor | HumanMouseTongyi.js:5-8 | the position starts at (0, 0) |
| HumanMouseTongyi.HumanMouse.MoveTo | HumanMouseTongyi.js:10-34 | sends the move's events up to a rejection; the position becomes the target only when nothing was rejected, and the error is swallowed |
| HumanMouseTongyi.HumanMouse.Replay | HumanMouseTongyi.js:21-28 | the loop sends move and delay per point until a rejection, and reports whether none occurred |
| HumanMouseTongyi.HumanMouse.Press | HumanMouseTongyi.js:41-43 | press, hold, release up to a rejection, reporting whether none occurred |
| HumanMouseTongyi.HumanMouse.Click | HumanMouseTongyi.js:36-54 | moves with no options (a failed move still leads to the presses), then presses up to a rejection, and the error is swallowed |
| HumanMouseTongyi.HumanMouse.Presses | HumanMouseTongyi.js:41-50 | one or two press-release pairs, with the gap, up to a rejection; the position does not change |
| MouseSimulator.FrameMovesShape | src/MouseSimulator.js:40-43 | animating sends exactly the frames the tween reports, in order, and no wait |
| MouseSimulator.ToPointDefaults | src/MouseSimulator.js:82-89 | with defaults 0.2 and 0.8, the point lies in the middle 60 % of the box on each axis |
| MouseSimulator.Jittered | src/MouseSimulator.js:62-63 | the pressed point is within [-jitter/2, jitter/2) of the target on each axis |
| MouseSimulator.Pause | src/MouseSimulator.js:59 | the pre-click pause lies in [0, delay) |
| MouseSimulator.DefaultClick | src/MouseSimulator.js:57-67 | with the defaults, the pause is under 100 ms and the press lands within 2.5 px of the target |
| MouseSimulator.MouseSimulator.constructor | src/MouseSimulator.js:4-16 | the position starts at (0, 0) |
| MouseSimulator.MouseSimulator.GetPosition | src/MouseSimulator.js:21-23 | returns the recorded position |
| MouseSimulator.MouseSimulator.Move | src/MouseSimulator.js:32-48 | sends each reported frame and leaves the position at the last one (unchanged when none), with duration 500 and quadratic in-out easing by default |
| MouseSimulator.MouseSimulator.Click | src/MouseSimulator.js:57-68 | pauses, records the jittered point as the position, and clicks exactly there |
| MouseSimulator.MouseSimulator.MoveRelative | src/MouseSimulator.js:77-80 | `move` to the recorded position shifted by (deltaX, deltaY) |
| MouseSimulator.MouseSimulator.MoveToClick | src/MouseSimulator.js:97-100 | moves to (x, y), then clicks at (x, y), ending at the jittered point |
| Choices.ConsecutiveSorted | test.js:7-18 | a sequence that does not decrease between neighbours is sorted |
| Choices.PrefixSums | test.js:10-14 | one cumulative entry per weight |
| Choices.PrefixSumsDifferences | test.js:11-13 | the first cumulative entry is the first weight, and each later one adds its weight to the previous entry |
| Choices.TotalIsSum | test.js:21 | the total is the sum of the weights |
| Choices.PrefixSumsSorted | test.js:10-14 | with non-negative weights the cumulative array is non-decreasing and ends at the sum |
| Choices.CumulativeWeights | test.js:11-14 | the reduce loop builds exactly the prefix sums |
| Choices.EqualWeights | test.js:17 | the default weights have one entry per element |
| Choices.EqualWeightsAreUnitPrefixSums | test.js:17 | the default `i + 1` array is the prefix sums of all-ones weights |
| Choices.FirstAtLeast | test.js:26-35 | the first index whose cumulative entry is at least `rand`, or the length when there is none |
| Choices.Search | test.js:26-35 | the binary search ends within [left, right + 1] |
| Choices.SearchSplits | test.js:28-35 | the search ends where every entry before it is below `rand` and the entry there, if any, is at least `rand` |
| Choices.SplitIsFirst | test.js:26-35 | on a sorted array that split point is the first index at or above `rand` |
| Choices.SearchIsLowerBound | test.js:26-35 | on a sorted array the search returns the lower bound |
| Choices.LowerBound | test.js:26-35 | the loop terminates with exactly the search's result, a split point of `rand` |
| Choices.RandomBelow | test.js:25 | `r * total` lies in [0, total) for a positive total |
| Choices.Pick | test.js:24-37 | a pick exists exactly when the population is non-empty, and is an element of it |
| Choices.PickAt | test.js:36 | the clamped index yields an element of a non-empty population |
| Choices.Choices | test.js:1-38 | fails exactly when the population is not an array (that error first) or both kinds of weights are given (then the both-weights error); otherwise it gives k picks (default 1) |
| Choices.ChoicesPicks | test.js:24-37 | pick j is `Pick` with the cumulative weights, their total and draw j |
| Choices.PicksFromPopulation | test.js:24-37 | every pick is an element of the population, and none is missing unless the population is empty |
| Choices.WeightedSearch | test.js:26-36 | with non-negative weights and `rand` in [0, sum), the search stops inside the array and picks the element there |
| Choices.WeightedInterval | test.js:26-35 | the chosen index i has the sum of the first i weights below `rand`, and `rand` at most the sum through i |
| Choices.SearchFindsInterval | test.js:26-35 | on a sorted array whose last entry exceeds `rand`, the search stops inside the array at the lower bound |
| Choices.WeightedPick | test.js:24-37 | with non-negative weights of positive sum, a pick is the element at the first cumulative entry at or above its scaled draw |
| Choices.PositionalWeightsIgnored | test.js:62-63 | the weights passed as a plain array are ignored: one pick, with equal weights, from the population |
| Choices.RandomChoices | test.js:1-38 | the method, with its search loop, returns what `Choices` specifies |
| Choices.PickEach | test.js:24-37 | k picks, pick m made with draw m |
| Choices.PickOne | test.js:25-36 | one pick: the search, then the clamp |
| Choices.Range | test.js:40-43 | `end - start` integers (none when end <= start) |
| Choices.RangeMembers | test.js:40-43 | the range holds exactly the integers in [start, end), in increasing order |
| Choices.RangeConcat | test.js:40-43 | adjacent ranges concatenate to the range spanning both |
| Choices.RandomIndex | test.js:49 | `floor(r * n)` is an index in [0, n) |
| Choices.RandomChoice | test.js:45-51 | fails exactly on an empty array; otherwise it returns an element of the array |
| Choices.DemoChoice | test.js:57 | the demo's weighted pair, spread into `range` and picked from, gives an integer in [20, 100) |

## Left out

- Browser plumbing: `page.mouse`, `boundingBox` and `addScriptTag` are left out. The actuator is the `trace` field. A missing bounding box, which the code would read as `null`, is not modelled.
- `moveToEl` and `clickEl` (src/HumanMouse.js:71-74, 127-134) only compose `_toPoint` with `moveTo` or `click`. The error that `clickEl` prints is left out.
- `showCursor` in every variant injects page script; it is left out.
- The Bezier library is the parameter `lut`, and the tween library is the parameter `tween`. Their internals, and the curve they sample, are not modelled.
- `Math.hypot` becomes a `distance` argument that the caller must supply, and `sin(p·π)` becomes a `sinPi` argument.
- `src/MouseSimulator.js:11-15`: the `setImmediate` animation loop is scheduling, so it is left out.
- `src/MouseSimulator.js:103-106`: `update()` reads a field that does not exist and is never called, so it is left out.
- `move` ignores rejected pointer moves (src/MouseSimulator.js:41). It is modelled as sending every frame.
- Floating point is modelled with `real`, so rounding, NaN and Infinity are left out.
- The demo and automation scripts (testHumanMouse.js:165-216, src/testHumanMouse.js, src/testMouseSimulator.js, testTongyi.js) launch browsers; they are not part of this model.
- `console.log` output (test.js:41, HumanMouseTongyi.js:27-32, src/HumanMouse.js:132) is left out.
- The constructor in testHumanMouse.js starts `initializePosition` without awaiting it. `TestHumanMouse.HumanMouse.InitializePosition` is a separate call, so the race with later calls is not modelled.
- TestHumanMouse.HumanMouse.InitializePosition: the thrown `'Mouse initialization failed'` is the result `false`, and the waits between attempts are in the trace.
- In src/HumanMouse.js, testHumanMouse.js, HumanMouseDS.js and src/MouseSimulator.js, a rejected pointer command mostly propagates to the caller. Two exceptions are not modelled: `move` in src/MouseSimulator.js drops a rejected frame move and goes on (src/MouseSimulator.js:41), and `clickEl` catches and prints any error of its click (src/HumanMouse.js:128-133). Two places catch it and model rejection: the Tongyi variant (`fault`) and `initializePosition` in testHumanMouse.js (`accepts`, see `TestHumanMouse.InitAttempts`). Everywhere else every command is assumed accepted.
- TestHumanMouse.HumanMouse.HumanMove: a path with too few points makes `point.x` throw. The model stops at the last point it has and returns `false`.
- TestHumanMouse.HumanMouse.HumanMove: requires non-zero `stepDensity` and `baseSpeed`. With zero, JavaScript divides to Infinity or NaN, which `real` cannot represent.
- TestHumanMouse.GenerateTimeSequence: requires `steps > 0`. With 0 the code computes `0 / 0`, which is NaN; `humanMove` always passes at least 5.
- Choices.Search: the index midpoint uses Euclidean division, where the JavaScript uses `>>`. `>>` works on 32-bit integers, so the results differ once `left + right` reaches 2^31, that is for arrays of about 2^30 entries or more.
- Choices.Choices: a `k` that is not a whole number, or NaN, is not modelled; neither is representable. A negative `k` gives no picks, as in JavaScript.
- Choices.Choices: a non-array `weights` or `cumWeights` that is still truthy is not modelled. Weights are sequences of reals or absent.
- MouseSimulator.MouseSimulator.MoveToClick: called with no options object, the JavaScript throws. The options object is always present here.
- SrcHumanMouse.ControlPointsDegenerate: states only that zero travel puts every control point at the start. It does not state the converse, that distance 0 means the same point, which needs `IsDistance`'s square root.
