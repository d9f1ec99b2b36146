/**
 * The `HumanMouse` class of testHumanMouse.js: a time-budgeted mover whose
 * per-step waits follow an ease-in-out-cubic schedule with +-5 ms noise, a
 * Bezier curve bent by a fixed intensity, a click with a jittered press
 * and a bounded retry when placing the pointer at the origin.
 *
 * The Bezier sampling is the parameter `lut`, `Math.sqrt` of the squared
 * distance the parameter `distance`, and every `Math.random()` a `Draw`;
 * per-step noise draws come from the stream `noise`.
 */
module TestHumanMouse {
  import opened Pointer

  /** The tuning knobs of the class. */
  datatype Config = Config(baseSpeed: real, acceleration: real, stepDensity: real,
                           clickVariance: real, curveIntensity: real)

  const DefaultConfig := Config(150.0, 0.3, 25.0, 0.0, 30.0)

  /** Per-call overrides, spread over the configuration (`{ ...this.config, ...options }`). */
  datatype Options = Options(baseSpeed: Option<real>, acceleration: Option<real>, stepDensity: Option<real>,
                             clickVariance: Option<real>, curveIntensity: Option<real>)

  /** Every option given overrides its setting; every option missing keeps it. */
  function Merge(c: Config, o: Options): (m: Config)
    ensures o.baseSpeed.None? ==> m.baseSpeed == c.baseSpeed
    ensures o.baseSpeed.Some? ==> m.baseSpeed == o.baseSpeed.value
    ensures o.acceleration.None? ==> m.acceleration == c.acceleration
    ensures o.acceleration.Some? ==> m.acceleration == o.acceleration.value
    ensures o.stepDensity.None? ==> m.stepDensity == c.stepDensity
    ensures o.stepDensity.Some? ==> m.stepDensity == o.stepDensity.value
    ensures o.clickVariance.None? ==> m.clickVariance == c.clickVariance
    ensures o.clickVariance.Some? ==> m.clickVariance == o.clickVariance.value
    ensures o.curveIntensity.None? ==> m.curveIntensity == c.curveIntensity
    ensures o.curveIntensity.Some? ==> m.curveIntensity == o.curveIntensity.value
  {
    Config(o.baseSpeed.GetOr(c.baseSpeed), o.acceleration.GetOr(c.acceleration),
           o.stepDensity.GetOr(c.stepDensity), o.clickVariance.GetOr(c.clickVariance),
           o.curveIntensity.GetOr(c.curveIntensity))
  }

  /** A merged configuration handed on as options: every field present. */
  function AsOptions(c: Config): Options {
    Options(Some(c.baseSpeed), Some(c.acceleration), Some(c.stepDensity), Some(c.clickVariance), Some(c.curveIntensity))
  }

  /** Spreading a complete configuration over any other yields it unchanged. */
  lemma MergeComplete(base: Config, c: Config)
    ensures Merge(base, AsOptions(c)) == c
  {
  }

  // ------------------------------------------------------------- easing

  function Cube(x: real): real { x * x * x }

  /** `easeInOutCubic`: `4t^3` below one half, `1 - (2 - 2t)^3 / 2` from there on. */
  function EaseInOutCubic(t: real): (e: real)
    ensures 0.0 <= t <= 1.0 ==> 0.0 <= e <= 1.0
  {
    if t < 0.5 then
      CubeBetween(0.0, t, 0.5);
      4.0 * Cube(t)
    else
      var u := -2.0 * t + 2.0;
      CubeBetween(0.0, u, 1.0);
      1.0 - Cube(u) / 2.0
  }

  lemma CubeBetween(lo: real, a: real, hi: real)
    ensures 0.0 <= lo <= a <= hi ==> Cube(lo) <= Cube(a) <= Cube(hi)
  {
    if 0.0 <= lo <= a <= hi {
      CubeMonotone(lo, a);
      CubeMonotone(a, hi);
    }
  }

  lemma ProductMonotone(x: real, y: real, z: real)
    requires x <= y && 0.0 <= z
    ensures x * z <= y * z
  {
    if z > 0.0 && x < y {
      PositiveProduct(y - x, z);
    }
  }

  /** Cubing is monotone on the non-negative reals. */
  lemma CubeMonotone(a: real, b: real)
    requires 0.0 <= a <= b
    ensures Cube(a) <= Cube(b)
    ensures 0.0 <= Cube(a)
  {
    ProductMonotone(0.0, a, a);
    ProductMonotone(a, b, a);
    ProductMonotone(a, b, b);
    assert a * a <= b * b;
    ProductMonotone(0.0, a * a, a);
    ProductMonotone(a * a, b * b, a);
    ProductMonotone(a, b, b * b);
    assert a * a * a <= b * b * a;
    assert b * b * a <= b * b * b;
  }

  /** The easing fixes 0, one half and 1. */
  lemma EaseFixedPoints()
    ensures EaseInOutCubic(0.0) == 0.0
    ensures EaseInOutCubic(0.5) == 0.5
    ensures EaseInOutCubic(1.0) == 1.0
  {
    assert Cube(0.0) == 0.0;
    assert Cube(1.0) == 1.0;
    assert Cube(-2.0 * 1.0 + 2.0) == 0.0;
  }

  /** The easing never goes backwards on [0, 1]. */
  lemma EaseMonotone(s: real, t: real)
    requires 0.0 <= s <= t <= 1.0
    ensures EaseInOutCubic(s) <= EaseInOutCubic(t)
  {
    if t < 0.5 {
      CubeMonotone(s, t);
    } else if s >= 0.5 {
      CubeMonotone(-2.0 * t + 2.0, -2.0 * s + 2.0);
    } else {
      CubeMonotone(s, 0.5);
      CubeMonotone(-2.0 * t + 2.0, 1.0);
    }
  }

  /** The eased progress at step `i` of `steps`, for `i` from 0 to `steps` inclusive. */
  function TimeSequence(steps: nat): (times: seq<real>)
    requires steps > 0
    ensures |times| == steps + 1
  {
    seq(steps + 1, i requires 0 <= i <= steps => EaseInOutCubic(i as real / steps as real))
  }

  /** The schedule starts at 0, ends at 1, stays in [0, 1] and never decreases. */
  lemma TimeSequenceShape(steps: nat)
    requires steps > 0
    ensures TimeSequence(steps)[0] == 0.0 && TimeSequence(steps)[steps] == 1.0
    ensures forall i :: 0 <= i <= steps ==> 0.0 <= TimeSequence(steps)[i] <= 1.0
    ensures forall i, j :: 0 <= i <= j <= steps ==> TimeSequence(steps)[i] <= TimeSequence(steps)[j]
  {
    TimeSequenceEnds(steps);
    TimeSequenceRange(steps);
    TimeSequenceOrdered(steps);
  }

  lemma TimeSequenceEnds(steps: nat)
    requires steps > 0
    ensures TimeSequence(steps)[0] == 0.0 && TimeSequence(steps)[steps] == 1.0
  {
    var n := steps as real;
    RatioEnds(n);
    assert TimeSequence(steps)[0] == EaseInOutCubic(0.0 / n);
  }

  lemma RatioEnds(n: real)
    requires n > 0.0
    ensures 0.0 / n == 0.0 && n / n == 1.0
  {
  }

  lemma TimeSequenceRange(steps: nat)
    requires steps > 0
    ensures forall i :: 0 <= i <= steps ==> 0.0 <= TimeSequence(steps)[i] <= 1.0
  {
    var times := TimeSequence(steps);
    forall i | 0 <= i <= steps
      ensures 0.0 <= times[i] <= 1.0
    {
      Progress(i, steps);
    }
  }

  lemma TimeSequenceOrdered(steps: nat)
    requires steps > 0
    ensures forall i, j :: 0 <= i <= j <= steps ==> TimeSequence(steps)[i] <= TimeSequence(steps)[j]
  {
    var times := TimeSequence(steps);
    forall i, j | 0 <= i <= j <= steps
      ensures times[i] <= times[j]
    {
      EasedProgressOrdered(i, j, steps);
    }
  }

  lemma EasedProgressOrdered(i: nat, j: nat, n: nat)
    requires 0 < n && i <= j <= n
    ensures EaseInOutCubic(i as real / n as real) <= EaseInOutCubic(j as real / n as real)
  {
    Progress(i, n);
    Progress(j, n);
    ProgressOrdered(i, j, n);
    EaseMonotone(i as real / n as real, j as real / n as real);
  }

  lemma Progress(i: nat, n: nat)
    requires 0 < n && i <= n
    ensures 0.0 <= i as real / n as real <= 1.0
  {
  }

  lemma ProgressOrdered(i: nat, j: nat, n: nat)
    requires 0 < n && i <= j
    ensures i as real / n as real <= j as real / n as real
  {
  }

  /** `generateTimeSequence`: one eased value per step, both ends included. */
  method GenerateTimeSequence(steps: nat) returns (times: seq<real>)
    requires steps > 0
    ensures times == TimeSequence(steps)
  {
    times := [];
    var i := 0;
    while i <= steps
      invariant 0 <= i <= steps + 1
      invariant times == TimeSequence(steps)[..i]
    {
      times := times + [EaseInOutCubic(i as real / steps as real)];
      i := i + 1;
    }
  }

  // ------------------------------------------------------- curve and sizes

  /** With no variance there is no offset. */
  lemma NoWidthNoOffset(r: Draw)
    ensures CenteredOffset(r, 0.0) == 0.0
  {
  }

  /** The four draws that bend the curve, per axis of the two inner control points. */
  datatype CurveDraws = CurveDraws(c1x: Draw, c1y: Draw, c2x: Draw, c2y: Draw)

  /**
   * `generateBezierPath`'s control points: start, the points 0.3 and 0.7 of
   * the way (both measured from the start), each coordinate offset by the
   * class's own curve intensity, and end.
   */
  function BezierControlPoints(start: Point, end: Point, curveIntensity: real, r: CurveDraws): (cps: seq<Point>)
    ensures |cps| == 4 && cps[0] == start && cps[3] == end
    ensures curveIntensity > 0.0 ==>
      var a, b, h := Toward(start, end, 0.3), Toward(start, end, 0.7), curveIntensity / 2.0;
      -h <= cps[1].x - a.x < h && -h <= cps[1].y - a.y < h &&
      -h <= cps[2].x - b.x < h && -h <= cps[2].y - b.y < h
  {
    var cp1 := Point(start.x + (end.x - start.x) * 0.3 + CenteredOffset(r.c1x, curveIntensity),
                     start.y + (end.y - start.y) * 0.3 + CenteredOffset(r.c1y, curveIntensity));
    var cp2 := Point(start.x + (end.x - start.x) * 0.7 + CenteredOffset(r.c2x, curveIntensity),
                     start.y + (end.y - start.y) * 0.7 + CenteredOffset(r.c2y, curveIntensity));
    [start, cp1, cp2, end]
  }

  /** `max(5, floor(distance / stepDensity))`: at least 5, otherwise the whole number of densities covered. */
  function HumanMoveSteps(distance: real, stepDensity: real): (steps: nat)
    requires stepDensity != 0.0
    ensures steps >= 5
    ensures steps > 5 ==> steps as real <= distance / stepDensity < steps as real + 1.0
    ensures distance / stepDensity >= 5.0 ==> steps as real <= distance / stepDensity < steps as real + 1.0
  {
    var q := (distance / stepDensity).Floor;
    if q > 5 then q else 5
  }

  /** `baseTime * (1 + acceleration * r)` with `baseTime = distance / baseSpeed * 1000`. */
  function TotalTime(distance: real, baseSpeed: real, acceleration: real, r: Draw): (total: real)
    requires baseSpeed != 0.0
    ensures var baseTime := distance / baseSpeed * 1000.0;
      baseTime >= 0.0 && acceleration >= 0.0 ==>
        baseTime <= total <= baseTime * (1.0 + acceleration) &&
        (baseTime > 0.0 && acceleration > 0.0 ==> total < baseTime * (1.0 + acceleration))
  {
    var baseTime := distance / baseSpeed * 1000.0;
    var stretch := 1.0 + acceleration * r;
    if baseTime >= 0.0 && acceleration >= 0.0 then
      DrawScale(r, acceleration);
      ScaleBetween(baseTime, 1.0, stretch, 1.0 + acceleration);
      if baseTime > 0.0 && acceleration > 0.0 then
        ScaleBelow(r, acceleration);
        PositiveProduct(baseTime, 1.0 + acceleration - stretch);
        baseTime * stretch
      else
        baseTime * stretch
    else
      baseTime * stretch
  }

  /** `elementPoint`: `Math.random(0.2, 0.8)` ignores its arguments, so the fraction is a plain draw. */
  function ElementPoint(box: Box, rx: Draw, ry: Draw): (p: Point)
    ensures box.width >= 0.0 ==> box.x <= p.x <= box.x + box.width
    ensures box.height >= 0.0 ==> box.y <= p.y <= box.y + box.height
    ensures box.width > 0.0 ==> p.x < box.x + box.width
    ensures box.height > 0.0 ==> p.y < box.y + box.height
  {
    DrawFraction(rx, box.width);
    DrawFraction(ry, box.height);
    Point(box.x + rx * box.width, box.y + ry * box.height)
  }

  lemma DrawFraction(r: Draw, w: real)
    ensures w >= 0.0 ==> 0.0 <= r * w <= w
    ensures w > 0.0 ==> r * w < w
  {
    if w >= 0.0 {
      DrawScale(r, w);
    }
    if w > 0.0 {
      ScaleBelow(r, w);
    }
  }

  /** The 0.2/0.8 inset is never applied: a zero draw lands on the box's own corner. */
  lemma ElementPointIgnoresInset(box: Box)
    requires box.width > 0.0 && box.height > 0.0
    ensures ElementPoint(box, 0.0, 0.0) == Point(box.x, box.y)
    ensures ElementPoint(box, 0.0, 0.0).x < box.x + box.width * 0.2
  {
  }

  // --------------------------------------------------------- the schedule

  /** The time at which the step before step `k` was due (0 before the first step). */
  function PrevTime(targets: seq<real>, k: nat): real
    requires k <= |targets|
  {
    if k == 0 then 0.0 else targets[k - 1]
  }

  /** The wait after step `k`: the gap to its target time plus noise in [-5, 5). */
  function Interval(targets: seq<real>, noise: nat -> Draw, k: nat): real
    requires k < |targets|
  {
    targets[k] - PrevTime(targets, k) + noise(k) * 10.0 - 5.0
  }

  /** What the first `n` steps of `humanMove` send: a move, then a wait only when the interval is positive. */
  function Schedule(path: seq<Point>, targets: seq<real>, noise: nat -> Draw, n: nat): (evs: seq<Event>)
    requires n <= |path| && n <= |targets|
  {
    if n == 0 then []
    else
      var k := n - 1;
      var interval := Interval(targets, noise, k);
      Schedule(path, targets, noise, k) + [Move(path[k])] + (if interval > 0.0 then [Wait(interval)] else [])
  }

  /** The steps send the path's points in order, one command each, and every wait is positive. */
  lemma {:induction false} ScheduleShape(path: seq<Point>, targets: seq<real>, noise: nat -> Draw, n: nat)
    requires n <= |path| && n <= |targets|
    ensures Moves(Schedule(path, targets, noise, n)) == path[..n]
    ensures Commands(Schedule(path, targets, noise, n)) == n
    ensures forall w :: w in Waits(Schedule(path, targets, noise, n)) ==> w > 0.0
  {
    if n > 0 {
      var k := n - 1;
      var interval := Interval(targets, noise, k);
      var prefix := Schedule(path, targets, noise, k);
      var step := [Move(path[k])] + (if interval > 0.0 then [Wait(interval)] else []);
      ScheduleShape(path, targets, noise, k);
      assert Schedule(path, targets, noise, n) == prefix + step;
      MovesAppend(prefix, step);
      CommandsAppend(prefix, step);
      WaitsAppend(prefix, step);
      if interval > 0.0 {
        assert step[1..] == [Wait(interval)] && step[1..][1..] == [];
      } else {
        assert step[1..] == [];
      }
      assert path[..n] == path[..k] + [path[k]];
    }
  }

  /** The noise-free part of the interval after step `k`. */
  function Intended(targets: seq<real>, k: nat): real
    requires k < |targets|
  {
    targets[k] - PrevTime(targets, k)
  }

  /** The noise drawn for the interval after step `k`, in [-5, 5) ms. */
  function StepNoise(noise: nat -> Draw, k: nat): real
  {
    noise(k) * 10.0 - 5.0
  }

  /** The noise of the first `n` intervals, summed. */
  function SumNoise(noise: nat -> Draw, n: nat): real
  {
    if n == 0 then 0.0 else SumNoise(noise, n - 1) + StepNoise(noise, n - 1)
  }

  /** The total of a sequence of waits. */
  function TotalWait(ws: seq<real>): real
  {
    if ws == [] then 0.0 else TotalWait(ws[..|ws| - 1]) + ws[|ws| - 1]
  }

  lemma TotalWaitSnoc(ws: seq<real>, w: real)
    ensures TotalWait(ws + [w]) == TotalWait(ws) + w
  {
    assert (ws + [w])[..|ws|] == ws;
  }

  /**
   * `prevTime` follows the noise-free target times, so each wait carries
   * only its own step's noise: when every interval of the first `n` steps
   * is positive (so every one is waited), the waits add up to the target
   * time of step `n - 1` plus the noise of those `n` steps, summed.
   */
  lemma {:induction false} WaitedTime(path: seq<Point>, targets: seq<real>, noise: nat -> Draw, n: nat)
    requires n <= |path| && n <= |targets|
    requires forall k :: 0 <= k < n ==> Interval(targets, noise, k) > 0.0
    ensures TotalWait(Waits(Schedule(path, targets, noise, n))) == PrevTime(targets, n) + SumNoise(noise, n)
  {
    if n > 0 {
      var k := n - 1;
      var interval := Interval(targets, noise, k);
      var prefix := Schedule(path, targets, noise, k);
      WaitedTime(path, targets, noise, k);
      assert interval > 0.0;
      assert Schedule(path, targets, noise, n) == prefix + [Move(path[k]), Wait(interval)];
      WaitsAppend(prefix, [Move(path[k]), Wait(interval)]);
      assert Waits([Move(path[k]), Wait(interval)]) == [interval] by {
        assert [Move(path[k]), Wait(interval)][1..] == [Wait(interval)];
      }
      TotalWaitSnoc(Waits(prefix), interval);
    }
  }

  /** The summed noise of `n` intervals lies in [-5n, 5n) ms (exactly 0 when `n == 0`). */
  lemma {:induction false} SumNoiseBound(noise: nat -> Draw, n: nat)
    ensures -5.0 * (n as real) <= SumNoise(noise, n) <= 5.0 * (n as real)
    ensures n > 0 ==> SumNoise(noise, n) < 5.0 * (n as real)
  {
    if n > 0 {
      SumNoiseBound(noise, n - 1);
      ScaleBelow(noise(n - 1), 10.0);
    }
  }

  /**
   * So the time waited over `n > 0` fully waited steps stays within
   * [-5n, 5n) ms of the target time of the last step; it drifts only by
   * the per-step noise.
   */
  lemma WaitedTimeBound(path: seq<Point>, targets: seq<real>, noise: nat -> Draw, n: nat)
    requires 0 < n <= |path| && n <= |targets|
    requires forall k :: 0 <= k < n ==> Interval(targets, noise, k) > 0.0
    ensures var waited := TotalWait(Waits(Schedule(path, targets, noise, n)));
      targets[n - 1] - 5.0 * (n as real) <= waited < targets[n - 1] + 5.0 * (n as real)
  {
    WaitedTime(path, targets, noise, n);
    SumNoiseBound(noise, n);
  }

  /** Each interval is its intended part plus noise in [-5, 5). */
  lemma IntervalNoise(targets: seq<real>, noise: nat -> Draw, k: nat)
    requires k < |targets|
    ensures -5.0 <= Interval(targets, noise, k) - Intended(targets, k) < 5.0
  {
    ScaleBelow(noise(k), 10.0);
  }

  /** The draws of one `humanMove`: the curve, then the time stretch. */
  datatype MoveDraws = MoveDraws(curve: CurveDraws, stretch: Draw)

  /** Everything `humanMove` computes before it starts stepping. */
  datatype MovePlan = MovePlan(path: seq<Point>, steps: nat, targets: seq<real>, end: Point)

  function Plan(start: Point, end: Point, distance: real, config: Config, curveIntensity: real,
                draws: MoveDraws, lut: Lut): (plan: MovePlan)
    requires config.stepDensity != 0.0 && config.baseSpeed != 0.0
    ensures plan.steps >= 5 && |plan.targets| == plan.steps + 1 && plan.end == end
  {
    var steps := HumanMoveSteps(distance, config.stepDensity);
    var times := TimeSequence(steps);
    var totalTime := TotalTime(distance, config.baseSpeed, config.acceleration, draws.stretch);
    MovePlan(lut(BezierControlPoints(start, end, curveIntensity, draws.curve), steps), steps,
             Targets(times, totalTime), end)
  }

  /** The time each step is due: its eased progress times the total time. */
  function Targets(times: seq<real>, totalTime: real): (targets: seq<real>)
    ensures |targets| == |times|
  {
    seq(|times|, i requires 0 <= i < |times| => times[i] * totalTime)
  }

  /** The sampler returned a point for every step, so the loop does not trip over a missing one. */
  predicate Completes(plan: MovePlan) {
    |plan.path| > plan.steps
  }

  /** What `humanMove` sends: every step, then a final move to the target; or the steps up to a missing point. */
  function MoveEvents(plan: MovePlan, noise: nat -> Draw): seq<Event>
    requires |plan.targets| == plan.steps + 1
  {
    if Completes(plan) then Schedule(plan.path, plan.targets, noise, plan.steps + 1) + [Move(plan.end)]
    else Schedule(plan.path, plan.targets, noise, |plan.path|)
  }

  /** A completed move sends the first `steps + 1` path points and then the exact target. */
  lemma MoveEventsShape(plan: MovePlan, noise: nat -> Draw)
    requires |plan.targets| == plan.steps + 1 && Completes(plan)
    ensures Moves(MoveEvents(plan, noise)) == plan.path[..plan.steps + 1] + [plan.end]
    ensures Commands(MoveEvents(plan, noise)) == plan.steps + 2
  {
    var steps := Schedule(plan.path, plan.targets, noise, plan.steps + 1);
    ScheduleShape(plan.path, plan.targets, noise, plan.steps + 1);
    MovesAppend(steps, [Move(plan.end)]);
    CommandsAppend(steps, [Move(plan.end)]);
  }

  /** The draws of one `humanClick` after the move. */
  datatype ClickDraws = ClickDraws(pause: Draw, jitterX: Draw, jitterY: Draw, hold: Draw)

  /**
   * What `humanClick` sends after the move: a pause in [50, 150), a move to
   * the jittered point, a left press held for [20, 70), and a move back.
   */
  function ClickEvents(p: Point, clickVariance: real, d: ClickDraws): seq<Event> {
    [Wait(50.0 + d.pause * 100.0),
     Move(Point(p.x + CenteredOffset(d.jitterX, clickVariance), p.y + CenteredOffset(d.jitterY, clickVariance))),
     Down(Left), Wait(20.0 + d.hold * 50.0), Up(Left), Move(p)]
  }

  /** The click's two moves are the jittered point and the exact target, in that order. */
  lemma ClickEventsShape(p: Point, clickVariance: real, d: ClickDraws)
    ensures var evs := ClickEvents(p, clickVariance, d);
      |evs| == 6 && evs[2] == Down(Left) && evs[4] == Up(Left) && evs[5] == Move(p)
    ensures 50.0 <= ClickEvents(p, clickVariance, d)[0].ms < 150.0
    ensures 20.0 <= ClickEvents(p, clickVariance, d)[3].ms < 70.0
    ensures clickVariance > 0.0 ==>
      var q := ClickEvents(p, clickVariance, d)[1].to;
      -(clickVariance / 2.0) <= q.x - p.x < clickVariance / 2.0 &&
      -(clickVariance / 2.0) <= q.y - p.y < clickVariance / 2.0
  {
    ScaleBelow(d.pause, 100.0);
    ScaleBelow(d.hold, 50.0);
  }

  /** With the default variance of 0 the press lands exactly on the target. */
  lemma ClickWithoutVariance(p: Point, d: ClickDraws)
    ensures ClickEvents(p, DefaultConfig.clickVariance, d)[1] == Move(p)
  {
    NoWidthNoOffset(d.jitterX);
    NoWidthNoOffset(d.jitterY);
  }

  /** `initializePosition`: attempts at moving to the origin, 500 ms apart, while retries remain. */
  function InitAttempts(retry: nat, accepts: nat -> bool, attempt: nat): seq<Event>
    decreases retry
  {
    if accepts(attempt) || retry == 0 then [Move(Point(0.0, 0.0))]
    else [Move(Point(0.0, 0.0)), Wait(500.0)] + InitAttempts(retry - 1, accepts, attempt + 1)
  }

  /** Some attempt among the `retry + 1` starting at `attempt` is accepted. */
  predicate Initialized(retry: nat, accepts: nat -> bool, attempt: nat) {
    exists k :: attempt <= k <= attempt + retry && accepts(k)
  }

  /** At most `retry + 1` commands, all of them moves to the origin, and only 500 ms waits between them. */
  lemma {:induction false} InitAttemptsShape(retry: nat, accepts: nat -> bool, attempt: nat)
    ensures 1 <= Commands(InitAttempts(retry, accepts, attempt)) <= retry + 1
    ensures Count(InitAttempts(retry, accepts, attempt), Move(Point(0.0, 0.0)))
         == Commands(InitAttempts(retry, accepts, attempt))
    ensures forall w :: w in Waits(InitAttempts(retry, accepts, attempt)) ==> w == 500.0
    ensures accepts(attempt) ==> InitAttempts(retry, accepts, attempt) == [Move(Point(0.0, 0.0))]
    decreases retry
  {
    var origin := Move(Point(0.0, 0.0));
    if accepts(attempt) || retry == 0 {
      assert [origin][1..] == [];
    } else {
      var head := [origin, Wait(500.0)];
      var rest := InitAttempts(retry - 1, accepts, attempt + 1);
      InitAttemptsShape(retry - 1, accepts, attempt + 1);
      assert head[1..][1..] == [];
      CommandsAppend(head, rest);
      CountAppend(head, rest, origin);
      WaitsAppend(head, rest);
    }
  }

  /** When no attempt is accepted, every one of the `retry + 1` attempts is made. */
  lemma {:induction false} InitAttemptsExhausted(retry: nat, accepts: nat -> bool, attempt: nat)
    requires forall k :: attempt <= k <= attempt + retry ==> !accepts(k)
    ensures Commands(InitAttempts(retry, accepts, attempt)) == retry + 1
    decreases retry
  {
    var origin := Move(Point(0.0, 0.0));
    if retry == 0 {
      assert [origin][1..] == [];
    } else {
      var head := [origin, Wait(500.0)];
      var rest := InitAttempts(retry - 1, accepts, attempt + 1);
      InitAttemptsExhausted(retry - 1, accepts, attempt + 1);
      assert head[1..][1..] == [];
      CommandsAppend(head, rest);
    }
  }

  /** The retry count of `initializePosition` when none is given, as the constructor calls it. */
  const DefaultRetry: nat := 3

  /**
   * The default call makes at most 4 attempts (the first and 3 retries),
   * all moves to the origin 500 ms apart, and all 4 when every one is
   * rejected.
   */
  lemma DefaultInitAttempts(accepts: nat -> bool)
    ensures var evs := InitAttempts(DefaultRetry, accepts, 0);
      1 <= Commands(evs) <= 4 && Count(evs, Move(Point(0.0, 0.0))) == Commands(evs) &&
      (forall w :: w in Waits(evs) ==> w == 500.0) &&
      ((forall k :: 0 <= k <= 3 ==> !accepts(k)) ==> Commands(evs) == 4)
  {
    InitAttemptsShape(DefaultRetry, accepts, 0);
    if forall k :: 0 <= k <= 3 ==> !accepts(k) {
      InitAttemptsExhausted(DefaultRetry, accepts, 0);
    }
  }

  class HumanMouse {
    const config: Config
    /** The pointer position as the driver believes it to be. */
    var currentPos: Point
    /** Every command and wait sent so far. */
    var trace: seq<Event>

    /** `new HumanMouse(page)`: origin position, default configuration. */
    constructor ()
      ensures config == DefaultConfig && currentPos == Point(0.0, 0.0) && trace == []
    {
      config := DefaultConfig;
      currentPos := Point(0.0, 0.0);
      trace := [];
    }

    /**
     * `initializePosition(retry)`: try `move(0, 0)`; on rejection wait 500 ms
     * and retry while retries remain, otherwise fail with
     * 'Mouse initialization failed'. `accepts(k)` says whether attempt `k`
     * is accepted by the actuator.
     */
    method InitializePosition(retry: nat, accepts: nat -> bool, attempt: nat) returns (ok: bool)
      modifies this
      ensures trace == old(trace) + InitAttempts(retry, accepts, attempt)
      ensures ok == Initialized(retry, accepts, attempt)
      ensures ok ==> currentPos == Point(0.0, 0.0)
      ensures !ok ==> currentPos == old(currentPos)
      decreases retry
    {
      trace := trace + [Move(Point(0.0, 0.0))];
      if accepts(attempt) {
        currentPos := Point(0.0, 0.0);
        ok := true;
      } else if retry > 0 {
        trace := trace + [Wait(500.0)];
        ok := InitializePosition(retry - 1, accepts, attempt + 1);
        if ok {
          var k :| attempt + 1 <= k <= attempt + retry && accepts(k);
          assert attempt <= k <= attempt + retry;
        } else {
          forall k | attempt <= k <= attempt + retry
            ensures !accepts(k)
          {
            if k != attempt {
              assert attempt + 1 <= k <= attempt + 1 + (retry - 1);
            }
          }
        }
      } else {
        ok := false;
      }
    }

    /**
     * `humanMove`: step along the sampled curve on the eased time budget,
     * then move to the exact target. A sampler that returns too few points
     * stops the move at the first missing one.
     */
    method HumanMove(x: real, y: real, options: Options, distance: real, draws: MoveDraws,
                     noise: nat -> Draw, lut: Lut) returns (ok: bool)
      requires IsDistance(currentPos, Point(x, y), distance)
      requires Merge(config, options).stepDensity != 0.0 && Merge(config, options).baseSpeed != 0.0
      modifies this
      ensures var plan := Plan(old(currentPos), Point(x, y), distance, Merge(config, options),
                               config.curveIntensity, draws, lut);
        trace == old(trace) + MoveEvents(plan, noise) &&
        ok == Completes(plan) &&
        (ok ==> currentPos == Point(x, y)) &&
        (!ok ==> currentPos == if plan.path == [] then old(currentPos) else plan.path[|plan.path| - 1])
    {
      var cfg := Merge(config, options);
      var start, end := currentPos, Point(x, y);
      var steps := HumanMoveSteps(distance, cfg.stepDensity);
      var timeSequence := GenerateTimeSequence(steps);
      var path := lut(BezierControlPoints(start, end, config.curveIntensity, draws.curve), steps);
      var totalTime := TotalTime(distance, cfg.baseSpeed, cfg.acceleration, draws.stretch);
      ok := StepAlong(path, steps, timeSequence, totalTime, noise);
      if ok {
        trace := trace + [Move(end)];
        currentPos := end;
      }
    }

    /**
     * The stepping loop of `humanMove`: per step, move to the path point,
     * record it as the position, and wait the gap to the step's target time
     * plus noise when that is positive; `prevTime` follows the noise-free
     * target times.
     */
    method StepAlong(path: seq<Point>, steps: nat, timeSequence: seq<real>, totalTime: real,
                     noise: nat -> Draw) returns (ok: bool)
      requires |timeSequence| == steps + 1
      modifies this
      ensures ok == (|path| > steps)
      ensures var targets := Targets(timeSequence, totalTime);
        trace == old(trace) + Schedule(path, targets, noise, if ok then steps + 1 else |path|)
      ensures ok ==> currentPos == path[steps]
      ensures !ok ==> currentPos == if path == [] then old(currentPos) else path[|path| - 1]
    {
      ghost var targets := Targets(timeSequence, totalTime);
      var prevTime := 0.0;
      var i := 0;
      while i <= steps
        invariant 0 <= i <= steps + 1 && i <= |path|
        invariant prevTime == PrevTime(targets, i)
        invariant trace == old(trace) + Schedule(path, targets, noise, i)
        invariant currentPos == if i == 0 then old(currentPos) else path[i - 1]
      {
        if i >= |path| {
          ok := false;
          return;
        }
        var point := path[i];
        var currentTime := timeSequence[i] * totalTime;
        var interval := currentTime - prevTime + noise(i) * 10.0 - 5.0;
        trace := trace + [Move(point)];
        currentPos := point;
        if interval > 0.0 {
          trace := trace + [Wait(interval)];
        }
        prevTime := currentTime;
        i := i + 1;
      }
      ok := true;
    }

    /**
     * `humanClick`: move to a point of the element, pause, move to a
     * jittered point, press and release the left button, move back, and
     * record the point as the position.
     */
    method HumanClick(box: Box, point: ClickPoint, options: Options, distance: real, draws: MoveDraws,
                      noise: nat -> Draw, clickDraws: ClickDraws, lut: Lut) returns (ok: bool)
      requires IsDistance(currentPos, ElementPoint(box, point.rx, point.ry), distance)
      requires Merge(config, options).stepDensity != 0.0 && Merge(config, options).baseSpeed != 0.0
      modifies this
      ensures var p := ElementPoint(box, point.rx, point.ry);
        var cfg := Merge(config, options);
        var plan := Plan(old(currentPos), p, distance, cfg, config.curveIntensity, draws, lut);
        ok == Completes(plan) &&
        trace == old(trace) + MoveEvents(plan, noise)
                 + (if ok then ClickEvents(p, cfg.clickVariance, clickDraws) else []) &&
        (ok ==> currentPos == p) &&
        (!ok ==> currentPos == if plan.path == [] then old(currentPos) else plan.path[|plan.path| - 1])
    {
      var p := ElementPoint(box, point.rx, point.ry);
      var cfg := Merge(config, options);
      MergeComplete(config, cfg);
      ok := HumanMove(p.x, p.y, AsOptions(cfg), distance, draws, noise, lut);
      if ok {
        PressAt(p, cfg.clickVariance, clickDraws);
      }
    }

    /** The part of `humanClick` after the move: pause, jittered press, move back. */
    method PressAt(p: Point, clickVariance: real, clickDraws: ClickDraws)
      modifies this
      ensures trace == old(trace) + ClickEvents(p, clickVariance, clickDraws)
      ensures currentPos == p
    {
      trace := trace + [Wait(50.0 + clickDraws.pause * 100.0)];
      var clickX := p.x + CenteredOffset(clickDraws.jitterX, clickVariance);
      var clickY := p.y + CenteredOffset(clickDraws.jitterY, clickVariance);
      trace := trace + [Move(Point(clickX, clickY))];
      trace := trace + [Down(Left)];
      trace := trace + [Wait(20.0 + clickDraws.hold * 50.0)];
      trace := trace + [Up(Left)];
      trace := trace + [Move(p)];
      currentPos := Point(p.x, p.y);
    }
  }

  /** The two draws of `elementPoint`. */
  datatype ClickPoint = ClickPoint(rx: Draw, ry: Draw)
}
