/**
 * HumanMouseDS.js: a variant that bends the curve by overshooting the
 * target by a tenth of the travel on each axis, waits a jittered
 * per-step delay around `baseSpeed`, updates the position after every
 * step, and clicks in place with a small drift afterwards.
 *
 * The Bezier sampling is the parameter `lut`; every `Math.random()` is a
 * `Draw`, per-step delay draws come from the stream `delayDraws`.
 */
module HumanMouseDS {
  import opened Pointer
  import SrcHumanMouse

  const DefaultMinSteps: int := 20
  const DefaultMaxSteps: int := 40
  const DefaultBaseSpeed: real := 80.0

  datatype Config = Config(minSteps: int, maxSteps: int, baseSpeed: real)

  /** `{ minSteps: 20, maxSteps: 40, baseSpeed: 80, ...config }`. */
  function MakeConfig(minSteps: Option<int>, maxSteps: Option<int>, baseSpeed: Option<real>): (c: Config)
    ensures minSteps.None? ==> c.minSteps == DefaultMinSteps
    ensures maxSteps.None? ==> c.maxSteps == DefaultMaxSteps
    ensures baseSpeed.None? ==> c.baseSpeed == DefaultBaseSpeed
    ensures minSteps.Some? ==> c.minSteps == minSteps.value
    ensures maxSteps.Some? ==> c.maxSteps == maxSteps.value
    ensures baseSpeed.Some? ==> c.baseSpeed == baseSpeed.value
  {
    Config(minSteps.GetOr(DefaultMinSteps), maxSteps.GetOr(DefaultMaxSteps), baseSpeed.GetOr(DefaultBaseSpeed))
  }

  /** `_randomSteps` of this variant: the same formula, over its own bounds. */
  function RandomSteps(config: Config, r: Draw): (n: int)
    ensures config.minSteps < config.maxSteps ==> config.minSteps <= n < config.maxSteps
  {
    SrcHumanMouse.RandomSteps(config.minSteps, config.maxSteps, r)
  }

  /** With the default bounds the step count is in [20, 40). */
  lemma DefaultRandomSteps(r: Draw)
    ensures 20 <= RandomSteps(MakeConfig(None, None, None), r) < 40
  {
  }

  /** `options.steps || this._randomSteps()`. */
  function StepCount(steps: Option<int>, config: Config, r: Draw): (n: int)
    ensures steps.Some? && steps.value != 0 ==> n == steps.value
    ensures (steps.None? || steps.value == 0) && config.minSteps < config.maxSteps ==>
      config.minSteps <= n < config.maxSteps
  {
    if steps.Some? && steps.value != 0 then steps.value else RandomSteps(config, r)
  }

  /** `Math.random() > 0.5 ? 1 : -1`. */
  function Sign(r: Draw): (s: real)
    ensures s == 1.0 || s == -1.0
    ensures s == 1.0 <==> r > 0.5
  {
    if r > 0.5 then 1.0 else -1.0
  }

  /** The 10 % overshoot: on each axis a tenth of the travel, with a sign drawn per axis. */
  function Overshoot(start: Point, end: Point, rx: Draw, ry: Draw): (o: Point)
    ensures o.x == (end.x - start.x) * 0.1 || o.x == -((end.x - start.x) * 0.1)
    ensures o.y == (end.y - start.y) * 0.1 || o.y == -((end.y - start.y) * 0.1)
    ensures start.x == end.x ==> o.x == 0.0
    ensures start.y == end.y ==> o.y == 0.0
  {
    Point((end.x - start.x) * 0.1 * Sign(rx), (end.y - start.y) * 0.1 * Sign(ry))
  }

  /**
   * `_generateBezierPath`'s control points: start, start plus the overshoot,
   * end plus the same overshoot, end; on each axis the overshoot is a tenth
   * of the travel, either way.
   */
  function OvershootControlPoints(start: Point, end: Point, rx: Draw, ry: Draw): (cps: seq<Point>)
    ensures |cps| == 4 && cps[0] == start && cps[3] == end
    ensures cps[1].x - start.x == cps[2].x - end.x && cps[1].y - start.y == cps[2].y - end.y
    ensures cps[1].x - start.x == (end.x - start.x) * 0.1 || cps[1].x - start.x == -((end.x - start.x) * 0.1)
    ensures cps[1].y - start.y == (end.y - start.y) * 0.1 || cps[1].y - start.y == -((end.y - start.y) * 0.1)
  {
    var o := Overshoot(start, end, rx, ry);
    [start, Point(start.x + o.x, start.y + o.y), Point(end.x + o.x, end.y + o.y), end]
  }

  /** A move onto the current position has no overshoot: every control point is that position. */
  lemma OvershootDegenerate(p: Point, rx: Draw, ry: Draw)
    ensures OvershootControlPoints(p, p, rx, ry) == [p, p, p, p]
  {
  }

  /**
   * `v` lies from the point at fraction `lo` of a travel `d` from `s` up to,
   * but not including, the point at fraction `hi`; with no travel it is `s`.
   */
  predicate BetweenFractions(v: real, s: real, d: real, lo: real, hi: real) {
    var a, b := s + d * lo, s + d * hi;
    (d > 0.0 ==> a <= v < b) && (d < 0.0 ==> b < v <= a) && (d == 0.0 ==> v == s)
  }

  /** One coordinate of `_generateControlPoints`: `s + d * (lo + r * 0.2)` for the axis travel `d`. */
  function AxisControl(s: real, d: real, lo: real, r: Draw): (v: real)
    ensures BetweenFractions(v, s, d, lo, lo + 0.2)
  {
    AxisControlBound(s, d, lo, r);
    s + d * (lo + r * 0.2)
  }

  lemma AxisControlBound(s: real, d: real, lo: real, r: Draw)
    ensures BetweenFractions(s + d * (lo + r * 0.2), s, d, lo, lo + 0.2)
  {
    SignedScale(r, d);
    Distribute(d, lo, r);
  }

  lemma Distribute(d: real, lo: real, r: real)
    ensures d * (lo + r * 0.2) == d * lo + r * d * 0.2
    ensures d * (lo + 0.2) == d * lo + d * 0.2
  {
  }

  /** `r * d` lies from 0 towards `d`, short of `d` itself, whatever the sign of `d`. */
  lemma SignedScale(r: Draw, d: real)
    ensures d >= 0.0 ==> 0.0 <= r * d <= d
    ensures d > 0.0 ==> r * d < d
    ensures d < 0.0 ==> d < r * d <= 0.0
  {
    if d > 0.0 {
      ScaleBelow(r, d);
    } else if d == 0.0 {
      DrawScale(r, d);
    } else {
      ScaleBelow(r, -d);
      assert r * (-d) == -(r * d);
    }
  }

  datatype ControlDraws = ControlDraws(c1x: Draw, c1y: Draw, c2x: Draw, c2y: Draw)

  /**
   * `_generateControlPoints` (never called): the first point at a fraction
   * in [0.3, 0.5) of the way on each axis, the second in [0.7, 0.9).
   */
  function GenerateControlPoints(start: Point, end: Point, r: ControlDraws): (cps: seq<Point>)
    ensures |cps| == 2
    ensures var dx, dy := end.x - start.x, end.y - start.y;
      BetweenFractions(cps[0].x, start.x, dx, 0.3, 0.5) && BetweenFractions(cps[0].y, start.y, dy, 0.3, 0.5) &&
      BetweenFractions(cps[1].x, start.x, dx, 0.7, 0.9) && BetweenFractions(cps[1].y, start.y, dy, 0.7, 0.9)
  {
    var dx, dy := end.x - start.x, end.y - start.y;
    [Point(AxisControl(start.x, dx, 0.3, r.c1x), AxisControl(start.y, dy, 0.3, r.c1y)),
     Point(AxisControl(start.x, dx, 0.7, r.c2x), AxisControl(start.y, dy, 0.7, r.c2y))]
  }

  /** `_randomDelay`: `baseSpeed * (0.7 + r * 0.6)`, within [0.7, 1.3) times the base speed. */
  function RandomDelay(baseSpeed: real, r: Draw): (ms: real)
    ensures baseSpeed >= 0.0 ==> baseSpeed * 0.7 <= ms <= baseSpeed * 1.3
    ensures baseSpeed > 0.0 ==> ms < baseSpeed * 1.3
  {
    SignedScale(r, baseSpeed);
    if baseSpeed > 0.0 then ScaleBelow(r, baseSpeed); DelayExpansion(baseSpeed, r); baseSpeed * (0.7 + r * 0.6)
    else DelayExpansion(baseSpeed, r); baseSpeed * (0.7 + r * 0.6)
  }

  lemma DelayExpansion(b: real, r: real)
    ensures b * (0.7 + r * 0.6) == b * 0.7 + (r * b) * 0.6
  {
  }

  /** The delays waited after each of `n` points. */
  function Delays(baseSpeed: real, delayDraws: nat -> Draw, n: nat): (ds: seq<real>)
    ensures |ds| == n
    ensures baseSpeed >= 0.0 ==> forall i :: 0 <= i < n ==> baseSpeed * 0.7 <= ds[i] <= baseSpeed * 1.3
  {
    var ds := seq(n, i requires 0 <= i < n => RandomDelay(baseSpeed, delayDraws(i)));
    assert forall i :: 0 <= i < n ==> ds[i] == RandomDelay(baseSpeed, delayDraws(i));
    ds
  }

  /** `Math.random() * 4 - 2`: the drift after a click, in [-2, 2). */
  function Drift(r: Draw): (d: real)
    ensures -2.0 <= d < 2.0
  {
    ScaleBelow(r, 4.0);
    r * 4.0 - 2.0
  }

  /** The draws of `_humanClick`: the hold and the drift on each axis. */
  datatype ClickDraws = ClickDraws(hold: Draw, driftX: Draw, driftY: Draw)

  /** Where `_humanClick` leaves the pointer: the position shifted by the drift. */
  function Drifted(p: Point, d: ClickDraws): (q: Point)
    ensures -2.0 <= q.x - p.x < 2.0 && -2.0 <= q.y - p.y < 2.0
  {
    Point(p.x + Drift(d.driftX), p.y + Drift(d.driftY))
  }

  /** What `_humanClick` sends: press, hold in [50, 150), release, drift move. */
  function ClickEvents(p: Point, d: ClickDraws): seq<Event> {
    [Down(Left), Wait(50.0 + d.hold * 100.0), Up(Left), Move(Drifted(p, d))]
  }

  /** The click presses and releases once, holds within [50, 150) and ends with the drift move. */
  lemma ClickEventsShape(p: Point, d: ClickDraws)
    ensures var evs := ClickEvents(p, d);
      Count(evs, Down(Left)) == 1 && Count(evs, Up(Left)) == 1 &&
      Moves(evs) == [Drifted(p, d)] && evs[0] == Down(Left) && evs[2] == Up(Left)
    ensures 50.0 <= ClickEvents(p, d)[1].ms < 150.0
  {
    var evs := ClickEvents(p, d);
    ScaleBelow(d.hold, 100.0);
    PressReleaseShape(Left, 50.0 + d.hold * 100.0);
    assert evs == PressRelease(Left, 50.0 + d.hold * 100.0) + [Move(Drifted(p, d))];
    var tail := [Move(Drifted(p, d))];
    assert tail[1..] == [];
    MovesAppend(PressRelease(Left, 50.0 + d.hold * 100.0), tail);
    CountAppend(PressRelease(Left, 50.0 + d.hold * 100.0), tail, Down(Left));
    CountAppend(PressRelease(Left, 50.0 + d.hold * 100.0), tail, Up(Left));
  }

  /** The draws of one `moveTo`: the step count and the overshoot sign per axis. */
  datatype MoveDraws = MoveDraws(steps: Draw, overshootX: Draw, overshootY: Draw)

  /** The points `moveTo` replays: the curve library's samples of the overshooting curve. */
  function PlannedPath(start: Point, end: Point, steps: Option<int>, config: Config, draws: MoveDraws, lut: Lut): seq<Point> {
    lut(OvershootControlPoints(start, end, draws.overshootX, draws.overshootY),
        StepCount(steps, config, draws.steps))
  }

  /** The `options` object of `moveTo`/`click`: the caller's, and `click` writes to it. */
  class MoveOptions {
    var click: bool
    var steps: Option<int>

    constructor (click: bool, steps: Option<int>)
      ensures this.click == click && this.steps == steps
    {
      this.click := click;
      this.steps := steps;
    }
  }

  class HumanMouse {
    const config: Config
    /** The pointer position as the driver believes it to be. */
    var currentPosition: Point
    /** Every command and wait sent so far. */
    var trace: seq<Event>

    /** `new HumanMouse(page, config)`. */
    constructor (minSteps: Option<int>, maxSteps: Option<int>, baseSpeed: Option<real>)
      ensures config == MakeConfig(minSteps, maxSteps, baseSpeed)
      ensures currentPosition == Point(0.0, 0.0) && trace == []
    {
      config := MakeConfig(minSteps, maxSteps, baseSpeed);
      currentPosition := Point(0.0, 0.0);
      trace := [];
    }

    /**
     * `_moveThroughPath`: per point, move there, record it as the position,
     * and wait a random delay, the last point included.
     */
    method MoveThroughPath(points: seq<Point>, delayDraws: nat -> Draw)
      modifies this
      ensures trace == old(trace) + Stepping(points, Delays(config.baseSpeed, delayDraws, |points|))
      ensures currentPosition == if points == [] then old(currentPosition) else points[|points| - 1]
    {
      ghost var delays := Delays(config.baseSpeed, delayDraws, |points|);
      var i := 0;
      while i < |points|
        invariant 0 <= i <= |points|
        invariant trace == old(trace) + Stepping(points[..i], delays[..i])
        invariant currentPosition == if i == 0 then old(currentPosition) else points[i - 1]
      {
        var point := points[i];
        trace := trace + [Move(point)];
        currentPosition := Point(point.x, point.y);
        var delay := RandomDelay(config.baseSpeed, delayDraws(i));
        SteppingSnoc(points, delays, i);
        trace := trace + [Wait(delay)];
        i := i + 1;
      }
      assert points[..i] == points && delays[..i] == delays;
    }

    /** `_humanClick`: press, hold, release, then drift from the current position. */
    method HumanClick(draws: ClickDraws)
      modifies this
      ensures trace == old(trace) + ClickEvents(old(currentPosition), draws)
      ensures currentPosition == Drifted(old(currentPosition), draws)
    {
      trace := trace + [Down(Left)];
      trace := trace + [Wait(50.0 + draws.hold * 100.0)];
      trace := trace + [Up(Left)];
      var x, y := currentPosition.x, currentPosition.y;
      var endX := x + Drift(draws.driftX);
      var endY := y + Drift(draws.driftY);
      trace := trace + [Move(Point(endX, endY))];
      currentPosition := Point(endX, endY);
    }

    /**
     * `moveTo`: replay the overshooting curve, record the target as the
     * position, and click there when the options ask for it.
     */
    method MoveTo(targetX: real, targetY: real, options: MoveOptions, draws: MoveDraws,
                  delayDraws: nat -> Draw, clickDraws: ClickDraws, lut: Lut)
      modifies this
      ensures var path := PlannedPath(old(currentPosition), Point(targetX, targetY), options.steps, config, draws, lut);
        trace == old(trace) + Stepping(path, Delays(config.baseSpeed, delayDraws, |path|))
                 + (if options.click then ClickEvents(Point(targetX, targetY), clickDraws) else [])
      ensures currentPosition == if options.click then Drifted(Point(targetX, targetY), clickDraws)
                                 else Point(targetX, targetY)
    {
      var start := Point(currentPosition.x, currentPosition.y);
      var steps := StepCount(options.steps, config, draws.steps);
      var path := lut(OvershootControlPoints(start, Point(targetX, targetY), draws.overshootX, draws.overshootY), steps);
      MoveThroughPath(path, delayDraws);
      currentPosition := Point(targetX, targetY);
      if options.click {
        HumanClick(clickDraws);
      }
    }

    /** `moveBy`: `moveTo` the current position shifted by (deltaX, deltaY). */
    method MoveBy(deltaX: real, deltaY: real, options: MoveOptions, draws: MoveDraws,
                  delayDraws: nat -> Draw, clickDraws: ClickDraws, lut: Lut)
      modifies this
      ensures var target := Point(old(currentPosition).x + deltaX, old(currentPosition).y + deltaY);
        var path := PlannedPath(old(currentPosition), target, options.steps, config, draws, lut);
        trace == old(trace) + Stepping(path, Delays(config.baseSpeed, delayDraws, |path|))
                 + (if options.click then ClickEvents(target, clickDraws) else []) &&
        currentPosition == if options.click then Drifted(target, clickDraws) else target
    {
      var targetX := currentPosition.x + deltaX;
      var targetY := currentPosition.y + deltaY;
      MoveTo(targetX, targetY, options, draws, delayDraws, clickDraws, lut);
    }

    /**
     * `click`: set the caller's `options.click` and `moveTo` the target, so
     * the pointer ends within [-2, 2) px of it on each axis, possibly on it.
     */
    method Click(targetX: real, targetY: real, options: MoveOptions, draws: MoveDraws,
                 delayDraws: nat -> Draw, clickDraws: ClickDraws, lut: Lut)
      modifies this, options
      ensures options.click && options.steps == old(options.steps)
      ensures var target := Point(targetX, targetY);
        var path := PlannedPath(old(currentPosition), target, options.steps, config, draws, lut);
        trace == old(trace) + Stepping(path, Delays(config.baseSpeed, delayDraws, |path|))
                 + ClickEvents(target, clickDraws) &&
        currentPosition == Drifted(target, clickDraws)
      ensures -2.0 <= currentPosition.x - targetX < 2.0 && -2.0 <= currentPosition.y - targetY < 2.0
    {
      options.click := true;
      MoveTo(targetX, targetY, options, draws, delayDraws, clickDraws, lut);
    }
  }
}
