/**
 * src/HumanMouse.js: pointer motion along a cubic Bezier curve whose two
 * inner control points are perturbed in proportion to the travelled
 * distance, a sine-shaped delay after every sampled point, absolute and
 * relative moves, and clicks with a random hold and an optional second
 * press.
 *
 * The Bezier sampling (`getLUT` of bezier-js) is the parameter `lut`,
 * `Math.sin(p * Math.PI)` the parameter `sinPi`, `Math.hypot` the parameter
 * `distance`, and every `Math.random()` a `Draw`.
 */
module SrcHumanMouse {
  import opened Pointer

  const DefaultMinSteps: int := 15
  const DefaultMaxSteps: int := 50
  const DefaultSpeed: real := 0.5
  const DefaultRandomness: real := 0.3

  datatype Config = Config(minSteps: int, maxSteps: int)

  /** `_randomSteps`: `floor(r * (maxSteps - minSteps)) + minSteps`. */
  function RandomSteps(minSteps: int, maxSteps: int, r: Draw): (n: int)
    ensures minSteps < maxSteps ==> minSteps <= n < maxSteps
    ensures minSteps == maxSteps ==> n == minSteps
    ensures maxSteps < minSteps ==> maxSteps <= n <= minSteps
  {
    var span := (maxSteps - minSteps) as real;
    if span > 0.0 then ScaleBelow(r, span); (r * span).Floor + minSteps
    else (r * span).Floor + minSteps
  }

  /**
   * `_toPoint`: a point of the element's box at fractions of its width and
   * height drawn from [min, max), by default [0.2, 0.8).
   */
  function ToPoint(box: Box, min: Option<real>, max: Option<real>, rx: Draw, ry: Draw): (p: Point)
    ensures var lo, hi := min.GetOr(0.2), max.GetOr(0.8);
      lo <= hi && box.width >= 0.0 && box.height >= 0.0 ==>
        box.x + box.width * lo <= p.x <= box.x + box.width * hi &&
        box.y + box.height * lo <= p.y <= box.y + box.height * hi
  {
    var lo, hi := min.GetOr(0.2), max.GetOr(0.8);
    Point(BoxCoordinate(box.x, box.width, lo, hi, rx), BoxCoordinate(box.y, box.height, lo, hi, ry))
  }

  /** One axis of `_toPoint`: `origin + extent * (lo + r * (hi - lo))`. */
  function BoxCoordinate(origin: real, extent: real, lo: real, hi: real, r: Draw): (c: real)
    ensures lo <= hi && extent >= 0.0 ==> origin + extent * lo <= c <= origin + extent * hi
  {
    var f := Fraction(lo, hi, r);
    if lo <= hi && extent >= 0.0 then
      ScaleBetween(extent, lo, f, hi);
      origin + extent * f
    else
      origin + extent * f
  }

  /** `lo + r * (hi - lo)`: a fraction drawn from [lo, hi]. */
  function Fraction(lo: real, hi: real, r: Draw): (f: real)
    ensures lo <= hi ==> lo <= f <= hi
  {
    var w := hi - lo;
    if w >= 0.0 then DrawScale(r, w); lo + r * w
    else lo + r * w
  }

  /** The four draws that perturb the two inner control points, per axis. */
  datatype CurveDraws = CurveDraws(c1x: Draw, c1y: Draw, c2x: Draw, c2y: Draw)

  /**
   * `generateControlPoints`: start, a point near 0.3 of the way, a point near
   * 0.7 of the way (computed backwards from the end), end; each inner
   * coordinate is moved by `(r - 0.5) * distance * randomness`.
   */
  function GenerateControlPoints(start: Point, end: Point, distance: real, randomness: real, r: CurveDraws): (cps: seq<Point>)
    ensures |cps| == 4 && cps[0] == start && cps[3] == end
    ensures distance >= 0.0 && randomness >= 0.0 ==>
      Within(cps[1], Toward(start, end, 0.3), distance * randomness / 2.0) &&
      Within(cps[2], Toward(end, start, 0.3), distance * randomness / 2.0)
  {
    var cp1 := Point(start.x + (end.x - start.x) * 0.3 + Perturbation(r.c1x, distance, randomness),
                     start.y + (end.y - start.y) * 0.3 + Perturbation(r.c1y, distance, randomness));
    var cp2 := Point(end.x - (end.x - start.x) * 0.3 + Perturbation(r.c2x, distance, randomness),
                     end.y - (end.y - start.y) * 0.3 + Perturbation(r.c2y, distance, randomness));
    [start, cp1, cp2, end]
  }

  /** `(r - 0.5) * distance * randomness`: at most half of `distance * randomness` either way. */
  function Perturbation(r: Draw, distance: real, randomness: real): (offset: real)
    ensures distance >= 0.0 && randomness >= 0.0 ==>
      -(distance * randomness / 2.0) <= offset <= distance * randomness / 2.0
  {
    var s := distance * randomness;
    if distance >= 0.0 && randomness >= 0.0 then
      CenteredScale(r, s);
      assert (r - 0.5) * distance * randomness == (r - 0.5) * s;
      (r - 0.5) * distance * randomness
    else
      (r - 0.5) * distance * randomness
  }

  /** With no randomness the inner control points sit exactly at 0.3 and 0.7 of the way. */
  lemma ControlPointsWithoutRandomness(start: Point, end: Point, distance: real, r: CurveDraws)
    ensures GenerateControlPoints(start, end, distance, 0.0, r)
         == [start, Toward(start, end, 0.3), Toward(end, start, 0.3), end]
  {
  }

  /** A move onto the current position puts every control point on it. */
  lemma ControlPointsDegenerate(start: Point, distance: real, randomness: real, r: CurveDraws)
    requires IsDistance(start, start, distance)
    ensures GenerateControlPoints(start, start, distance, randomness, r) == [start, start, start, start]
  {
    SamePointDistance(start, distance);
  }

  /**
   * `getDynamicDelay`: `max(10, (10 + (1 - speed) * 50) * (1 - sin(pi * index / totalPoints)) * 0.5)`,
   * never below 10 ms, and for a speed in [0, 1] never above half the base delay.
   */
  function DynamicDelay(index: nat, totalPoints: nat, speed: real, sinPi: real -> real): (delay: real)
    requires index < totalPoints
    ensures delay >= 10.0
    ensures 0.0 <= speed <= 1.0 && SineBounded(sinPi) ==>
      delay <= Max(10.0, (10.0 + (1.0 - speed) * 50.0) / 2.0)
  {
    var progress := index as real / totalPoints as real;
    var baseDelay := 10.0 + (1.0 - speed) * 50.0;
    ProgressBelowOne(index, totalPoints);
    DampingBound(baseDelay, sinPi(progress));
    Max(10.0, baseDelay * (1.0 - sinPi(progress)) * 0.5)
  }

  lemma DampingBound(baseDelay: real, s: real)
    ensures baseDelay >= 0.0 && 0.0 <= s <= 1.0 ==> baseDelay * (1.0 - s) * 0.5 <= baseDelay / 2.0
  {
    if baseDelay >= 0.0 && 0.0 <= s <= 1.0 {
      ScaleBetween(baseDelay, 0.0, 1.0 - s, 1.0);
    }
  }

  /** The delay after each of `n` replayed points. */
  function DynamicDelays(n: nat, speed: real, sinPi: real -> real): (delays: seq<real>)
    ensures |delays| == n
    ensures forall i :: 0 <= i < n ==> delays[i] >= 10.0
  {
    seq(n, i requires 0 <= i < n => DynamicDelay(i, n, speed, sinPi))
  }

  /** `getRandomDelay(min, max)`: `floor(r * (max - min + 1)) + min`, an integer in [min, max]. */
  function RandomDelay(min: int, max: int, r: Draw): (ms: int)
    ensures min <= max ==> min <= ms <= max
  {
    var span := (max - min + 1) as real;
    if span > 0.0 then ScaleBelow(r, span); (r * span).Floor + min
    else (r * span).Floor + min
  }

  /** `options.steps || this._randomSteps()`: a missing or zero step count falls back to a random one. */
  function StepCount(steps: Option<int>, config: Config, r: Draw): (n: int)
    ensures steps.Some? && steps.value != 0 ==> n == steps.value
    ensures (steps.None? || steps.value == 0) && config.minSteps < config.maxSteps ==>
      config.minSteps <= n < config.maxSteps
  {
    if steps.Some? && steps.value != 0 then steps.value
    else RandomSteps(config.minSteps, config.maxSteps, r)
  }

  datatype MoveOptions = MoveOptions(steps: Option<int>, speed: Option<real>, randomness: Option<real>)

  /** The draws of one `moveTo`: the control-point perturbations and the step count. */
  datatype MoveDraws = MoveDraws(curve: CurveDraws, steps: Draw)

  /** The points `moveTo` replays: the curve library's samples of the perturbed curve. */
  function PlannedPath(start: Point, end: Point, distance: real, options: MoveOptions,
                       config: Config, draws: MoveDraws, lut: Lut): seq<Point>
  {
    lut(GenerateControlPoints(start, end, distance, options.randomness.GetOr(DefaultRandomness), draws.curve),
        StepCount(options.steps, config, draws.steps))
  }

  /** What `moveTo` sends: every planned point followed by its dynamic delay. */
  function MoveEvents(path: seq<Point>, options: MoveOptions, sinPi: real -> real): seq<Event> {
    Stepping(path, DynamicDelays(|path|, options.speed.GetOr(DefaultSpeed), sinPi))
  }

  /** A replay of `moveTo` sends each planned point once, in order, and never waits under 10 ms. */
  lemma MoveEventsShape(path: seq<Point>, options: MoveOptions, sinPi: real -> real)
    ensures Moves(MoveEvents(path, options, sinPi)) == path
    ensures forall w :: w in Waits(MoveEvents(path, options, sinPi)) ==> w >= 10.0
    ensures Commands(MoveEvents(path, options, sinPi)) == |path|
  {
    SteppingShape(path, DynamicDelays(|path|, options.speed.GetOr(DefaultSpeed), sinPi));
  }

  datatype ClickOptions = ClickOptions(doubleClick: bool, button: Option<Button>,
                                       steps: Option<int>, speed: Option<real>, randomness: Option<real>)

  /** The draws of one `click`: the hold, the gap before a second press, and the second hold. */
  datatype ClickDraws = ClickDraws(hold: Draw, gap: Draw, secondHold: Draw)

  /**
   * What `click` sends after the move: press, hold in [50, 150], release,
   * and for a double click a gap in [100, 300] and the same again.
   */
  function ClickPresses(button: Button, doubleClick: bool, d: ClickDraws): seq<Event> {
    PressRelease(button, RandomDelay(50, 150, d.hold) as real)
    + (if doubleClick
       then [Wait(RandomDelay(100, 300, d.gap) as real)] + PressRelease(button, RandomDelay(50, 150, d.secondHold) as real)
       else [])
  }

  /**
   * The presses of a click never move the pointer, press and release the
   * given button once (twice for a double click), and wait within the
   * hold and gap ranges.
   */
  lemma ClickPressesShape(button: Button, doubleClick: bool, d: ClickDraws)
    ensures Moves(ClickPresses(button, doubleClick, d)) == []
    ensures Count(ClickPresses(button, doubleClick, d), Down(button)) == if doubleClick then 2 else 1
    ensures Count(ClickPresses(button, doubleClick, d), Up(button)) == if doubleClick then 2 else 1
    ensures var ws := Waits(ClickPresses(button, doubleClick, d));
      |ws| == (if doubleClick then 3 else 1) && 50.0 <= ws[0] <= 150.0 &&
      (doubleClick ==> 100.0 <= ws[1] <= 300.0 && 50.0 <= ws[2] <= 150.0)
  {
    var hold := RandomDelay(50, 150, d.hold) as real;
    var first := PressRelease(button, hold);
    PressReleaseShape(button, hold);
    if doubleClick {
      var gap := [Wait(RandomDelay(100, 300, d.gap) as real)];
      var second := PressRelease(button, RandomDelay(50, 150, d.secondHold) as real);
      PressReleaseShape(button, RandomDelay(50, 150, d.secondHold) as real);
      assert gap[1..] == [];
      MovesAppend(gap, second);
      CountAppend(gap, second, Down(button));
      CountAppend(gap, second, Up(button));
      WaitsAppend(gap, second);
      MovesAppend(first, gap + second);
      CountAppend(first, gap + second, Down(button));
      CountAppend(first, gap + second, Up(button));
      WaitsAppend(first, gap + second);
    } else {
      assert ClickPresses(button, doubleClick, d) == first;
    }
  }

  class HumanMouse {
    const config: Config
    /** The pointer position as the driver believes it to be. */
    var currentPosition: Point
    /** Every command and wait sent so far. */
    var trace: seq<Event>

    /** `new HumanMouse(page, config)`: step bounds default to 15 and 50. */
    constructor (minSteps: Option<int>, maxSteps: Option<int>)
      ensures config == Config(minSteps.GetOr(DefaultMinSteps), maxSteps.GetOr(DefaultMaxSteps))
      ensures currentPosition == Point(0.0, 0.0) && trace == []
    {
      config := Config(minSteps.GetOr(DefaultMinSteps), maxSteps.GetOr(DefaultMaxSteps));
      currentPosition := Point(0.0, 0.0);
      trace := [];
    }

    /**
     * `moveTo`: replay the sampled curve, one move and one delay per point,
     * then record the target as the position; the position is not updated
     * along the way and no final move to the target is sent.
     */
    method MoveTo(x: real, y: real, options: MoveOptions, distance: real, draws: MoveDraws,
                  lut: Lut, sinPi: real -> real)
      requires IsDistance(currentPosition, Point(x, y), distance)
      modifies this
      ensures currentPosition == Point(x, y)
      ensures var path := PlannedPath(old(currentPosition), Point(x, y), distance, options, config, draws, lut);
        trace == old(trace) + MoveEvents(path, options, sinPi) &&
        Moves(trace[|old(trace)|..]) == path
    {
      var start, end := currentPosition, Point(x, y);
      var speed := options.speed.GetOr(DefaultSpeed);
      var controlPoints := GenerateControlPoints(start, end, distance, options.randomness.GetOr(DefaultRandomness), draws.curve);
      var steps := StepCount(options.steps, config, draws.steps);
      var points := lut(controlPoints, steps);
      ghost var delays := DynamicDelays(|points|, speed, sinPi);
      var i := 0;
      while i < |points|
        invariant 0 <= i <= |points|
        invariant currentPosition == start
        invariant trace == old(trace) + Stepping(points[..i], delays[..i])
      {
        var delay := DynamicDelay(i, |points|, speed, sinPi);
        SteppingSnoc(points, delays, i);
        trace := trace + [Move(points[i]), Wait(delay)];
        i := i + 1;
      }
      assert points[..i] == points && delays[..i] == delays;
      currentPosition := end;
      MoveEventsShape(points, options, sinPi);
      assert trace[|old(trace)|..] == MoveEvents(points, options, sinPi);
    }

    /** `moveBy`: `moveTo` the current position shifted by (deltaX, deltaY). */
    method MoveBy(deltaX: real, deltaY: real, options: MoveOptions, distance: real, draws: MoveDraws,
                  lut: Lut, sinPi: real -> real)
      requires IsDistance(currentPosition, Point(currentPosition.x + deltaX, currentPosition.y + deltaY), distance)
      modifies this
      ensures currentPosition == Point(old(currentPosition).x + deltaX, old(currentPosition).y + deltaY)
      ensures var path := PlannedPath(old(currentPosition), currentPosition, distance, options, config, draws, lut);
        trace == old(trace) + MoveEvents(path, options, sinPi)
    {
      var targetX := currentPosition.x + deltaX;
      var targetY := currentPosition.y + deltaY;
      MoveTo(targetX, targetY, options, distance, draws, lut, sinPi);
    }

    /**
     * `click`: `moveTo` the target with the click's step, speed and
     * randomness options, then press and release the button (default left),
     * and for a double click press and release it once more in place.
     */
    method Click(x: real, y: real, options: ClickOptions, distance: real, draws: MoveDraws,
                 presses: ClickDraws, lut: Lut, sinPi: real -> real)
      requires IsDistance(currentPosition, Point(x, y), distance)
      modifies this
      ensures currentPosition == Point(x, y)
      ensures var moveOptions := MoveOptions(options.steps, options.speed, options.randomness);
        var path := PlannedPath(old(currentPosition), Point(x, y), distance, moveOptions, config, draws, lut);
        trace == old(trace) + MoveEvents(path, moveOptions, sinPi)
                 + ClickPresses(options.button.GetOr(Left), options.doubleClick, presses)
    {
      var button := options.button.GetOr(Left);
      MoveTo(x, y, MoveOptions(options.steps, options.speed, options.randomness), distance, draws, lut, sinPi);
      trace := trace + [Down(button)];
      trace := trace + [Wait(RandomDelay(50, 150, presses.hold) as real)];
      trace := trace + [Up(button)];
      if options.doubleClick {
        trace := trace + [Wait(RandomDelay(100, 300, presses.gap) as real)];
        trace := trace + [Down(button)];
        trace := trace + [Wait(RandomDelay(50, 150, presses.secondHold) as real)];
        trace := trace + [Up(button)];
      }
    }
  }
}
