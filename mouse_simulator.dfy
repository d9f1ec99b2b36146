/**
 * src/MouseSimulator.js: a pointer driver that animates moves with a
 * tween and clicks after a random pause at a jittered point, keeping its
 * own record of the position.
 *
 * The tween library is the parameter `tween`: the positions its update
 * callback reports, in order, for a start, a target, a duration and an
 * easing. Every `Math.random()` is a `Draw`.
 */
module MouseSimulator {
  import opened Pointer
  import SrcHumanMouse

  const DefaultDuration: real := 500.0
  const DefaultDelay: real := 100.0
  const DefaultJitter: real := 5.0

  /** An easing curve of the tween library, passed through untouched. */
  datatype Easing = QuadraticInOut | OtherEasing(name: string)

  /** The frames a tween from `start` to `target` reports to its update callback. */
  type Tween = (Point, Point, real, Easing) -> seq<Point>

  /** One actuator move per reported frame. */
  function FrameMoves(frames: seq<Point>): (evs: seq<Event>)
    ensures |evs| == |frames|
    ensures forall i :: 0 <= i < |frames| ==> evs[i] == Move(frames[i])
  {
    seq(|frames|, i requires 0 <= i < |frames| => Move(frames[i]))
  }

  /** Animating sends exactly the reported frames, in order, and nothing else. */
  lemma {:induction false} FrameMovesShape(frames: seq<Point>)
    ensures Moves(FrameMoves(frames)) == frames
    ensures Commands(FrameMoves(frames)) == |frames|
    ensures Waits(FrameMoves(frames)) == []
  {
    if frames != [] {
      assert FrameMoves(frames) == [Move(frames[0])] + FrameMoves(frames[1..]);
      FrameMovesShape(frames[1..]);
      MovesAppend([Move(frames[0])], FrameMoves(frames[1..]));
      CommandsAppend([Move(frames[0])], FrameMoves(frames[1..]));
      WaitsAppend([Move(frames[0])], FrameMoves(frames[1..]));
    }
  }

  /** `toPoint` is `_toPoint` of src/HumanMouse.js: with its defaults it keeps to the middle 60 % of the box. */
  lemma ToPointDefaults(box: Box, rx: Draw, ry: Draw)
    requires box.width >= 0.0 && box.height >= 0.0
    ensures var p := SrcHumanMouse.ToPoint(box, None, None, rx, ry);
      box.x + box.width * 0.2 <= p.x <= box.x + box.width * 0.8 &&
      box.y + box.height * 0.2 <= p.y <= box.y + box.height * 0.8
  {
  }

  datatype ClickOptions = ClickOptions(delay: Option<real>, jitter: Option<real>)

  /** The draws of `click`: the pause and the jitter on each axis. */
  datatype ClickDraws = ClickDraws(pause: Draw, jitterX: Draw, jitterY: Draw)

  /** Where `click` presses: the target shifted by the jitter on each axis. */
  function Jittered(x: real, y: real, jitter: real, d: ClickDraws): (p: Point)
    ensures jitter > 0.0 ==> -(jitter / 2.0) <= p.x - x < jitter / 2.0 && -(jitter / 2.0) <= p.y - y < jitter / 2.0
  {
    Point(x + CenteredOffset(d.jitterX, jitter), y + CenteredOffset(d.jitterY, jitter))
  }

  /** The pause before a click: `Math.random() * delay`, within [0, delay). */
  function Pause(delay: real, r: Draw): (ms: real)
    ensures delay > 0.0 ==> 0.0 <= ms < delay
  {
    if delay > 0.0 then ScaleBelow(r, delay); r * delay else r * delay
  }

  /** What `click` sends: the pause, then one click at the jittered point. */
  function ClickEvents(x: real, y: real, options: ClickOptions, d: ClickDraws): seq<Event> {
    [Wait(Pause(options.delay.GetOr(DefaultDelay), d.pause)),
     ClickAt(Jittered(x, y, options.jitter.GetOr(DefaultJitter), d))]
  }

  /** With the defaults the pause is under 100 ms and the press lands within 2.5 px of the target on each axis. */
  lemma DefaultClick(x: real, y: real, d: ClickDraws)
    ensures var evs := ClickEvents(x, y, ClickOptions(None, None), d);
      0.0 <= evs[0].ms < 100.0 &&
      -2.5 <= evs[1].at.x - x < 2.5 && -2.5 <= evs[1].at.y - y < 2.5
  {
  }

  /** The options object of `moveToClick`, handed to both `move` and `click`. */
  datatype MoveClickOptions = MoveClickOptions(duration: Option<real>, easing: Option<Easing>,
                                               delay: Option<real>, jitter: Option<real>)

  class MouseSimulator {
    /** The pointer position as the driver believes it to be. */
    var currentPosition: Point
    /** Every command and wait sent so far. */
    var trace: seq<Event>

    /** `new MouseSimulator(page)`: the position starts at the origin. */
    constructor ()
      ensures currentPosition == Point(0.0, 0.0) && trace == []
    {
      currentPosition := Point(0.0, 0.0);
      trace := [];
    }

    /** `getPosition`: a copy of the recorded position. */
    method GetPosition() returns (p: Point)
      ensures p == currentPosition
    {
      p := Point(currentPosition.x, currentPosition.y);
    }

    /**
     * `move`: animate from the recorded position to (x, y); every frame the
     * tween reports is sent (a rejected one is ignored) and becomes the
     * position. Duration defaults to 500 ms and easing to quadratic in-out.
     */
    method Move(x: real, y: real, duration: Option<real>, easing: Option<Easing>, tween: Tween)
      modifies this
      ensures var frames := tween(old(currentPosition), Point(x, y), duration.GetOr(DefaultDuration),
                                  easing.GetOr(QuadraticInOut));
        trace == old(trace) + FrameMoves(frames) &&
        currentPosition == if frames == [] then old(currentPosition) else frames[|frames| - 1]
    {
      var start := GetPosition();
      var frames := tween(start, Point(x, y), duration.GetOr(DefaultDuration), easing.GetOr(QuadraticInOut));
      var i := 0;
      while i < |frames|
        invariant 0 <= i <= |frames|
        invariant trace == old(trace) + FrameMoves(frames[..i])
        invariant currentPosition == if i == 0 then old(currentPosition) else frames[i - 1]
      {
        assert FrameMoves(frames[..i + 1]) == FrameMoves(frames[..i]) + [Event.Move(frames[i])];
        trace := trace + [Event.Move(frames[i])];
        currentPosition := Point(frames[i].x, frames[i].y);
        i := i + 1;
      }
      assert frames[..i] == frames;
    }

    /**
     * `click`: pause a random fraction of `delay`, record the jittered point
     * as the position, and click exactly there.
     */
    method Click(x: real, y: real, options: ClickOptions, draws: ClickDraws)
      modifies this
      ensures trace == old(trace) + ClickEvents(x, y, options, draws)
      ensures currentPosition == Jittered(x, y, options.jitter.GetOr(DefaultJitter), draws)
      ensures trace[|trace| - 1] == ClickAt(currentPosition)
    {
      var delay := options.delay.GetOr(DefaultDelay);
      var jitter := options.jitter.GetOr(DefaultJitter);
      trace := trace + [Wait(Pause(delay, draws.pause))];
      var jitterX := x + CenteredOffset(draws.jitterX, jitter);
      var jitterY := y + CenteredOffset(draws.jitterY, jitter);
      currentPosition := Point(jitterX, jitterY);
      trace := trace + [ClickAt(Point(jitterX, jitterY))];
    }

    /** `moveRelative`: `move` to the recorded position shifted by (deltaX, deltaY). */
    method MoveRelative(deltaX: real, deltaY: real, duration: Option<real>, easing: Option<Easing>, tween: Tween)
      modifies this
      ensures var target := Point(old(currentPosition).x + deltaX, old(currentPosition).y + deltaY);
        var frames := tween(old(currentPosition), target, duration.GetOr(DefaultDuration), easing.GetOr(QuadraticInOut));
        trace == old(trace) + FrameMoves(frames) &&
        currentPosition == if frames == [] then old(currentPosition) else frames[|frames| - 1]
    {
      var p := GetPosition();
      Move(p.x + deltaX, p.y + deltaY, duration, easing, tween);
    }

    /**
     * `moveToClick`: `move` to (x, y) with the options' duration and easing,
     * then `click` at (x, y) with the options' delay and jitter; the position
     * ends at the jittered point, not at (x, y).
     */
    method MoveToClick(x: real, y: real, options: MoveClickOptions, draws: ClickDraws, tween: Tween)
      modifies this
      ensures var frames := tween(old(currentPosition), Point(x, y), options.duration.GetOr(DefaultDuration),
                                  options.easing.GetOr(QuadraticInOut));
        var clickOptions := ClickOptions(options.delay, options.jitter);
        trace == old(trace) + FrameMoves(frames) + ClickEvents(x, y, clickOptions, draws) &&
        currentPosition == Jittered(x, y, options.jitter.GetOr(DefaultJitter), draws)
    {
      Move(x, y, options.duration, options.easing, tween);
      Click(x, y, ClickOptions(options.delay, options.jitter), draws);
    }
  }
}
