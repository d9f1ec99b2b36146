/**
 * HumanMouseTongyi.js: the curve and delay helpers of src/HumanMouse.js,
 * a move that always asks the sampler for 50 steps and swallows any actuator error,
 * and a click that presses even after a failed move and swallows its own
 * errors too.
 *
 * The shared helpers (`generateControlPoints`, `getDynamicDelay`,
 * `getRandomDelay`) are the ones of `SrcHumanMouse`. A rejected actuator
 * command is given as `fault`: the number, counted from 0 within the call,
 * of the command the actuator rejects, if any.
 */
module HumanMouseTongyi {
  import opened Pointer
  import SrcHumanMouse

  /** `moveTo` asks the curve library for this many samples, whatever the options. */
  const SampleCount: int := 50

  datatype MoveOptions = MoveOptions(speed: Option<real>, randomness: Option<real>)

  /** The points `moveTo` replays: what the sampler returns when asked for 50 steps of the perturbed curve. */
  function PlannedPath(start: Point, end: Point, distance: real, randomness: real,
                       curve: SrcHumanMouse.CurveDraws, lut: Lut): seq<Point>
  {
    lut(SrcHumanMouse.GenerateControlPoints(start, end, distance, randomness, curve), SampleCount)
  }

  /** Everything `moveTo` would send if no command were rejected. */
  function MoveEvents(start: Point, end: Point, distance: real, options: MoveOptions,
                      curve: SrcHumanMouse.CurveDraws, lut: Lut, sinPi: real -> real): seq<Event>
  {
    var path := PlannedPath(start, end, distance, options.randomness.GetOr(0.3), curve, lut);
    Stepping(path, SrcHumanMouse.DynamicDelays(|path|, options.speed.GetOr(0.5), sinPi))
  }

  /**
   * A move sends each of its points in order, waits at least 10 ms after
   * each, and has one command per point; the step count is never an option.
   */
  lemma MoveEventsShape(start: Point, end: Point, distance: real, options: MoveOptions,
                        curve: SrcHumanMouse.CurveDraws, lut: Lut, sinPi: real -> real)
    ensures var path := PlannedPath(start, end, distance, options.randomness.GetOr(0.3), curve, lut);
      var evs := MoveEvents(start, end, distance, options, curve, lut, sinPi);
      Moves(evs) == path && Commands(evs) == |path| &&
      (forall w :: w in Waits(evs) ==> w >= 10.0) &&
      path == lut(SrcHumanMouse.GenerateControlPoints(start, end, distance, options.randomness.GetOr(0.3), curve), 50)
  {
    var path := PlannedPath(start, end, distance, options.randomness.GetOr(0.3), curve, lut);
    SteppingShape(path, SrcHumanMouse.DynamicDelays(|path|, options.speed.GetOr(0.5), sinPi));
  }

  /**
   * When move number `k` is rejected, exactly the points before it and the
   * rejected one have been sent, and nothing after it.
   */
  lemma RejectedMoveShape(start: Point, end: Point, distance: real, options: MoveOptions,
                          curve: SrcHumanMouse.CurveDraws, lut: Lut, sinPi: real -> real, k: nat)
    requires k < |PlannedPath(start, end, distance, options.randomness.GetOr(0.3), curve, lut)|
    ensures var path := PlannedPath(start, end, distance, options.randomness.GetOr(0.3), curve, lut);
      Moves(Issued(MoveEvents(start, end, distance, options, curve, lut, sinPi), Some(k))) == path[..k + 1]
  {
    var path := PlannedPath(start, end, distance, options.randomness.GetOr(0.3), curve, lut);
    SteppingCut(path, SrcHumanMouse.DynamicDelays(|path|, options.speed.GetOr(0.5), sinPi), k);
  }

  /**
   * A single press and release under a rejection: a rejected press sends
   * only the press; a rejected release sends the press, the hold and the
   * release; any later or no rejection sends the whole pair and succeeds.
   */
  lemma PressIssued(button: Button, hold: real, fault: Option<nat>)
    ensures fault == Some(0) ==>
      Issued(PressRelease(button, hold), fault) == [Down(button)] && Rejected(PressRelease(button, hold), fault)
    ensures fault == Some(1) ==>
      Issued(PressRelease(button, hold), fault) == [Down(button), Wait(hold), Up(button)] &&
      Rejected(PressRelease(button, hold), fault)
    ensures (fault.None? || fault.value >= 2) ==>
      Issued(PressRelease(button, hold), fault) == PressRelease(button, hold) &&
      !Rejected(PressRelease(button, hold), fault)
  {
    PressReleaseShape(button, hold);
    if fault.Some? {
      PressReleaseCut(button, hold, fault.value);
    }
  }

  /**
   * A double click issues the first press and release up to a rejection in
   * it; otherwise all of it, the gap, and the second pair up to a rejection
   * in that.
   */
  lemma DoublePressIssued(button: Button, hold: real, gap: real, secondHold: real, fault: Option<nat>)
    ensures var first, second := PressRelease(button, hold), PressRelease(button, secondHold);
      var evs := first + ([Wait(gap)] + second);
      (Rejected(first, fault) ==> Issued(evs, fault) == Issued(first, fault)) &&
      (!Rejected(first, fault) ==> Issued(evs, fault) == first + [Wait(gap)] + Issued(second, Shift(fault, 2)))
  {
    var first, second := PressRelease(button, hold), PressRelease(button, secondHold);
    PressReleaseShape(button, hold);
    IssuedAppend(first, [Wait(gap)] + second, fault);
    if !Rejected(first, fault) {
      var gapEvs := [Wait(gap)];
      assert gapEvs[1..] == [];
      IssuedAppend(gapEvs, second, Shift(fault, 2));
      assert Shift(Shift(fault, 2), 0) == Shift(fault, 2);
    }
  }

  /** A replay whose move number `i` is rejected has sent the steps before it and that move, and counts as rejected. */
  lemma RejectedStep(points: seq<Point>, delays: seq<real>, i: nat)
    requires |points| == |delays| && i < |points|
    ensures Issued(Stepping(points, delays), Some(i)) == Stepping(points[..i], delays[..i]) + [Move(points[i])]
    ensures Rejected(Stepping(points, delays), Some(i))
  {
    SteppingShape(points, delays);
    SteppingCut(points, delays, i);
  }

  /** A replay with no rejected move among its points sends all of them and does not count as rejected. */
  lemma CompletedReplay(points: seq<Point>, delays: seq<real>, fault: Option<nat>)
    requires |points| == |delays|
    requires fault.None? || fault.value >= |points|
    ensures Issued(Stepping(points, delays), fault) == Stepping(points, delays)
    ensures !Rejected(Stepping(points, delays), fault)
  {
    SteppingShape(points, delays);
    IssuedWhole(Stepping(points, delays), fault);
  }

  datatype ClickOptions = ClickOptions(doubleClick: Option<bool>, button: Option<Button>)

  class HumanMouse {
    /** The pointer position as the driver believes it to be. */
    var currentPosition: Point
    /** Every command and wait sent so far, a rejected command included. */
    var trace: seq<Event>

    constructor ()
      ensures currentPosition == Point(0.0, 0.0) && trace == []
    {
      currentPosition := Point(0.0, 0.0);
      trace := [];
    }

    /**
     * `moveTo`: replay the sampler's points for 50 steps of the curve with dynamic delays, then
     * record the target as the position. A rejected move ends the call
     * quietly with the position unchanged.
     */
    method MoveTo(x: real, y: real, options: MoveOptions, distance: real, curve: SrcHumanMouse.CurveDraws,
                  fault: Option<nat>, lut: Lut, sinPi: real -> real)
      requires IsDistance(currentPosition, Point(x, y), distance)
      modifies this
      ensures var evs := MoveEvents(old(currentPosition), Point(x, y), distance, options, curve, lut, sinPi);
        trace == old(trace) + Issued(evs, fault) &&
        currentPosition == if Rejected(evs, fault) then old(currentPosition) else Point(x, y)
    {
      var speed := options.speed.GetOr(0.5);
      var randomness := options.randomness.GetOr(0.3);
      var start, end := currentPosition, Point(x, y);
      var controlPoints := SrcHumanMouse.GenerateControlPoints(start, end, distance, randomness, curve);
      var points := lut(controlPoints, SampleCount);
      var ok := Replay(points, speed, fault, sinPi);
      if ok {
        currentPosition := end;
      }
    }

    /** The loop of `moveTo`: per point, move there and wait its dynamic delay, until a move is rejected. */
    method Replay(points: seq<Point>, speed: real, fault: Option<nat>, sinPi: real -> real) returns (ok: bool)
      modifies this
      ensures var evs := Stepping(points, SrcHumanMouse.DynamicDelays(|points|, speed, sinPi));
        trace == old(trace) + Issued(evs, fault) && ok == !Rejected(evs, fault)
      ensures currentPosition == old(currentPosition)
    {
      ghost var delays := SrcHumanMouse.DynamicDelays(|points|, speed, sinPi);
      var i := 0;
      while i < |points|
        invariant 0 <= i <= |points|
        invariant fault.None? || fault.value >= i
        invariant trace == old(trace) + Stepping(points[..i], delays[..i])
        invariant currentPosition == old(currentPosition)
      {
        var delay := SrcHumanMouse.DynamicDelay(i, |points|, speed, sinPi);
        trace := trace + [Move(points[i])];
        if fault == Some(i) {
          RejectedStep(points, delays, i);
          return false;
        }
        SteppingSnoc(points, delays, i);
        trace := trace + [Wait(delay)];
        i := i + 1;
      }
      assert points[..i] == points && delays[..i] == delays;
      CompletedReplay(points, delays, fault);
      ok := true;
    }

    /** Press and release `button`, holding for `hold`, unless a command is rejected. */
    method Press(button: Button, hold: real, fault: Option<nat>) returns (ok: bool)
      modifies this
      ensures trace == old(trace) + Issued(PressRelease(button, hold), fault)
      ensures ok == !Rejected(PressRelease(button, hold), fault)
      ensures currentPosition == old(currentPosition)
    {
      PressIssued(button, hold, fault);
      trace := trace + [Down(button)];
      if fault == Some(0) {
        return false;
      }
      trace := trace + [Wait(hold)];
      trace := trace + [Up(button)];
      ok := fault != Some(1);
    }

    /**
     * `click`: `moveTo` the target with no options (its own failure is
     * swallowed there), then press and release the button, and for a double
     * click wait and do it again; a rejected press or release ends the click
     * quietly.
     */
    method Click(x: real, y: real, options: ClickOptions, distance: real, curve: SrcHumanMouse.CurveDraws,
                 moveFault: Option<nat>, clickFault: Option<nat>, presses: SrcHumanMouse.ClickDraws,
                 lut: Lut, sinPi: real -> real)
      requires IsDistance(currentPosition, Point(x, y), distance)
      modifies this
      ensures var move := MoveEvents(old(currentPosition), Point(x, y), distance, MoveOptions(None, None), curve, lut, sinPi);
        trace == old(trace) + Issued(move, moveFault)
                 + Issued(SrcHumanMouse.ClickPresses(options.button.GetOr(Left), options.doubleClick.GetOr(false), presses), clickFault) &&
        currentPosition == if Rejected(move, moveFault) then old(currentPosition) else Point(x, y)
    {
      var doubleClick := options.doubleClick.GetOr(false);
      var button := options.button.GetOr(Left);
      MoveTo(x, y, MoveOptions(None, None), distance, curve, moveFault, lut, sinPi);
      Presses(button, doubleClick, presses, clickFault);
    }

    /** The presses of `click` after the move, until one is rejected. */
    method Presses(button: Button, doubleClick: bool, presses: SrcHumanMouse.ClickDraws, fault: Option<nat>)
      modifies this
      ensures trace == old(trace) + Issued(SrcHumanMouse.ClickPresses(button, doubleClick, presses), fault)
      ensures currentPosition == old(currentPosition)
    {
      var hold := SrcHumanMouse.RandomDelay(50, 150, presses.hold) as real;
      var ok := Press(button, hold, fault);
      if !doubleClick {
        assert SrcHumanMouse.ClickPresses(button, doubleClick, presses) == PressRelease(button, hold) + [];
        assert PressRelease(button, hold) + [] == PressRelease(button, hold);
        return;
      }
      var gap := SrcHumanMouse.RandomDelay(100, 300, presses.gap) as real;
      var secondHold := SrcHumanMouse.RandomDelay(50, 150, presses.secondHold) as real;
      DoublePressIssued(button, hold, gap, secondHold, fault);
      assert SrcHumanMouse.ClickPresses(button, doubleClick, presses)
          == PressRelease(button, hold) + ([Wait(gap)] + PressRelease(button, secondHold));
      if !ok {
        return;
      }
      IssuedWhole(PressRelease(button, hold), fault);
      trace := trace + [Wait(gap)];
      ok := Press(button, secondHold, Shift(fault, 2));
    }
  }
}
