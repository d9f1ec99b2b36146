/**
 * Values shared by every variant of the human-like pointer driver: points,
 * element boxes, the commands sent to the pointer actuator (recorded as a
 * trace), random draws, and the foreign curve sampler.
 */
module Pointer {

  datatype Option<T> = None | Some(value: T) {
    /** The value, or `default` when absent: a JavaScript destructuring default. */
    function GetOr(default: T): T {
      match this
      case Some(v) => v
      case None => default
    }
  }

  datatype Result<T, E> = Ok(value: T) | Err(error: E)

  /** A position in device coordinates. */
  datatype Point = Point(x: real, y: real)

  /** An element's bounding box, as reported by the page. */
  datatype Box = Box(x: real, y: real, width: real, height: real)

  datatype Button = Left | Right | Middle

  /**
   * One command issued to the pointer actuator (`page.mouse.move/down/up/click`)
   * or one timed wait (`setTimeout`, `waitForTimeout`) between commands.
   */
  datatype Event =
    | Move(to: Point)
    | Down(button: Button)
    | Up(button: Button)
    | ClickAt(at: Point)
    | Wait(ms: real)
  {
    /** Commands reach the actuator and can be rejected by it; waits cannot. */
    predicate IsCommand() { !Wait? }
  }

  /** One value of `Math.random()`. */
  type Draw = r: real | 0.0 <= r < 1.0

  /** `new Bezier(...controlPoints).getLUT(steps)` of the bezier-js library. */
  type Lut = (seq<Point>, int) -> seq<Point>

  /** `d` is `Math.hypot(b.x - a.x, b.y - a.y)`. */
  predicate IsDistance(a: Point, b: Point, d: real) {
    d >= 0.0 && d * d == (b.x - a.x) * (b.x - a.x) + (b.y - a.y) * (b.y - a.y)
  }

  /** `sinPi(p)` stands for `Math.sin(p * Math.PI)`: within [0, 1] for p in [0, 1). */
  ghost predicate SineBounded(sinPi: real -> real) {
    forall p :: 0.0 <= p < 1.0 ==> 0.0 <= sinPi(p) <= 1.0
  }

  /** The point a fraction `f` of the way from `a` to `b`. */
  function Toward(a: Point, b: Point, f: real): Point {
    Point(a.x + (b.x - a.x) * f, a.y + (b.y - a.y) * f)
  }

  function Max(a: real, b: real): real {
    if a >= b then a else b
  }

  /** `p` differs from `q` by at most `e` on each axis. */
  predicate Within(p: Point, q: Point, e: real) {
    -e <= p.x - q.x <= e && -e <= p.y - q.y <= e
  }

  /** `Math.hypot(0, 0)` is 0: the distance from a point to itself vanishes. */
  lemma SamePointDistance(a: Point, d: real)
    requires IsDistance(a, a, d)
    ensures d == 0.0
  {
    if d > 0.0 {
      PositiveProduct(d, d);
    }
  }

  lemma PositiveProduct(a: real, b: real)
    requires a > 0.0 && b > 0.0
    ensures a * b > 0.0
  {
  }

  /** `r * s` lies in [0, s) for a draw `r` and a positive scale `s`. */
  lemma ScaleBelow(r: Draw, s: real)
    requires s > 0.0
    ensures 0.0 <= r * s < s
  {
  }

  /** `(r - 0.5) * s` lies in [-s/2, s/2] for a draw `r` and `s >= 0`. */
  lemma CenteredScale(r: Draw, s: real)
    requires s >= 0.0
    ensures -s / 2.0 <= (r - 0.5) * s <= s / 2.0
  {
  }

  /** `r * w` lies in [0, w] for a draw `r` and `w >= 0`. */
  lemma DrawScale(r: Draw, w: real)
    requires w >= 0.0
    ensures 0.0 <= r * w <= w
  {
    if w > 0.0 {
      if r > 0.0 {
        PositiveProduct(r, w);
      }
      PositiveProduct(1.0 - r, w);
      assert (1.0 - r) * w == w - r * w;
    }
  }

  /** `Math.random() * width - width / 2`: an offset in [-width/2, width/2). */
  function CenteredOffset(r: Draw, width: real): (offset: real)
    ensures width > 0.0 ==> -(width / 2.0) <= offset < width / 2.0
  {
    if width > 0.0 then ScaleBelow(r, width); r * width - width / 2.0
    else r * width - width / 2.0
  }

  /** `i / n` is a progress fraction in [0, 1) for `i < n`. */
  lemma ProgressBelowOne(i: nat, n: nat)
    requires i < n
    ensures 0.0 <= i as real / n as real < 1.0
  {
  }

  /** Scaling by `w >= 0` keeps a value between the scaled bounds. */
  lemma ScaleBetween(w: real, lo: real, f: real, hi: real)
    requires w >= 0.0 && lo <= f <= hi
    ensures w * lo <= w * f <= w * hi
  {
  }

  // ---------------------------------------------------------------- traces

  /** The points the actuator is sent, in order. */
  function Moves(evs: seq<Event>): (ps: seq<Point>)
    ensures |ps| <= |evs|
  {
    if evs == [] then []
    else (if evs[0].Move? then [evs[0].to] else []) + Moves(evs[1..])
  }

  /** The waits in a trace, in order. */
  function Waits(evs: seq<Event>): (ws: seq<real>)
    ensures |ws| <= |evs|
  {
    if evs == [] then []
    else (if evs[0].Wait? then [evs[0].ms] else []) + Waits(evs[1..])
  }

  /** How often `e` occurs in `evs`. */
  function Count(evs: seq<Event>, e: Event): (n: nat)
    ensures n <= |evs|
  {
    if evs == [] then 0 else (if evs[0] == e then 1 else 0) + Count(evs[1..], e)
  }

  /** How many actuator commands `evs` holds. */
  function Commands(evs: seq<Event>): (n: nat)
    ensures n <= |evs|
  {
    if evs == [] then 0 else (if evs[0].IsCommand() then 1 else 0) + Commands(evs[1..])
  }

  /**
   * What is issued when the actuator rejects command number `k` (counting
   * from 0) of `evs`: everything up to and including that command.
   */
  function CutAtCommand(evs: seq<Event>, k: nat): seq<Event> {
    if evs == [] then []
    else if evs[0].IsCommand() && k == 0 then [evs[0]]
    else [evs[0]] + CutAtCommand(evs[1..], if evs[0].IsCommand() then k - 1 else k)
  }

  /** Replaying a path: each point is sent, then its delay is waited. */
  function Stepping(points: seq<Point>, delays: seq<real>): (evs: seq<Event>)
    requires |points| == |delays|
    ensures |evs| == 2 * |points|
  {
    if points == [] then []
    else [Move(points[0]), Wait(delays[0])] + Stepping(points[1..], delays[1..])
  }

  /** Press, hold for `hold` milliseconds, release. */
  function PressRelease(button: Button, hold: real): seq<Event> {
    [Down(button), Wait(hold), Up(button)]
  }

  /** A press and release sends no move, one press, one release and waits the hold. */
  lemma PressReleaseShape(button: Button, hold: real)
    ensures Moves(PressRelease(button, hold)) == []
    ensures Waits(PressRelease(button, hold)) == [hold]
    ensures Count(PressRelease(button, hold), Down(button)) == 1
    ensures Count(PressRelease(button, hold), Up(button)) == 1
    ensures Commands(PressRelease(button, hold)) == 2
  {
    var last := [Up(button)];
    assert last[1..] == [];
    assert Moves(last) == [] && Waits(last) == [] && Commands(last) == 1;
    assert Count(last, Down(button)) == 0 && Count(last, Up(button)) == 1;
    var tail := [Wait(hold)] + last;
    assert tail[1..] == last;
    assert Moves(tail) == [] && Waits(tail) == [hold] && Commands(tail) == 1;
    assert Count(tail, Down(button)) == 0 && Count(tail, Up(button)) == 1;
    var evs := [Down(button)] + tail;
    assert evs[1..] == tail && evs == PressRelease(button, hold);
  }

  lemma {:induction false} MovesAppend(a: seq<Event>, b: seq<Event>)
    ensures Moves(a + b) == Moves(a) + Moves(b)
  {
    if a == [] {
      assert a + b == b;
    } else {
      assert (a + b)[0] == a[0] && (a + b)[1..] == a[1..] + b;
      MovesAppend(a[1..], b);
    }
  }

  lemma {:induction false} WaitsAppend(a: seq<Event>, b: seq<Event>)
    ensures Waits(a + b) == Waits(a) + Waits(b)
  {
    if a == [] {
      assert a + b == b;
    } else {
      assert (a + b)[0] == a[0] && (a + b)[1..] == a[1..] + b;
      WaitsAppend(a[1..], b);
    }
  }

  lemma {:induction false} CountAppend(a: seq<Event>, b: seq<Event>, e: Event)
    ensures Count(a + b, e) == Count(a, e) + Count(b, e)
  {
    if a == [] {
      assert a + b == b;
    } else {
      assert (a + b)[0] == a[0] && (a + b)[1..] == a[1..] + b;
      CountAppend(a[1..], b, e);
    }
  }

  lemma {:induction false} CommandsAppend(a: seq<Event>, b: seq<Event>)
    ensures Commands(a + b) == Commands(a) + Commands(b)
  {
    if a == [] {
      assert a + b == b;
    } else {
      assert (a + b)[0] == a[0] && (a + b)[1..] == a[1..] + b;
      CommandsAppend(a[1..], b);
    }
  }

  /** Rejecting a command after all of `a` leaves `a` complete. */
  lemma {:induction false} CutAfter(a: seq<Event>, b: seq<Event>, k: nat)
    requires Commands(a) <= k
    ensures CutAtCommand(a + b, k) == a + CutAtCommand(b, k - Commands(a))
  {
    if a == [] {
      assert a + b == b;
    } else {
      assert (a + b)[0] == a[0] && (a + b)[1..] == a[1..] + b;
      CutAfter(a[1..], b, if a[0].IsCommand() then k - 1 else k);
    }
  }

  /** Rejecting a command number past the last one cuts nothing. */
  lemma {:induction false} CutBeyond(evs: seq<Event>, k: nat)
    requires Commands(evs) <= k
    ensures CutAtCommand(evs, k) == evs
  {
    if evs != [] {
      CutBeyond(evs[1..], if evs[0].IsCommand() then k - 1 else k);
    }
  }

  /** A cut trace is a prefix of the full one. */
  lemma {:induction false} CutIsPrefix(evs: seq<Event>, k: nat)
    ensures CutAtCommand(evs, k) <= evs
  {
    if evs != [] && !(evs[0].IsCommand() && k == 0) {
      CutIsPrefix(evs[1..], if evs[0].IsCommand() then k - 1 else k);
    }
  }

  lemma {:induction false} SteppingAppend(p1: seq<Point>, d1: seq<real>, p2: seq<Point>, d2: seq<real>)
    requires |p1| == |d1| && |p2| == |d2|
    ensures Stepping(p1 + p2, d1 + d2) == Stepping(p1, d1) + Stepping(p2, d2)
  {
    if p1 == [] {
      assert p1 + p2 == p2 && d1 + d2 == d2;
    } else {
      assert (p1 + p2)[0] == p1[0] && (d1 + d2)[0] == d1[0];
      assert (p1 + p2)[1..] == p1[1..] + p2;
      assert (d1 + d2)[1..] == d1[1..] + d2;
      SteppingAppend(p1[1..], d1[1..], p2, d2);
    }
  }

  /** Extending a replay by one point appends exactly that point's move and wait. */
  lemma SteppingSnoc(points: seq<Point>, delays: seq<real>, i: nat)
    requires |points| == |delays| && i < |points|
    ensures Stepping(points[..i + 1], delays[..i + 1])
         == Stepping(points[..i], delays[..i]) + [Move(points[i]), Wait(delays[i])]
  {
    assert points[..i + 1] == points[..i] + [points[i]];
    assert delays[..i + 1] == delays[..i] + [delays[i]];
    SteppingAppend(points[..i], delays[..i], [points[i]], [delays[i]]);
  }

  /** A replay sends exactly the path's points, in path order, and waits exactly the delays. */
  lemma {:induction false} SteppingShape(points: seq<Point>, delays: seq<real>)
    requires |points| == |delays|
    ensures Moves(Stepping(points, delays)) == points
    ensures Waits(Stepping(points, delays)) == delays
    ensures Commands(Stepping(points, delays)) == |points|
  {
    if points != [] {
      var head := [Move(points[0]), Wait(delays[0])];
      var rest := Stepping(points[1..], delays[1..]);
      SteppingShape(points[1..], delays[1..]);
      MovesAppend(head, rest);
      WaitsAppend(head, rest);
      CommandsAppend(head, rest);
    }
  }

  /** When move number `i` is rejected, the points before it and the rejected one have been sent. */
  lemma SteppingCut(points: seq<Point>, delays: seq<real>, i: nat)
    requires |points| == |delays| && i < |points|
    ensures CutAtCommand(Stepping(points, delays), i)
         == Stepping(points[..i], delays[..i]) + [Move(points[i])]
    ensures Moves(CutAtCommand(Stepping(points, delays), i)) == points[..i + 1]
  {
    assert points == points[..i] + points[i..];
    assert delays == delays[..i] + delays[i..];
    SteppingAppend(points[..i], delays[..i], points[i..], delays[i..]);
    SteppingShape(points[..i], delays[..i]);
    CutAfter(Stepping(points[..i], delays[..i]), Stepping(points[i..], delays[i..]), i);
    MovesAppend(Stepping(points[..i], delays[..i]), [Move(points[i])]);
    assert points[..i + 1] == points[..i] + [points[i]];
  }

  // -------------------------------------------------- rejected commands

  /** What is issued when the actuator rejects command number `fault`, if any. */
  function Issued(evs: seq<Event>, fault: Option<nat>): seq<Event> {
    if fault.Some? then CutAtCommand(evs, fault.value) else evs
  }

  /** The rejected command number falls within `evs`. */
  predicate Rejected(evs: seq<Event>, fault: Option<nat>) {
    fault.Some? && fault.value < Commands(evs)
  }

  /** The rejected command number, counted from `n` commands later. */
  function Shift(fault: Option<nat>, n: nat): Option<nat> {
    if fault.Some? && fault.value >= n then Some(fault.value - n) else None
  }

  /** Rejecting a command inside `a` leaves everything after it unsent. */
  lemma {:induction false} CutWithin(a: seq<Event>, b: seq<Event>, k: nat)
    requires k < Commands(a)
    ensures CutAtCommand(a + b, k) == CutAtCommand(a, k)
  {
    assert a != [];
    assert (a + b)[0] == a[0] && (a + b)[1..] == a[1..] + b;
    if !(a[0].IsCommand() && k == 0) {
      CutWithin(a[1..], b, if a[0].IsCommand() then k - 1 else k);
    }
  }

  /** Issuing `a + b`: either the rejection falls in `a`, or `a` is sent whole and `b` is issued. */
  lemma IssuedAppend(a: seq<Event>, b: seq<Event>, fault: Option<nat>)
    ensures Rejected(a, fault) ==> Issued(a + b, fault) == Issued(a, fault)
    ensures !Rejected(a, fault) ==> Issued(a + b, fault) == a + Issued(b, Shift(fault, Commands(a)))
  {
    if fault.Some? {
      if fault.value < Commands(a) {
        CutWithin(a, b, fault.value);
      } else {
        CutAfter(a, b, fault.value);
      }
    }
  }

  /** Without a rejection inside `evs`, all of it is issued. */
  lemma IssuedWhole(evs: seq<Event>, fault: Option<nat>)
    requires !Rejected(evs, fault)
    ensures Issued(evs, fault) == evs
  {
    if fault.Some? {
      CutBeyond(evs, fault.value);
    }
  }

  /** A press and release is cut after the press when that is rejected, and whole otherwise. */
  lemma PressReleaseCut(button: Button, hold: real, k: nat)
    ensures CutAtCommand(PressRelease(button, hold), k)
         == if k == 0 then [Down(button)] else PressRelease(button, hold)
  {
    PressReleaseShape(button, hold);
    if k > 0 {
      var evs := PressRelease(button, hold);
      assert evs == [Down(button)] + [Wait(hold), Up(button)];
      var tail := [Wait(hold), Up(button)];
      assert tail[1..] == [Up(button)] && tail[1..][1..] == [];
      if k == 1 {
        assert CutAtCommand([Up(button)], 0) == [Up(button)];
        assert CutAtCommand(tail, 0) == tail;
      } else {
        assert CutAtCommand([], k - 1) == [];
        assert CutAtCommand([Up(button)], k - 1) == [Up(button)];
        assert CutAtCommand(tail, k - 1) == tail;
      }
    }
  }
}
