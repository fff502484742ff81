/**
 * The arithmetic of the frame-pacing loop `animate` in src/LightPillar.jsx:
 * JavaScript's remainder operator, the carry-over of the unused part of the
 * elapsed time, and the fixed animation-time step of a drawn frame.
 * Milliseconds and animation time are exact reals.
 */
module Pacing {

  /** Animation time added per drawn frame, before scaling by the rotation speed. */
  const FrameStep: real := 0.016

  /** Rounding toward zero, the quotient JavaScript's `%` is defined by. */
  function Trunc(x: real): (n: int)
    ensures 0.0 <= x ==> 0 <= n && n as real <= x < n as real + 1.0
    ensures x < 0.0 ==> n <= 0 && n as real - 1.0 < x <= n as real
  {
    if x >= 0.0 then x.Floor else -((-x).Floor)
  }

  /** `q <= a / b < q + 1` scaled by a positive `b`. */
  lemma ScaleBounds(a: real, b: real, q: real)
    requires b > 0.0
    requires q <= a / b < q + 1.0
    ensures b * q <= a < b * q + b
  {
    assert a == b * (a / b);
    var lo, hi := a / b - q, q + 1.0 - a / b;
    assert lo >= 0.0 && hi > 0.0;
    assert b * lo >= 0.0 && b * hi > 0.0;
    assert b * lo == a - b * q;
    assert b * hi == b * q + b - a;
  }

  lemma DivNegate(a: real, b: real)
    requires b > 0.0
    ensures (-a) / b == -(a / b)
  {
  }

  /** JavaScript's `a % b` for a positive divisor: the sign follows the dividend. */
  function JsRem(a: real, b: real): (r: real)
    requires b > 0.0
    ensures 0.0 <= a ==> 0.0 <= r < b
    ensures a < 0.0 ==> -b < r <= 0.0
    ensures a - r == b * Trunc(a / b) as real
  {
    var q := Trunc(a / b);
    if a >= 0.0 then
      ScaleBounds(a, b, q as real);
      a - b * q as real
    else
      DivNegate(a, b);
      ScaleBounds(-a, b, -(q as real));
      a - b * q as real
  }

  /** The whole number of frame intervals the next `lastTime` moves forward by. */
  function FramesElapsed(delta: real, frameTime: real): int
    requires frameTime > 0.0
  {
    Trunc(delta / frameTime)
  }

  /**
   * `lastTime = currentTime - (deltaTime % frameTime)` on a drawn frame, where
   * `deltaTime = currentTime - lastTime >= frameTime`: the new reference point
   * moves forward, and lies within one frame interval before the current time.
   */
  function CarryOver(lastTime: real, currentTime: real, frameTime: real): (next: real)
    requires frameTime > 0.0 && currentTime - lastTime >= frameTime
    ensures 0.0 <= currentTime - next < frameTime
    ensures lastTime < next <= currentTime
  {
    currentTime - JsRem(currentTime - lastTime, frameTime)
  }

  /**
   * The carried-over reference point is the old one moved forward by a
   * positive whole number of frame intervals: no phase drift accumulates.
   */
  lemma CarryOverWholeFrames(lastTime: real, currentTime: real, frameTime: real)
    requires frameTime > 0.0 && currentTime - lastTime >= frameTime
    ensures FramesElapsed(currentTime - lastTime, frameTime) >= 1
    ensures CarryOver(lastTime, currentTime, frameTime) ==
      lastTime + frameTime * FramesElapsed(currentTime - lastTime, frameTime) as real
  {
  }

  /** `timeRef.current += 0.016 * rotationSpeed`: the step ignores how much wall time passed. */
  function Advance(time: real, rotationSpeed: real): (t: real)
    ensures t - time == FrameStep * rotationSpeed
    ensures rotationSpeed >= 0.0 ==> t >= time
    ensures rotationSpeed > 0.0 ==> t > time
  {
    time + FrameStep * rotationSpeed
  }

  /** Time after `n` drawn frames at one rotation speed. */
  function AdvanceN(time: real, rotationSpeed: real, n: nat): real {
    if n == 0 then time else Advance(AdvanceN(time, rotationSpeed, n - 1), rotationSpeed)
  }

  /** After `n` drawn frames animation time has moved by exactly `n` fixed steps. */
  lemma {:induction false} AdvanceNClosedForm(time: real, rotationSpeed: real, n: nat)
    ensures AdvanceN(time, rotationSpeed, n) == time + n as real * FrameStep * rotationSpeed
  {
    if n > 0 {
      AdvanceNClosedForm(time, rotationSpeed, n - 1);
      assert n as real * FrameStep * rotationSpeed
        == (n - 1) as real * FrameStep * rotationSpeed + FrameStep * rotationSpeed;
    }
  }
}
