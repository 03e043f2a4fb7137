/** The paddle entity (src/entities/paddle.js). Its horizontal position and
    its size and speed are set at construction and never reassigned, so they
    are constants; only `y` changes. */
module PaddleEntity {
  import opened Common
  import opened AiSystem
  import opened InputSystem
  import opened BallEntity

  /** The upper bound both update methods clamp into: the literal 600 in the
      source, not the configured board height. */
  const ClampMaxY: real := 600.0

  /** `clamp(minY, maxY)` applied to a paddle at `y` of the given height. */
  function Clamped(y: real, height: real, minY: real, maxY: real): (r: real)
    ensures r + height <= maxY
    ensures height <= maxY - minY ==> minY <= r
    ensures minY <= y && y + height <= maxY ==> r == y
    ensures r == y || r == minY || r == maxY - height
  {
    var lifted := if y < minY then minY else y;
    if lifted + height > maxY then maxY - height else lifted
  }

  /** Clamping twice is clamping once. */
  lemma ClampedIdempotent(y: real, height: real, minY: real, maxY: real)
    ensures Clamped(Clamped(y, height, minY, maxY), height, minY, maxY) == Clamped(y, height, minY, maxY)
  {
  }

  /** When the paddle starts inside the clamp range, clamping a target keeps
      the paddle between its start and the target. */
  lemma ClampedBetween(y: real, target: real, height: real, minY: real, maxY: real)
    requires minY <= y && y + height <= maxY
    ensures var r := Clamped(target, height, minY, maxY);
      (y <= target ==> y <= r <= target) && (target <= y ==> target <= r <= y)
  {
  }

  /** `updateFromInput`: ArrowUp moves up by `speed*dt`, ArrowDown moves down
      by as much, then the paddle is clamped into `[0, ClampMaxY]`. */
  function InputStep(y: real, height: real, speed: real, dt: real, up: bool, down: bool): (r: real)
    ensures var delta := (if down then speed * dt else 0.0) - (if up then speed * dt else 0.0);
            r == Clamped(y + delta, height, 0.0, ClampMaxY)
    ensures up == down ==> r == Clamped(y, height, 0.0, ClampMaxY)
  {
    var afterUp := if up then y - speed * dt else y;
    var afterDown := if down then afterUp + speed * dt else afterUp;
    Clamped(afterDown, height, 0.0, ClampMaxY)
  }

  /** `updateFromAI` given the direction `dir` the AI returned: move by
      `dir*speed*dt`, then clamp into `[0, ClampMaxY]`. A paddle that fits
      the range ends inside it, and with no direction only the clamp acts. */
  function AIStep(y: real, height: real, dir: real, speed: real, dt: real): (r: real)
    ensures r + height <= ClampMaxY
    ensures height <= ClampMaxY ==> 0.0 <= r
    ensures dir == 0.0 ==> r == Clamped(y, height, 0.0, ClampMaxY)
  {
    Clamped(y + dir * speed * dt, height, 0.0, ClampMaxY)
  }

  /** From a position inside the clamp range, a step in a direction bounded
      by the difficulty moves the paddle by at most `Difficulty*speed*dt`,
      and never against the sign of `offset` when the direction shares it. */
  lemma AIStepBounded(y: real, height: real, dir: real, speed: real, dt: real, offset: real)
    requires 0.0 <= y && y + height <= ClampMaxY && 0.0 <= speed * dt
    requires -Difficulty <= dir <= Difficulty && Sign(dir) == Sign(offset)
    ensures Abs(AIStep(y, height, dir, speed, dt) - y) <= Difficulty * (speed * dt)
    ensures offset > 0.0 ==> AIStep(y, height, dir, speed, dt) >= y
    ensures offset < 0.0 ==> AIStep(y, height, dir, speed, dt) <= y
  {
    ScaledDirection(dir, speed, dt, dir * speed * dt, Sign(offset));
    ClampedStep(y, height, dir * speed * dt, Difficulty * (speed * dt), Sign(offset));
  }

  /** From a position inside the clamp range, an AI step never moves the
      paddle away from the ball and never by more than `Difficulty*speed*dt`. */
  lemma AIStepTowardsBall(paddle: Rect, speed: real, ball: BallState, dt: real)
    requires 0.0 <= paddle.y && paddle.y + paddle.height <= ClampMaxY && 0.0 <= speed * dt
    ensures var r := AIStep(paddle.y, paddle.height, GetPaddleDirection(paddle, ball), speed, dt);
      && Abs(r - paddle.y) <= Difficulty * (speed * dt)
      && (CentreOffset(paddle, ball) > 0.0 ==> r >= paddle.y)
      && (CentreOffset(paddle, ball) < 0.0 ==> r <= paddle.y)
  {
    AIStepBounded(paddle.y, paddle.height, GetPaddleDirection(paddle, ball), speed, dt, CentreOffset(paddle, ball));
  }

  /** A bounded step with a known sign, clamped, from inside the clamp range:
      the paddle moves no further than the bound, in the step's direction. */
  lemma ClampedStep(y: real, height: real, step: real, bound: real, s: real)
    requires 0.0 <= y && y + height <= ClampMaxY
    requires Abs(step) <= bound && (s > 0.0 ==> step >= 0.0) && (s < 0.0 ==> step <= 0.0)
    ensures Abs(Clamped(y + step, height, 0.0, ClampMaxY) - y) <= bound
    ensures s > 0.0 ==> Clamped(y + step, height, 0.0, ClampMaxY) >= y
    ensures s < 0.0 ==> Clamped(y + step, height, 0.0, ClampMaxY) <= y
  {
    ClampedBetween(y, y + step, height, 0.0, ClampMaxY);
  }

  /** A direction bounded by the difficulty, scaled by a non-negative factor,
      is bounded by the scaled difficulty and keeps the direction's sign. */
  lemma ScaledDirection(dir: real, speed: real, dt: real, step: real, s: real)
    requires -Difficulty <= dir <= Difficulty && 0.0 <= speed * dt
    requires step == dir * speed * dt
    requires Sign(dir) == s
    ensures Abs(step) <= Difficulty * (speed * dt)
    ensures s > 0.0 ==> step >= 0.0
    ensures s < 0.0 ==> step <= 0.0
  {
    var scale := speed * dt;
    assert step == dir * scale;
    if dir >= 0.0 {
      ScaleBelow(dir, Difficulty, scale);
    } else {
      ScaleBelow(-dir, Difficulty, scale);
      assert (-dir) * scale == -step;
    }
  }

  /** Scaling by a non-negative factor keeps a non-negative value
      non-negative and keeps it below a bound it was below. */
  lemma ScaleBelow(a: real, bound: real, scale: real)
    requires 0.0 <= a <= bound && 0.0 <= scale
    ensures 0.0 <= a * scale <= bound * scale
  {
  }

  class Paddle {
    const x: real
    var y: real
    const width: real := 12.0
    const height: real := 100.0
    const speed: real := 6.0

    constructor (x: real, y: real)
      ensures this.x == x && this.y == y
      ensures width == 12.0 && height == 100.0 && speed == 6.0
    {
      this.x := x;
      this.y := y;
    }

    /** The paddle's rectangle as a value. */
    function Bounds(): Rect
      reads this
    {
      Rect(x, y, width, height)
    }

    method Clamp(minY: real, maxY: real)
      modifies this
      ensures y == Clamped(old(y), height, minY, maxY)
    {
      if y < minY {
        y := minY;
      }
      if y + height > maxY {
        y := maxY - height;
      }
    }

    method UpdateFromInput(input: Input, dt: real)
      modifies this
      ensures y == InputStep(old(y), height, speed, dt, input.IsKeyDown(ArrowUp), input.IsKeyDown(ArrowDown))
      ensures 0.0 <= y && y + height <= ClampMaxY
    {
      if input.IsKeyDown(ArrowUp) {
        y := y - speed * dt;
      }
      if input.IsKeyDown(ArrowDown) {
        y := y + speed * dt;
      }
      Clamp(0.0, ClampMaxY);
    }

    method UpdateFromAI(ball: Ball, dt: real)
      modifies this
      ensures y == AIStep(old(y), height, GetPaddleDirection(old(Bounds()), old(ball.Value())), speed, dt)
      ensures 0.0 <= y && y + height <= ClampMaxY
    {
      var dir := GetPaddleDirection(Bounds(), ball.Value());
      y := y + dir * speed * dt;
      Clamp(0.0, ClampMaxY);
    }
  }
}
