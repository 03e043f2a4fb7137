/** The ball entity (src/entities/ball.js). The two `Math.random()` draws of
    `reset` are parameters. */
module BallEntity {
  import opened Common

  /** The default `speed` argument of `reset`. */
  const DefaultSpeed: real := 5.0

  /** What `reset(x, y, speed)` makes of a ball, given the two random draws in
      the order the source takes them: `draw1` picks the horizontal sign,
      `draw2` the vertical speed. */
  function ResetState(b: BallState, x: real, y: real, draw1: real, draw2: real, speed: real): (r: BallState)
    ensures r.x == x && r.y == y && r.radius == b.radius
    ensures Abs(r.vx) == Abs(speed)
    ensures speed > 0.0 ==> (r.vx > 0.0 <==> draw1 > 0.5)
    ensures speed > 0.0 && 0.0 <= draw2 < 1.0 ==> -speed / 2.0 <= r.vy < speed / 2.0
  {
    var sx := if draw1 > 0.5 then 1.0 else -1.0;
    var vy := (draw2 - 0.5) * speed;
    assert speed > 0.0 && draw2 < 1.0 ==> vy < 0.5 * speed;
    b.(x := x, y := y, vx := sx * speed, vy := vy)
  }

  class Ball {
    var x: real
    var y: real
    var vx: real
    var vy: real
    /** set to 8 at construction and never reassigned */
    const radius: real := 8.0

    constructor (x: real, y: real)
      ensures Value() == BallState(x, y, 5.0, 2.0, 8.0)
    {
      this.x := x;
      this.y := y;
      vx := 5.0;
      vy := 2.0;
    }

    /** The ball's fields as a value. */
    function Value(): BallState
      reads this
    {
      BallState(x, y, vx, vy, radius)
    }

    method Reset(x: real, y: real, draw1: real, draw2: real, speed: real := DefaultSpeed)
      modifies this
      ensures Value() == ResetState(old(Value()), x, y, draw1, draw2, speed)
    {
      this.x := x;
      this.y := y;
      vx := (if draw1 > 0.5 then 1.0 else -1.0) * speed;
      vy := (draw2 - 0.5) * speed;
    }
  }
}
