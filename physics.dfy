/** The client-side simulation step (src/systems/physics.js): move the ball,
    bounce it off the top and bottom walls, deflect it off every paddle it
    overlaps, and report who scored. The score itself is never touched. */
module PhysicsSystem {
  import opened Common
  import opened BallEntity
  import opened PaddleEntity

  /** Factor by which a paddle hit multiplies the horizontal speed. */
  const SpeedUp: real := 1.05

  /** Scale of the vertical "English" a paddle hit adds. */
  const EnglishFactor: real := 2.0

  /** The ball after moving by its velocity. */
  function Advance(b: BallState): BallState
  {
    b.(x := b.x + b.vx, y := b.y + b.vy)
  }

  /** The top/bottom collision: a ball whose edge is past a wall is put back
      flush against it and its vertical velocity reversed. */
  function WallBounce(b: BallState, height: real): (r: BallState)
    ensures r.x == b.x && r.vx == b.vx && r.radius == b.radius
    ensures b.y - b.radius < 0.0 ==> r.y == b.radius && r.vy == -b.vy
    ensures b.y - b.radius >= 0.0 && b.y + b.radius > height ==> r.y == height - b.radius && r.vy == -b.vy
    ensures b.radius <= b.y <= height - b.radius ==> r == b
    ensures 2.0 * b.radius <= height ==> b.radius <= r.y <= height - b.radius
  {
    if b.y - b.radius < 0.0 then b.(y := b.radius, vy := -b.vy)
    else if b.y + b.radius > height then b.(y := height - b.radius, vy := -b.vy)
    else b
  }

  /** The overlap test between the ball, inflated by its radius, and a
      paddle's rectangle (all four comparisons strict). */
  predicate Overlaps(b: BallState, p: Rect)
  {
    && b.x - b.radius < p.x + p.width
    && b.x + b.radius > p.x
    && b.y - b.radius < p.y + p.height
    && b.y + b.radius > p.y
  }

  /** The response to a paddle hit: reverse and speed up `vx`, add English to
      `vy` according to where the paddle was struck, and push the ball out so
      that it is flush with the paddle face on the side it now moves towards. */
  function Deflect(b: BallState, p: Rect): (r: BallState)
    requires p.height != 0.0
    ensures r.y == b.y && r.radius == b.radius
    ensures r.vx == -SpeedUp * b.vx && Abs(r.vx) == SpeedUp * Abs(b.vx)
    ensures r.vy == b.vy + EnglishFactor * (b.y - (p.y + p.height / 2.0)) / (p.height / 2.0)
    ensures b.vx > 0.0 ==> r.vx < 0.0 && r.x + r.radius == p.x
    ensures b.vx <= 0.0 ==> r.vx >= 0.0 && r.x - r.radius == p.x + p.width
    ensures !Overlaps(r, p)
  {
    var incomingRight := b.vx > 0.0;
    var rel := (b.y - (p.y + p.height / 2.0)) / (p.height / 2.0);
    var x := if incomingRight then p.x - b.radius else p.x + p.width + b.radius;
    b.(x := x, vx := b.vx * -SpeedUp, vy := b.vy + rel * EnglishFactor)
  }

  /** The English added by a hit is bounded by the paddle's half-height
      inflated by the ball's radius, relative to the half-height: the factor
      `rel` lies strictly within `(half + radius) / half` of zero, which is
      more than 1 whenever the radius is positive. */
  lemma EnglishBounded(b: BallState, p: Rect)
    requires p.height > 0.0 && Overlaps(b, p)
    ensures var half := p.height / 2.0;
      Abs(Deflect(b, p).vy - b.vy) < EnglishFactor * ((half + b.radius) / half)
  {
    var half := p.height / 2.0;
    var d := b.y - (p.y + half);
    DivideBounds(d, half + b.radius, half);
  }

  /** The English is not confined to `[-EnglishFactor, EnglishFactor]`: a
      ball of positive radius that still overlaps a paddle, with its centre
      half a radius below the paddle's bottom edge, gains more than that. */
  lemma EnglishBeyondOne(p: Rect, radius: real, vx: real, vy: real)
    requires p.height > 0.0 && p.width >= 0.0 && radius > 0.0
    ensures var b := BallState(p.x, p.y + p.height + radius / 2.0, vx, vy, radius);
      Overlaps(b, p) && Deflect(b, p).vy - vy > EnglishFactor
  {
    var half := p.height / 2.0;
    var d := half + radius / 2.0;
    assert d / half > 1.0 by {
      var q := d / half;
      assert q * half == d;
    }
  }

  lemma DivideBounds(d: real, m: real, h: real)
    requires h > 0.0 && -m < d < m
    ensures -(m / h) < d / h < m / h
  {
    var q, bound := d / h, m / h;
    assert q * h == d && bound * h == m;
  }

  /** Every paddle rectangle can be divided by (the source divides by half
      its height). */
  predicate ProperPaddles(ps: seq<Rect>)
  {
    forall i | 0 <= i < |ps| :: ps[i].height != 0.0
  }

  /** The paddle loop: each paddle in turn deflects the ball if the ball, as
      left by the previous paddles, overlaps it. Paddles never move the ball
      vertically, and a ball that overlaps no paddle is left as it is. */
  function CollideAll(b: BallState, ps: seq<Rect>): (r: BallState)
    requires ProperPaddles(ps)
    ensures r.y == b.y && r.radius == b.radius
    ensures (forall i | 0 <= i < |ps| :: !Overlaps(b, ps[i])) ==> r == b
    decreases |ps|
  {
    if ps == [] then b
    else
      var next := if Overlaps(b, ps[0]) then Deflect(b, ps[0]) else b;
      assert next == b ==> forall i | 0 <= i < |ps| - 1 :: ps[1..][i] == ps[i + 1];
      CollideAll(next, ps[1..])
  }

  /** The scoring test: right scores when the ball is wholly past the left
      edge, left scores when it is wholly past the right edge. */
  function Scorer(b: BallState, width: real): (s: Option<Side>)
    ensures s == Some(Right) <==> b.x + b.radius < 0.0
    ensures s == Some(Left) <==> 0.0 <= b.x + b.radius && b.x - b.radius > width
    ensures s == None <==> 0.0 <= b.x + b.radius && b.x - b.radius <= width
  {
    if b.x + b.radius < 0.0 then Some(Right)
    else if b.x - b.radius > width then Some(Left)
    else None
  }

  /** The whole of `step` on values: the new ball and the reported scorer. */
  function StepSpec(b: BallState, ps: seq<Rect>, cfg: Config): (r: (BallState, Option<Side>))
    requires ProperPaddles(ps)
    ensures r.1 == Scorer(r.0, cfg.width)
    ensures r.0.radius == b.radius
    ensures 2.0 * b.radius <= cfg.height ==> b.radius <= r.0.y <= cfg.height - b.radius
    ensures b.radius <= Advance(b).y <= cfg.height - b.radius
            && (forall i | 0 <= i < |ps| :: !Overlaps(Advance(b), ps[i]))
            ==> r.0 == Advance(b)
  {
    var moved := WallBounce(Advance(b), cfg.height);
    var hit := CollideAll(moved, ps);
    (hit, Scorer(hit, cfg.width))
  }

  /** The rectangles of a sequence of paddles, in order. */
  function Rects(ps: seq<Paddle>): (r: seq<Rect>)
    reads ps
    ensures |r| == |ps|
    ensures forall i | 0 <= i < |ps| :: r[i] == ps[i].Bounds()
    ensures ProperPaddles(r)
  {
    if ps == [] then [] else [ps[0].Bounds()] + Rects(ps[1..])
  }

  /** One iteration of the paddle loop of `step`: deflect the ball off `p`
      if they overlap. */
  method Collide(ball: Ball, p: Paddle)
    modifies ball
    ensures ball.Value() == if Overlaps(old(ball.Value()), p.Bounds())
                            then Deflect(old(ball.Value()), p.Bounds())
                            else old(ball.Value())
  {
    if ball.x - ball.radius < p.x + p.width
      && ball.x + ball.radius > p.x
      && ball.y - ball.radius < p.y + p.height
      && ball.y + ball.radius > p.y
    {
      var incomingRight := ball.vx > 0.0;
      ball.vx := ball.vx * -SpeedUp;
      var rel := (ball.y - (p.y + p.height / 2.0)) / (p.height / 2.0);
      ball.vy := ball.vy + rel * EnglishFactor;
      if incomingRight {
        ball.x := p.x - ball.radius;
      } else {
        ball.x := p.x + p.width + ball.radius;
      }
    }
  }

  /** The fold from paddle `i` on is the first of those paddles, then the
      fold from paddle `i + 1` on. */
  lemma CollideAllUnfold(b: BallState, ps: seq<Rect>, i: nat)
    requires ProperPaddles(ps) && i < |ps|
    ensures ProperPaddles(ps[i..]) && ProperPaddles(ps[i + 1..])
    ensures CollideAll(b, ps[i..])
         == CollideAll(if Overlaps(b, ps[i]) then Deflect(b, ps[i]) else b, ps[i + 1..])
  {
    assert ps[i..][0] == ps[i];
    assert ps[i..][1..] == ps[i + 1..];
  }

  /** The paddle loop of `step`: every paddle in turn, in order. */
  method CollidePaddles(ball: Ball, paddles: seq<Paddle>)
    modifies ball
    ensures ball.Value() == CollideAll(old(ball.Value()), Rects(paddles))
  {
    ghost var rects := Rects(paddles);
    ghost var start := ball.Value();
    var i := 0;
    while i < |paddles|
      invariant 0 <= i <= |paddles|
      invariant CollideAll(ball.Value(), rects[i..]) == CollideAll(start, rects)
    {
      ghost var prev := ball.Value();
      Collide(ball, paddles[i]);
      CollideAllUnfold(prev, rects, i);
      i := i + 1;
    }
    assert rects[i..] == [];
  }

  /** `Physics.step`: updates the ball in place and returns the scorer; only
      the ball's fields change. */
  method Step(ball: Ball, paddles: seq<Paddle>, cfg: Config) returns (scorer: Option<Side>)
    modifies ball
    ensures (ball.Value(), scorer) == StepSpec(old(ball.Value()), Rects(paddles), cfg)
    ensures forall i | 0 <= i < |paddles| :: paddles[i].y == old(paddles[i].y)
  {
    ball.x := ball.x + ball.vx;
    ball.y := ball.y + ball.vy;

    if ball.y - ball.radius < 0.0 {
      ball.y := ball.radius;
      ball.vy := ball.vy * -1.0;
    } else if ball.y + ball.radius > cfg.height {
      ball.y := cfg.height - ball.radius;
      ball.vy := ball.vy * -1.0;
    }

    assert ball.Value() == WallBounce(Advance(old(ball.Value())), cfg.height);
    CollidePaddles(ball, paddles);

    if ball.x + ball.radius < 0.0 {
      return Some(Right);
    } else if ball.x - ball.radius > cfg.width {
      return Some(Left);
    }
    return None;
  }
}
