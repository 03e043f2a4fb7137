/** The heuristic opponent (src/systems/ai.js). The AI object only holds its
    difficulty, which its constructor sets to 0.9 and nothing changes, so it is
    a constant here and the steering rule a pure function. */
module AiSystem {
  import opened Common

  /** `this.difficulty`: the largest steering magnitude. */
  const Difficulty: real := 0.9

  /** Vertical distance at which steering reaches full strength. */
  const SaturationDistance: real := 30.0

  /** The vertical distance from the paddle's centre to the ball. */
  function CentreOffset(paddle: Rect, ball: BallState): real
  {
    ball.y - (paddle.y + paddle.height / 2.0)
  }

  /** `getPaddleDirection`: steer towards the ball, proportionally to the
      distance, saturating at the difficulty. */
  function GetPaddleDirection(paddle: Rect, ball: BallState): (dir: real)
    ensures -Difficulty <= dir <= Difficulty
    ensures Sign(dir) == Sign(CentreOffset(paddle, ball))
    ensures CentreOffset(paddle, ball) == 0.0 ==> dir == 0.0
  {
    var paddleCenter := paddle.y + paddle.height / 2.0;
    var diff := ball.y - paddleCenter;
    var magnitude := Min(Abs(diff) / SaturationDistance, 1.0) * Difficulty;
    magnitude * Sign(diff)
  }

  /** The steering strength grows in proportion to the offset up to
      `SaturationDistance`, and is the full difficulty from there on. */
  lemma DirectionSaturates(paddle: Rect, ball: BallState)
    ensures Abs(CentreOffset(paddle, ball)) >= SaturationDistance ==>
              GetPaddleDirection(paddle, ball) == Sign(CentreOffset(paddle, ball)) * Difficulty
    ensures Abs(CentreOffset(paddle, ball)) < SaturationDistance ==>
              GetPaddleDirection(paddle, ball) == CentreOffset(paddle, ball) / SaturationDistance * Difficulty
  {
  }

  /** Only the vertical positions matter: neither the ball's nor the paddle's
      horizontal position, nor the ball's velocity, affects the direction. */
  lemma DirectionIgnoresHorizontal(paddle: Rect, ball: BallState, bx: real, px: real, vx: real, vy: real)
    ensures GetPaddleDirection(paddle.(x := px), ball.(x := bx, vx := vx, vy := vy))
         == GetPaddleDirection(paddle, ball)
  {
  }
}
