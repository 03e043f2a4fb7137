/** The standalone game (src/game.js): one ball, the player's paddle on the
    left driven by the keyboard, the AI's paddle on the right. Rendering and
    the animation-frame scheduling are outside the model; one call of Loop is
    one animation frame. */
module GameLoop {
  import opened Common
  import opened BallEntity
  import opened PaddleEntity
  import opened InputSystem
  import opened PhysicsSystem
  import opened AiSystem

  /** Nominal frame length in milliseconds. */
  const FrameMs: real := 16.6667

  /** Largest frame delta, in nominal frames, one iteration may apply. */
  const MaxDelta: real := 4.0

  /** Distance of each paddle from its side of the board. */
  const PaddleMargin: real := 30.0

  /** The frame delta of one loop iteration, in nominal frames, capped. */
  function FrameDelta(lastTs: real, ts: real): (dt: real)
    ensures dt <= MaxDelta
    ensures dt <= (ts - lastTs) / FrameMs
    ensures dt == MaxDelta || dt == (ts - lastTs) / FrameMs
  {
    Min((ts - lastTs) / FrameMs, MaxDelta)
  }

  /** The starting layout `reset` builds: paddles vertically centred, 30 units
      in from each side, the ball in the middle of the board. */
  ghost predicate Placed(cfg: Config, left: Paddle, right: Paddle, ball: Ball)
    reads left, right, ball
  {
    && left.x == PaddleMargin
    && right.x == cfg.width - PaddleMargin - cfg.paddleWidth
    && left.y == cfg.height / 2.0 - cfg.paddleHeight / 2.0
    && right.y == cfg.height / 2.0 - cfg.paddleHeight / 2.0
    && ball.Value() == BallState(cfg.width / 2.0, cfg.height / 2.0, 5.0, 2.0, 8.0)
  }

  /** The fresh paddles and ball of `reset`. */
  method NewPieces(cfg: Config) returns (left: Paddle, right: Paddle, ball: Ball)
    ensures fresh(left) && fresh(right) && fresh(ball) && left != right
    ensures Placed(cfg, left, right, ball)
  {
    var midY := cfg.height / 2.0;
    left := new Paddle(PaddleMargin, midY - cfg.paddleHeight / 2.0);
    right := new Paddle(cfg.width - PaddleMargin - cfg.paddleWidth, midY - cfg.paddleHeight / 2.0);
    ball := new Ball(cfg.width / 2.0, cfg.height / 2.0);
  }

  class Game {
    const cfg: Config
    const input: Input
    var left: Paddle
    var right: Paddle
    var ball: Ball
    var score: Score
    var lastTs: real
    var running: bool

    /** The two paddles are distinct objects. */
    ghost predicate Valid()
      reads this
    {
      left != right
    }

    constructor (cfg: Config)
      ensures Valid() && this.cfg == cfg
      ensures fresh(input) && input.keys == {}
      ensures fresh(left) && fresh(right) && fresh(ball)
      ensures Placed(cfg, left, right, ball)
      ensures score == Score(0, 0) && lastTs == 0.0 && !running
    {
      this.cfg := cfg;
      input := new Input();
      var l, r, b := NewPieces(cfg);
      left, right, ball := l, r, b;
      score := Score(0, 0);
      lastTs := 0.0;
      running := false;
    }

    /** `reset`: new paddles, a new ball and a zero score. */
    method Reset()
      modifies this
      ensures Valid()
      ensures fresh(left) && fresh(right) && fresh(ball)
      ensures Placed(cfg, left, right, ball)
      ensures score == Score(0, 0)
      ensures lastTs == old(lastTs) && running == old(running)
    {
      var l, r, b := NewPieces(cfg);
      left, right, ball := l, r, b;
      score := Score(0, 0);
    }

    method Start()
      modifies this`running
      ensures running
    {
      running := true;
    }

    method Stop()
      modifies this`running
      ensures !running
    {
      running := false;
    }

    /** One iteration of `loop(ts)`: nothing happens unless the game is
        running; otherwise the player's paddle follows the keyboard, the
        right paddle follows the AI, and the ball takes one physics step. The
        scorer that step reports is discarded, so the score never changes. */
    method Loop(ts: real)
      requires Valid()
      modifies this`lastTs, left, right, ball
      ensures Valid() && score == old(score) && running == old(running)
      ensures !old(running) ==>
                && lastTs == old(lastTs)
                && left.y == old(left.y) && right.y == old(right.y)
                && ball.Value() == old(ball.Value())
      ensures old(running) ==>
                && lastTs == ts
                && left.y == InputStep(old(left.y), left.height, left.speed, FrameDelta(old(lastTs), ts),
                                       input.IsKeyDown(ArrowUp), input.IsKeyDown(ArrowDown))
                && right.y == AIStep(old(right.y), right.height, GetPaddleDirection(old(right.Bounds()), old(ball.Value())),
                                     right.speed, FrameDelta(old(lastTs), ts))
                && ball.Value() == StepSpec(old(ball.Value()), [left.Bounds(), right.Bounds()], cfg).0
                && 0.0 <= left.y && left.y + left.height <= ClampMaxY
                && 0.0 <= right.y && right.y + right.height <= ClampMaxY
    {
      if !running {
        return;
      }
      var dt := Min((ts - lastTs) / FrameMs, MaxDelta);
      lastTs := ts;

      left.UpdateFromInput(input, dt);
      right.UpdateFromAI(ball, dt);

      var paddles := [left, right];
      assert Rects(paddles) == [left.Bounds(), right.Bounds()];
      var _ := Step(ball, paddles, cfg);
    }
  }
}
