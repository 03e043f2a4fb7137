/** Values shared by the client-side game modules: the scorer, the score, the
    board configuration and value snapshots of a ball and of a paddle. */
module Common {

  datatype Option<T> = None | Some(value: T)

  /** The side credited with a point ('left' or 'right' in the game). */
  datatype Side = Left | Right

  /** The `{left, right}` score object. */
  datatype Score = Score(left: nat, right: nat)

  /** The static board configuration (`CONFIG`): fixed for the whole run. */
  datatype Config = Config(width: real, height: real, paddleWidth: real, paddleHeight: real)

  /** The fields of a ball object at one instant. */
  datatype BallState = BallState(x: real, y: real, vx: real, vy: real, radius: real)

  /** A paddle's rectangle: its top-left corner and its size. */
  datatype Rect = Rect(x: real, y: real, width: real, height: real)

  /** `Math.abs` */
  function Abs(r: real): real
  {
    if r < 0.0 then -r else r
  }

  /** `Math.sign` */
  function Sign(r: real): real
  {
    if r > 0.0 then 1.0 else if r < 0.0 then -1.0 else 0.0
  }

  /** `Math.min` on two arguments */
  function Min(a: real, b: real): real
  {
    if a <= b then a else b
  }
}
