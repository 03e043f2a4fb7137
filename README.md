# Pong: a verified model of the game rules and the multiplayer server

This project models the rules of a small browser pong game and of its
authoritative WebSocket server. It proves properties of that model in Dafny.

- **Client side.** The ball, paddle, input and game classes are Dafny classes.
  Their fields are the mutable state. Each method's new state is tied to a
  specification function of its old state:
  - `PaddleEntity`: `Clamped`, `InputStep` and `AIStep` for the paddle.
  - `BallEntity`: `ResetState` for the ball.
  - `PhysicsSystem`: `StepSpec` for one physics step.
  - `AiSystem`: the AI's steering rule, a pure function.
  - `GameLoop`: composes the pieces into one animation frame.
- **Server side.** The `MultiplayerServer.Server` class holds three things:
  - the two player slots;
  - the side of every open connection;
  - the game state.

  Its methods are connect (`assignSide`), close, move and the 60 Hz tick. Each
  one is tied to a function on values (`AssignSide`, `Release`, `ApplyMove`,
  `TickSpec`). The registry invariant `Valid` is kept by every method. It means
  at most one connection holds each player slot.

Arithmetic is on `real`. The client only adds, multiplies, and divides by
non-zero values, so `real` is exact for it. Connections are opaque natural
numbers. The two `Math.random()` draws of `Ball.reset` are parameters. The
board configuration `CONFIG` is a `Config` parameter.

The model follows the code as written:
- The server does not clamp or validate a `move`: the paddle takes `msg.y`
  exactly.
- The server has no rate limiting and no liveness checks.
- Every serve uses the fixed velocity (5, 3).
- The "English" factor a paddle hit adds is not confined to [-1, 1]. The ball
  overlaps the paddle when it is inside the paddle's half-height plus the
  ball's radius, so the factor stays strictly below `(half + radius) / half`
  in absolute value (`EnglishBounded`). An overlapping ball half a radius
  past the paddle's edge gets a factor above 1 (`EnglishBeyondOne`).
- Both paddle update methods clamp against the literal 600, not the configured
  board height.

## Model

| member | source | states |
|---|---|---|
| AiSystem.GetPaddleDirection | src/systems/ai.js:6-15 | The direction lies in [-0.9, 0.9] and has the sign of the ball's offset from the paddle centre. It is 0 when the ball is level with the centre. |
| AiSystem.DirectionSaturates | src/systems/ai.js:13-14 | The direction is ±0.9 when the offset is at least 30, and offset/30·0.9 below that. |
| AiSystem.DirectionIgnoresHorizontal | src/systems/ai.js:6-15 | Neither horizontal position nor the ball's velocity changes the direction. |
| InputSystem.Input.constructor | src/systems/input.js:2-3 | A fresh key set has no key down. |
| InputSystem.Input.IsKeyDown | src/systems/input.js:8-9 | A key is down exactly when it is in the held set. `KeyDown` and `KeyUp` state their effects through it. |
| InputSystem.Input.KeyDown | src/systems/input.js:4-9 | After keydown of `k`, `k` is down. Every other key keeps its state. Adding is idempotent. |
| InputSystem.Input.KeyUp | src/systems/input.js:5-9 | After keyup of `k`, `k` is up. Every other key keeps its state. |
| BallEntity.ResetState | src/entities/ball.js:10-14 | `reset` puts the ball at exactly (x, y) and keeps the radius. It gives \|vx\| = \|speed\|, positive iff the first draw exceeds 0.5 when speed > 0. A second draw in [0, 1) gives vy in [-speed/2, speed/2). |
| BallEntity.Ball.constructor | src/entities/ball.js:2-8 | A new ball is at (x, y) with velocity (5, 2) and radius 8. |
| BallEntity.Ball.Reset | src/entities/ball.js:10-14 | The ball's new fields are `ResetState` of the old ones; the default speed is 5. |
| PaddleEntity.Clamped | src/entities/paddle.js:22-25 | After clamping, y + height <= maxY, and y >= minY whenever the range fits the paddle. A paddle already in range is unchanged. The result is y, minY or maxY - height. |
| PaddleEntity.ClampedIdempotent | src/entities/paddle.js:22-25 | Clamping twice is clamping once. |
| PaddleEntity.ClampedBetween | src/entities/paddle.js:22-25 | Starting in range, the clamped target lies between the start and the target. |
| PaddleEntity.InputStep | src/entities/paddle.js:10-14 | The paddle moves by speed·dt down for ArrowDown and up for ArrowUp, then is clamped into [0, 600]. With both keys or neither held, only the clamp applies. |
| PaddleEntity.AIStep | src/entities/paddle.js:16-20 | Given the AI's direction, the paddle moves by dir·speed·dt and is clamped. It ends with y + height <= 600, and y >= 0 whenever it fits. With no direction only the clamp acts. |
| PaddleEntity.AIStepBounded | src/entities/paddle.js:16-20 | From inside [0, 600], a step in a direction within [-0.9, 0.9] moves the paddle by at most 0.9·speed·dt. It never moves against the sign the direction shares with a given offset. |
| PaddleEntity.AIStepTowardsBall | src/entities/paddle.js:16-20 | From inside [0, 600], a step in the direction the AI returns moves the paddle by at most 0.9·speed·dt and never away from the ball. |
| PaddleEntity.Paddle.constructor | src/entities/paddle.js:2-8 | A new paddle is at (x, y) with width 12, height 100 and speed 6. |
| PaddleEntity.Paddle.Clamp | src/entities/paddle.js:22-25 | The new `y` is `Clamped` of the old. |
| PaddleEntity.Paddle.UpdateFromInput | src/entities/paddle.js:10-14 | The new `y` is `InputStep` of the old `y` and the two arrow keys' states. It ends within [0, 600]. |
| PaddleEntity.Paddle.UpdateFromAI | src/entities/paddle.js:16-20 | The new `y` is `AIStep` of the old `y` in the direction the AI returns for the old rectangle and ball. It ends within [0, 600]. |
| PhysicsSystem.Advance | src/systems/physics.js:10-11 | The ball moves by its velocity; velocity and radius are kept. |
| PhysicsSystem.WallBounce | src/systems/physics.js:14-20 | A top breach puts y at radius and negates vy. Otherwise a bottom breach puts y at height - radius and negates vy. A ball inside is unchanged. When the board fits the ball, y ends within [radius, height - radius]. |
| PhysicsSystem.Overlaps | src/systems/physics.js:24-27 | The hit test: the ball, inflated by its radius, and the paddle's rectangle overlap, all four comparisons strict. |
| PhysicsSystem.Deflect | src/systems/physics.js:24-42 | On a hit, vx becomes -1.05·vx, so \|vx\| grows by 1.05. vy gains 2·(y - centre)/(height/2). The ball is placed flush left of the paddle if it was moving right, else flush right, and no longer overlaps it. |
| PhysicsSystem.EnglishBounded | src/systems/physics.js:33-34 | For an overlapping ball, the English added to vy is below 2·(half + radius)/half in absolute value. |
| PhysicsSystem.EnglishBeyondOne | src/systems/physics.js:24-34 | For any paddle and any positive radius, a ball centred half a radius below the paddle overlaps it, and the hit adds more than 2 to vy: the factor exceeds 1. |
| PhysicsSystem.CollideAll | src/systems/physics.js:23-43 | Paddle handling never changes the ball's y or radius. A ball that overlaps no paddle is left as it is. |
| PhysicsSystem.Scorer | src/systems/physics.js:46-54 | The scorer is right iff x + radius < 0, left iff the ball is not wholly left and x - radius > width, and none otherwise. |
| PhysicsSystem.StepSpec | src/systems/physics.js:8-55 | The reported scorer is that of the final ball. The radius is kept. y ends within [radius, height - radius] when the board fits the ball. A moved ball inside the walls that touches no paddle is exactly the old position plus the velocity. |
| PhysicsSystem.Collide | src/systems/physics.js:24-42 | One iteration of the paddle loop: `Deflect` on overlap, else no change. |
| PhysicsSystem.Rects | src/systems/physics.js:23 | The loop sees one rectangle per paddle, in order, each the paddle's own bounds and each of non-zero height. |
| PhysicsSystem.CollidePaddles | src/systems/physics.js:23-43 | The paddle loop leaves the ball as `CollideAll` of the ball it started with and the paddles' rectangles, in order. |
| PhysicsSystem.Step | src/systems/physics.js:8-55 | The new ball and the returned scorer are `StepSpec` of the old ball and the paddles. No paddle moves and only the ball changes. |
| GameLoop.FrameDelta | src/game.js:42 | The frame delta is at most 4 and at most the elapsed time in nominal frames, and is one of the two. |
| GameLoop.NewPieces | src/game.js:26-29 | The left paddle is at x = 30 and the right at width - 30 - paddleWidth. Both are at y = height/2 - paddleHeight/2. The ball is at the board's centre. |
| GameLoop.Game.constructor | src/game.js:11-22 | A new game has an empty key set, the `reset` layout, score 0-0, lastTs 0 and is not running. |
| GameLoop.Game.Reset | src/game.js:25-31 | Fresh paddles and ball in the starting layout, and the score is 0-0. |
| GameLoop.Game.Start | src/game.js:33-36 | The game is running. |
| GameLoop.Game.Stop | src/game.js:38 | The game is not running. |
| GameLoop.Game.Loop | src/game.js:40-53 | A stopped game is unchanged. A running one does the following in order: sets lastTs to ts; moves the left paddle by `InputStep` and the right by `AIStep` with the capped frame delta; steps the ball by `StepSpec`; keeps both paddles within [0, 600]. The score never changes. |
| MultiplayerServer.AssignSide | src/server/server.js:18-31 | The result is left iff the left slot is empty. It is right iff left is taken and right is empty, and spectator iff both are taken. The connection is recorded in the slot it got, and an occupied slot is never overwritten. |
| MultiplayerServer.Release | src/server/server.js:98-101 | Closing a left or right connection empties exactly that slot. A spectator changes nothing. |
| MultiplayerServer.ApplyMove | src/server/server.js:92-95 | A left move sets only the left y, a right move only the right y, to exactly the sent value. A spectator's move changes nothing. The ball and score are untouched. |
| MultiplayerServer.LastMoveWins | src/server/server.js:93-94 | A move overwrites the previous one from that side, and repeating it changes nothing. |
| MultiplayerServer.RoundReset | src/server/server.js:33-37 | The ball is served at (400, 300) with velocity (5, 3), both paddles are at 250, and the score is kept. |
| MultiplayerServer.Moved | src/server/server.js:41-42 | The ball moves by its velocity; the velocity is kept. |
| MultiplayerServer.LeftHit | src/server/server.js:49-51 | The ball is at or left of x = 42 and its y is within the left paddle's 100-unit span, ends included. |
| MultiplayerServer.RightHit | src/server/server.js:55-57 | The ball is at or right of x = 760 and its y is within the right paddle's 100-unit span, ends included. |
| MultiplayerServer.TickSpec | src/server/server.js:41-68 | Neither score decreases, and at most one point is scored. A moved x < 0 scores for right, and x > 800 for left, with a reset round. Otherwise the ball is at the old position plus the velocity. vy is negated iff the moved y is <= 0 or >= 600. vx is negated iff a paddle's hit test holds. |
| MultiplayerServer.ScoresNeverDecrease | src/server/server.js:61-68 | Over n ticks neither score decreases and the total rises by at most n. |
| MultiplayerServer.Server.constructor | src/server/server.js:6-16 | Both slots are empty, there are no connections, and the state is the initial one. |
| MultiplayerServer.Server.Valid | src/server/server.js:18-31 | The registry invariant: each occupied slot holds an open connection whose side names it, and every connection whose side names a slot holds it. |
| MultiplayerServer.Server.Connect | src/server/server.js:18-31 | The slots and the returned side are `AssignSide` of the old slots. The connection's side is recorded, the state is unchanged, and the registry invariant is kept. |
| MultiplayerServer.Server.Close | src/server/server.js:98-101 | The slots become `Release` of the old slots by the connection's side. The connection is dropped and the registry invariant is kept. |
| MultiplayerServer.Server.Move | src/server/server.js:92-95 | The state becomes `ApplyMove` by the sender's side. |
| MultiplayerServer.Server.ResetRound | src/server/server.js:33-37 | The state becomes `RoundReset` of the old state. |
| MultiplayerServer.Server.Tick | src/server/server.js:41-68 | The state becomes `TickSpec` of the old state. |
| MultiplayerServer.SingleHolder | src/server/server.js:19-27 | Under the registry invariant, two connections with the same player side are the same connection. |
| MultiplayerServer.RoleChurn | src/server/server.js:18-31 | Connect, connect, connect, close the first, connect: the sides are left, right, spectator, then left again. The slots end as (4, 2). Close is the handler at server.js:98-101. |

## Left out

- The WebSocket server, `ws.send`, `broadcastState` and `JSON.stringify`/`JSON.parse` are not modelled. Neither are the `setInterval` scheduling or the startup log line. They are transport and timing, with no game logic.
- A malformed message is not modelled: a `JSON.parse` failure, or a message whose `type` is not `move`. Every modelled move carries a number `y`; a non-numeric `msg.y` has no `real` counterpart.
- `requestAnimationFrame`, `window`, `addEventListener` and the `Renderer` call in `loop` are not modelled. The handlers are methods, and one `loop` call is one `Loop(ts)`.
- `src/config.js` is not part of this model. `CONFIG` is an immutable `Config` parameter.
- `src/ai/index.js`, `src/ai/behavior.js` and `src/ai/movement.js` are not part of this model. They are not used by the game. `src/render/renderer.js` and `src/main.js` are drawing and DOM set-up.
- IEEE floating point is not modelled: NaN, infinities and the rounding of 1.05 and 16.6667. All arithmetic is exact `real` arithmetic.
- PaddleEntity.AIStepTowardsBall: the bound and the direction are stated for a paddle that starts inside [0, 600]. The two update methods keep that true after their first call.
- The default constructor arguments `x = 0, y = 0` of `Paddle` and `Ball` are not modelled. Every caller passes both.
- The client reconciliation layer, which would merge server pushes into the local game, is not part of this model. No client networking code appears among the modelled files: `Game` always runs the local AI match.
