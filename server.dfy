/** The authoritative multiplayer server (src/server/server.js): the registry
    of the two player slots, the paddle moves clients send, and the 60 Hz
    simulation tick. Connections are opaque ids; the WebSocket transport, JSON
    and the broadcast of the state after every tick are outside the model. */
module MultiplayerServer {
  import opened Common

  /** An open connection (a `ws` object). */
  type ConnId = nat

  /** The `side` attached to a connection. */
  datatype Role = LeftPlayer | RightPlayer | Spectator

  /** `players`: which connection holds each slot, if any. */
  datatype Players = Players(left: Option<ConnId>, right: Option<ConnId>)

  datatype ServerBall = ServerBall(x: real, y: real, vx: real, vy: real)

  /** `state`: the two paddles' vertical positions, the ball and the score. */
  datatype State = State(leftY: real, rightY: real, ball: ServerBall, score: Score)

  const BoardWidth: real := 800.0
  const BoardHeight: real := 600.0
  const PaddleHeight: real := 100.0
  /** The ball is at the left paddle's face when `x <= LeftFaceX`. */
  const LeftFaceX: real := 42.0
  /** The ball is at the right paddle's face when `x >= RightFaceX`. */
  const RightFaceX: real := 760.0
  /** Paddle `y` at start and after every point. */
  const CentreY: real := 250.0
  /** The ball at start and after every point: centred, fixed velocity. */
  const ServeBall: ServerBall := ServerBall(400.0, 300.0, 5.0, 3.0)

  const InitialState: State := State(CentreY, CentreY, ServeBall, Score(0, 0))

  /** `assignSide`: the first free slot, left before right, else spectator.
      A slot is written only when it was empty. */
  function AssignSide(p: Players, id: ConnId): (r: (Players, Role))
    ensures r.1 == LeftPlayer <==> p.left.None?
    ensures r.1 == RightPlayer <==> p.left.Some? && p.right.None?
    ensures r.1 == Spectator <==> p.left.Some? && p.right.Some?
    ensures r.1 == LeftPlayer ==> r.0 == p.(left := Some(id))
    ensures r.1 == RightPlayer ==> r.0 == p.(right := Some(id))
    ensures r.1 == Spectator ==> r.0 == p
    ensures p.left.Some? ==> r.0.left == p.left
    ensures p.right.Some? ==> r.0.right == p.right
  {
    if p.left.None? then (p.(left := Some(id)), LeftPlayer)
    else if p.right.None? then (p.(right := Some(id)), RightPlayer)
    else (p, Spectator)
  }

  /** The `close` handler: the slot named by the closing connection's side is
      emptied; a spectator frees nothing. */
  function Release(p: Players, side: Role): (r: Players)
    ensures side == LeftPlayer ==> r.left.None? && r.right == p.right
    ensures side == RightPlayer ==> r.right.None? && r.left == p.left
    ensures side == Spectator ==> r == p
  {
    match side
    case LeftPlayer => p.(left := None)
    case RightPlayer => p.(right := None)
    case Spectator => p
  }

  /** The `move` message: the sender's own paddle takes `y` exactly, without
      clamping; a spectator's move changes nothing. */
  function ApplyMove(s: State, side: Role, y: real): (r: State)
    ensures r.ball == s.ball && r.score == s.score
    ensures side == LeftPlayer ==> r.leftY == y && r.rightY == s.rightY
    ensures side == RightPlayer ==> r.rightY == y && r.leftY == s.leftY
    ensures side == Spectator ==> r == s
  {
    match side
    case LeftPlayer => s.(leftY := y)
    case RightPlayer => s.(rightY := y)
    case Spectator => s
  }

  /** A move overwrites rather than accumulates: of two moves from the same
      side only the last one counts, and repeating a move changes nothing. */
  lemma LastMoveWins(s: State, side: Role, y1: real, y2: real)
    ensures ApplyMove(ApplyMove(s, side, y1), side, y2) == ApplyMove(s, side, y2)
    ensures ApplyMove(ApplyMove(s, side, y1), side, y1) == ApplyMove(s, side, y1)
  {
  }

  /** `resetRound`: serve a fresh ball and centre both paddles; the score is
      kept. */
  function RoundReset(s: State): (r: State)
    ensures r.ball == ServeBall && r.leftY == CentreY && r.rightY == CentreY
    ensures r.score == s.score
  {
    s.(ball := ServeBall, leftY := CentreY, rightY := CentreY)
  }

  /** The ball after moving by its velocity. */
  function Moved(b: ServerBall): ServerBall
  {
    b.(x := b.x + b.vx, y := b.y + b.vy)
  }

  /** The left paddle's hit test. */
  predicate LeftHit(b: ServerBall, leftY: real)
  {
    b.x <= LeftFaceX && b.y >= leftY && b.y <= leftY + PaddleHeight
  }

  /** The right paddle's hit test. */
  predicate RightHit(b: ServerBall, rightY: real)
  {
    b.x >= RightFaceX && b.y >= rightY && b.y <= rightY + PaddleHeight
  }

  /** The body of the 60 Hz tick, on values. */
  function TickSpec(s: State): (r: State)
    ensures r.score.left >= s.score.left && r.score.right >= s.score.right
    ensures r.score.left + r.score.right <= s.score.left + s.score.right + 1
    ensures Moved(s.ball).x < 0.0 ==>
              && r.score == Score(s.score.left, s.score.right + 1)
              && r.ball == ServeBall && r.leftY == CentreY && r.rightY == CentreY
    ensures Moved(s.ball).x > BoardWidth ==>
              && r.score == Score(s.score.left + 1, s.score.right)
              && r.ball == ServeBall && r.leftY == CentreY && r.rightY == CentreY
    ensures 0.0 <= Moved(s.ball).x <= BoardWidth ==>
              && r.score == s.score && r.leftY == s.leftY && r.rightY == s.rightY
              && r.ball.x == Moved(s.ball).x && r.ball.y == Moved(s.ball).y
              && r.ball.vy == (if Moved(s.ball).y <= 0.0 || Moved(s.ball).y >= BoardHeight
                               then -s.ball.vy else s.ball.vy)
              && r.ball.vx == (if LeftHit(Moved(s.ball), s.leftY) || RightHit(Moved(s.ball), s.rightY)
                               then -s.ball.vx else s.ball.vx)
  {
    var moved := Moved(s.ball);
    var bounced := if moved.y <= 0.0 || moved.y >= BoardHeight then moved.(vy := -moved.vy) else moved;
    var afterLeft := if LeftHit(bounced, s.leftY) then bounced.(vx := -bounced.vx) else bounced;
    var afterRight := if RightHit(afterLeft, s.rightY) then afterLeft.(vx := -afterLeft.vx) else afterLeft;
    var s1 := s.(ball := afterRight);
    var s2 := if s1.ball.x < 0.0 then RoundReset(s1.(score := s1.score.(right := s1.score.right + 1))) else s1;
    if s2.ball.x > BoardWidth then RoundReset(s2.(score := s2.score.(left := s2.score.left + 1))) else s2
  }

  /** The state after `n` ticks with no moves in between. */
  function Ticks(s: State, n: nat): State
    decreases n
  {
    if n == 0 then s else Ticks(TickSpec(s), n - 1)
  }

  /** Over any number of ticks neither score decreases, and the total rises
      by at most one point per tick. */
  lemma {:induction false} ScoresNeverDecrease(s: State, n: nat)
    ensures Ticks(s, n).score.left >= s.score.left
    ensures Ticks(s, n).score.right >= s.score.right
    ensures Ticks(s, n).score.left + Ticks(s, n).score.right <= s.score.left + s.score.right + n
    decreases n
  {
    if n > 0 {
      ScoresNeverDecrease(TickSpec(s), n - 1);
    }
  }

  class Server {
    var players: Players
    /** The side of every open connection (`ws.side`). */
    var sides: map<ConnId, Role>
    var state: State

    /** The registry invariant: a slot holds an open connection whose side
        names that slot, and every connection whose side names a slot holds
        it. Hence at most one connection is left and at most one is right. */
    ghost predicate Valid()
      reads this
    {
      && (players.left.Some? ==> players.left.value in sides && sides[players.left.value] == LeftPlayer)
      && (players.right.Some? ==> players.right.value in sides && sides[players.right.value] == RightPlayer)
      && (forall c | c in sides && sides[c] == LeftPlayer :: players.left == Some(c))
      && (forall c | c in sides && sides[c] == RightPlayer :: players.right == Some(c))
    }

    constructor ()
      ensures Valid()
      ensures players == Players(None, None) && sides == map[] && state == InitialState
    {
      players := Players(None, None);
      sides := map[];
      state := InitialState;
    }

    /** A new connection: `assignSide`. */
    method Connect(id: ConnId) returns (side: Role)
      requires Valid() && id !in sides
      modifies this
      ensures Valid()
      ensures (players, side) == AssignSide(old(players), id)
      ensures sides == old(sides)[id := side]
      ensures state == old(state)
    {
      if players.left.None? {
        players := players.(left := Some(id));
        sides := sides[id := LeftPlayer];
        return LeftPlayer;
      }
      if players.right.None? {
        players := players.(right := Some(id));
        sides := sides[id := RightPlayer];
        return RightPlayer;
      }
      sides := sides[id := Spectator];
      return Spectator;
    }

    /** The `close` handler; the connection then no longer exists. */
    method Close(id: ConnId)
      requires Valid() && id in sides
      modifies this
      ensures Valid()
      ensures players == Release(old(players), old(sides)[id])
      ensures sides == old(sides) - {id}
      ensures state == old(state)
    {
      if sides[id] == LeftPlayer {
        players := players.(left := None);
      }
      if sides[id] == RightPlayer {
        players := players.(right := None);
      }
      sides := sides - {id};
    }

    /** A `move` message with value `y` from connection `id`. */
    method Move(id: ConnId, y: real)
      requires id in sides
      modifies this`state
      ensures state == ApplyMove(old(state), sides[id], y)
    {
      if sides[id] == LeftPlayer {
        state := state.(leftY := y);
      }
      if sides[id] == RightPlayer {
        state := state.(rightY := y);
      }
    }

    method ResetRound()
      modifies this`state
      ensures state == RoundReset(old(state))
    {
      state := state.(ball := ServeBall);
      state := state.(leftY := CentreY);
      state := state.(rightY := CentreY);
    }

    /** One tick of the physics interval (the broadcast that ends it is not
        modelled). */
    method Tick()
      modifies this`state
      ensures state == TickSpec(old(state))
    {
      state := state.(ball := state.ball.(x := state.ball.x + state.ball.vx));
      state := state.(ball := state.ball.(y := state.ball.y + state.ball.vy));

      if state.ball.y <= 0.0 || state.ball.y >= BoardHeight {
        state := state.(ball := state.ball.(vy := state.ball.vy * -1.0));
      }

      if state.ball.x <= LeftFaceX && state.ball.y >= state.leftY && state.ball.y <= state.leftY + PaddleHeight {
        state := state.(ball := state.ball.(vx := state.ball.vx * -1.0));
      }

      if state.ball.x >= RightFaceX && state.ball.y >= state.rightY && state.ball.y <= state.rightY + PaddleHeight {
        state := state.(ball := state.ball.(vx := state.ball.vx * -1.0));
      }

      if state.ball.x < 0.0 {
        state := state.(score := state.score.(right := state.score.right + 1));
        ResetRound();
      }
      if state.ball.x > BoardWidth {
        state := state.(score := state.score.(left := state.score.left + 1));
        ResetRound();
      }
    }
  }

  /** Two connections can never hold the same player slot. */
  lemma SingleHolder(s: Server, a: ConnId, b: ConnId)
    requires s.Valid() && a in s.sides && b in s.sides
    requires s.sides[a] == s.sides[b] != Spectator
    ensures a == b
  {
  }

  /** Role churn, the connect and close handlers in sequence: with both
      slots taken a third connection spectates, and once the left player
      leaves, the next connection gets the left slot. */
  method RoleChurn() returns (first: Role, second: Role, third: Role, fourth: Role, slots: Players)
    ensures first == LeftPlayer && second == RightPlayer && third == Spectator
    ensures fourth == LeftPlayer && slots == Players(Some(4), Some(2))
  {
    var server := new Server();
    first := server.Connect(1);
    second := server.Connect(2);
    third := server.Connect(3);
    server.Close(1);
    fourth := server.Connect(4);
    slots := server.players;
  }
}
