/** The engine's Paddle, Ball and Game classes, updating their fields in place.
    Each class exposes its fields as a Physics value through `State()`, and each
    method is proved to perform the Physics function of the same name, so the
    lemmas proved there apply to every object built here. */
module GameLogic {
  import opened Constants
  import opened Physics
  import opened Shared

  /** The flags a paddle setter leaves: Up and Down set one flag and clear the
      other, Stop clears both; position and the other paddle are untouched. */
  function Steered(p: PaddleState, d: Direction): (r: PaddleState)
    ensures r.x == p.x && r.y == p.y
    ensures !(r.up && r.down)
    ensures r.up <==> d == Up
    ensures r.down <==> d == Down
  {
    match d
    case Up => p.(up := true, down := false)
    case Down => p.(up := false, down := true)
    case Stop => p.(up := false, down := false)
  }

  class Paddle {
    var x: real
    var y: real
    var up: bool
    var down: bool
    const width: real := PADDLE_WIDTH
    const height: real := PADDLE_HEIGHT
    const paddleSpeed: real := PADDLE_SPEED

    function State(): PaddleState
      reads this
    {
      PaddleState(x, y, up, down)
    }

    constructor (x: real, y: real)
      ensures State() == PaddleState(x, y, false, false)
    {
      this.x := x;
      this.y := y;
      up := false;
      down := false;
    }

    /** One step of motion: the paddle ends inside the field whatever its flags. */
    method Move()
      modifies this
      ensures State() == MovePaddle(old(State()))
      ensures InField(y)
    {
      if up {
        y := y - paddleSpeed;
      }
      if down {
        y := y + paddleSpeed;
      }
      if y < height / 2.0 {
        y := height / 2.0;
      }
      if y > FIELD_EDGE - height / 2.0 {
        y := FIELD_EDGE - height / 2.0;
      }
    }

    method SetUp(value: bool)
      modifies this
      ensures State() == old(State()).(up := value)
    {
      up := value;
    }

    method SetDown(value: bool)
      modifies this
      ensures State() == old(State()).(down := value)
    {
      down := value;
    }
  }

  class Ball {
    var x: real
    var y: real
    var xSpeed: real
    var ySpeed: real
    const radius: real := BALL_RADIUS

    function State(): BallState
      reads this
    {
      BallState(x, y, xSpeed, ySpeed)
    }

    /** A ball at (x, y) moving at `speed` on each axis, in the directions `h` drew. */
    constructor (x: real, y: real, speed: real, h: Heading)
      ensures State() == Launch(x, y, speed, h)
    {
      this.x := x;
      this.y := y;
      xSpeed := speed * h.xSign;
      ySpeed := speed * h.ySign;
    }

    method Move()
      modifies this
      ensures State() == MoveBall(old(State()))
      ensures xSpeed == old(xSpeed) && ySpeed == old(ySpeed)
    {
      x := x + xSpeed;
      y := y + ySpeed;
    }

    method Reset(h: Heading)
      modifies this
      ensures State() == ResetBall(h)
      ensures x == CENTRE && y == CENTRE && HasGameSpeed(State())
    {
      x := CENTRE;
      y := CENTRE;
      xSpeed := BALL_SPEED * h.xSign;
      ySpeed := BALL_SPEED * h.ySign;
    }
  }

  class Game {
    const playerOnePaddle: Paddle
    const playerTwoPaddle: Paddle
    const myBall: Ball
    var playerOneId: int
    var playerTwoId: int
    const height: real := WORLD_HEIGHT
    const width: real := WORLD_WIDTH
    var playerOneScore: nat
    var playerTwoScore: nat
    var finished: bool
    /** The rows this game appended to the external result store. */
    ghost var results: seq<GameResult>

    ghost function Repr(): set<object> {
      {this, playerOnePaddle, playerTwoPaddle, myBall}
    }

    ghost function State(): GameState
      reads Repr()
    {
      GameState(playerOnePaddle.State(), playerTwoPaddle.State(), myBall.State(),
                playerOneId, playerTwoId, playerOneScore, playerTwoScore, finished, results)
    }

    /** The two paddles are distinct objects and the game is in a state the engine can reach. */
    ghost predicate Valid()
      reads Repr()
    {
      playerOnePaddle != playerTwoPaddle && Consistent(State())
    }

    constructor (firstId: int, secondId: int, h: Heading)
      ensures Valid()
      ensures fresh(playerOnePaddle) && fresh(playerTwoPaddle) && fresh(myBall)
      ensures State() == NewGame(firstId, secondId, h)
    {
      playerOneId := firstId;
      playerTwoId := secondId;
      playerOneScore := 0;
      playerTwoScore := 0;
      finished := false;
      results := [];
      playerOnePaddle := new Paddle(1.0, CENTRE);
      playerTwoPaddle := new Paddle(WORLD_WIDTH - 1.0, CENTRE);
      myBall := new Ball(WORLD_WIDTH / 2.0, WORLD_HEIGHT / 2.0, BALL_SPEED, h);
    }

    method SetFirstPaddleUp()
      requires Valid()
      modifies playerOnePaddle
      ensures Valid()
      ensures playerOnePaddle.State() == old(playerOnePaddle.State()).(up := true, down := false)
    {
      playerOnePaddle.up := true;
      playerOnePaddle.down := false;
    }

    method SetSecondPaddleUp()
      requires Valid()
      modifies playerTwoPaddle
      ensures Valid()
      ensures playerTwoPaddle.State() == old(playerTwoPaddle.State()).(up := true, down := false)
    {
      playerTwoPaddle.up := true;
      playerTwoPaddle.down := false;
    }

    method SetFirstPaddleDown()
      requires Valid()
      modifies playerOnePaddle
      ensures Valid()
      ensures playerOnePaddle.State() == old(playerOnePaddle.State()).(up := false, down := true)
    {
      playerOnePaddle.up := false;
      playerOnePaddle.down := true;
    }

    method SetSecondPaddleDown()
      requires Valid()
      modifies playerTwoPaddle
      ensures Valid()
      ensures playerTwoPaddle.State() == old(playerTwoPaddle.State()).(up := false, down := true)
    {
      playerTwoPaddle.up := false;
      playerTwoPaddle.down := true;
    }

    method SetSecondPaddleNeutral()
      requires Valid()
      modifies playerTwoPaddle
      ensures Valid()
      ensures playerTwoPaddle.State() == old(playerTwoPaddle.State()).(up := false, down := false)
    {
      playerTwoPaddle.up := false;
      playerTwoPaddle.down := false;
    }

    method SetFirstPaddleNeutral()
      requires Valid()
      modifies playerOnePaddle
      ensures Valid()
      ensures playerOnePaddle.State() == old(playerOnePaddle.State()).(up := false, down := false)
    {
      playerOnePaddle.up := false;
      playerOnePaddle.down := false;
    }

    /** Reflects the ball off the paddles and the walls; only velocity signs change. */
    method HandleCollision()
      requires Valid()
      modifies myBall
      ensures Valid()
      ensures myBall.State() == Collide(old(myBall.State()), playerOnePaddle.State(), playerTwoPaddle.State())
      ensures Abs(myBall.xSpeed) == Abs(old(myBall.xSpeed)) && Abs(myBall.ySpeed) == Abs(old(myBall.ySpeed))
    {
      BounceOffPaddleOne();
      BounceOffPaddleTwo();
      BounceOffWallsOfField();
    }

    /** The first part of `handleCollision`: the checks against player one's paddle. */
    method BounceOffPaddleOne()
      modifies myBall
      ensures myBall.State() == BounceOffLeft(old(myBall.State()), playerOnePaddle.State())
    {
      var ball := myBall;
      var p1 := playerOnePaddle;

      var above1 := ball.y < p1.y - p1.height / 2.0;
      var below1 := ball.y > p1.y + p1.height / 2.0;
      var withinVertical1 :=
        ball.y + ball.radius >= p1.y - p1.height / 2.0 &&
        ball.y - ball.radius <= p1.y + p1.height / 2.0;
      var withinHorizontal1 :=
        ball.x - ball.radius <= p1.x + p1.width / 2.0 && ball.x > p1.x;

      if withinVertical1 && withinHorizontal1 && ball.xSpeed < 0.0 {
        ball.xSpeed := ball.xSpeed * -1.0;
      }
      if withinVertical1 && withinHorizontal1 && ball.ySpeed > 0.0 && above1 {
        ball.ySpeed := ball.ySpeed * -1.0;
      }
      if withinVertical1 && withinHorizontal1 && ball.ySpeed < 0.0 && below1 {
        ball.ySpeed := ball.ySpeed * -1.0;
      }
    }

    /** The second part of `handleCollision`: the checks against player two's paddle. */
    method BounceOffPaddleTwo()
      modifies myBall
      ensures myBall.State() == BounceOffRight(old(myBall.State()), playerTwoPaddle.State())
    {
      var ball := myBall;
      var p2 := playerTwoPaddle;

      var above2 := ball.y < p2.y - p2.height / 2.0;
      var withinVertical2 :=
        ball.y + ball.radius >= p2.y - p2.height / 2.0 &&
        ball.y - ball.radius <= p2.y + p2.height / 2.0;
      var withinHorizontal2 :=
        ball.x + ball.radius >= p2.x - p2.width / 2.0 && ball.x < p2.x;

      if withinVertical2 && withinHorizontal2 && ball.xSpeed > 0.0 {
        ball.xSpeed := ball.xSpeed * -1.0;
      }
      if withinVertical2 && withinHorizontal2 && ball.ySpeed > 0.0 && above2 {
        ball.ySpeed := ball.ySpeed * -1.0;
      }
      // The engine's check for a ball below paddle two has an empty body.
    }

    /** The last part of `handleCollision`: the top and bottom walls. */
    method BounceOffWallsOfField()
      modifies myBall
      ensures myBall.State() == BounceOffWalls(old(myBall.State()))
    {
      var ball := myBall;
      if ball.ySpeed < 0.0 && ball.y - ball.radius < 0.0 {
        ball.ySpeed := ball.ySpeed * -1.0;
      }
      if ball.ySpeed > 0.0 && ball.y + ball.radius > height {
        ball.ySpeed := ball.ySpeed * -1.0;
      }
    }

    /** Counts a point for a ball past either edge, recording the result and
        finishing the game when the scorer reaches the winning score. */
    method CheckScore(h: Heading)
      requires Valid()
      modifies this, myBall
      ensures State() == Physics.CheckScore(old(State()), h)
      ensures !old(finished) ==> Valid()
    {
      if myBall.x < 0.0 {
        playerTwoScore := playerTwoScore + 1;
        if playerTwoScore >= WINNING_SCORE {
          results := results + [GameResult(playerTwoId, playerOneId)];
          finished := true;
        }
        myBall.Reset(h);
      }
      if myBall.x > FIELD_EDGE {
        playerOneScore := playerOneScore + 1;
        if playerOneScore >= WINNING_SCORE {
          results := results + [GameResult(playerOneId, playerTwoId)];
          finished := true;
        }
        myBall.Reset(h);
      }
      if !old(finished) {
        CheckScoreKeepsConsistent(old(State()), h);
      }
    }

    /** One tick; returns whether the game is finished. */
    method UpdateGame(h: Heading) returns (done: bool)
      requires Valid()
      modifies Repr()
      ensures Valid()
      ensures State() == Step(old(State()), h)
      ensures done == finished
      ensures old(finished) ==> done && State() == old(State())
    {
      if finished {
        return true;
      }
      playerOnePaddle.Move();
      playerTwoPaddle.Move();
      myBall.Move();
      HandleCollision();
      CheckScore(h);
      return finished;
    }
  }
}
