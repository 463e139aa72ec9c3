/** One game of the ball-and-paddle simulation as values.
    Each function here is what one method of the engine's Paddle, Ball and Game
    classes does to their fields; GameLogic proves the classes perform exactly
    these functions, and the lemmas below state what the engine promises about
    paddles, ball, scores and the result log over any run of steps. */
module Physics {
  import opened Constants

  /** The normalised playfield edge that paddles are clamped to and that the
      ball must cross to score (the engine writes the literal 100). */
  const FIELD_EDGE: real := 100.0
  /** Where a ball is put back after a point. */
  const CENTRE: real := 50.0
  const PADDLE_WIDTH: real := 3.0
  const PADDLE_HEIGHT: real := 25.0

  /** The outcome of one coin flip `Math.random() < 0.5 ? -1 : 1`. */
  type Sign = s: real | s == 1.0 || s == -1.0 witness 1.0

  /** The two independent coin flips that launch a ball: a direction per axis. */
  datatype Heading = Heading(xSign: Sign, ySign: Sign)

  datatype PaddleState = PaddleState(x: real, y: real, up: bool, down: bool)

  datatype BallState = BallState(x: real, y: real, xSpeed: real, ySpeed: real)

  /** One row of the external result store: `insertGame.run(winner, loser)`. */
  datatype GameResult = GameResult(winnerId: int, loserId: int)

  /** Everything one game holds. `results` is what this game appended to the result store. */
  datatype GameState = GameState(
    one: PaddleState, two: PaddleState, ball: BallState,
    oneId: int, twoId: int,
    oneScore: nat, twoScore: nat,
    finished: bool,
    results: seq<GameResult>)

  function Abs(v: real): real { if v < 0.0 then -v else v }

  /** Negates `v` when `c` holds: the engine's `speed *= -1`. */
  function Flip(v: real, c: bool): (r: real)
    ensures Abs(r) == Abs(v)
    ensures r == v || r == -v
  {
    if c then -v else v
  }

  // ---------------------------------------------------------------- paddles

  /** The band a paddle centre may occupy: half a paddle away from either edge. */
  predicate InField(y: real) {
    PADDLE_HEIGHT / 2.0 <= y <= FIELD_EDGE - PADDLE_HEIGHT / 2.0
  }

  /** The two clamping statements at the end of `Paddle.move`. */
  function ClampToField(y: real): (r: real)
    ensures InField(r)
    ensures InField(y) ==> r == y
    ensures y < PADDLE_HEIGHT / 2.0 ==> r == PADDLE_HEIGHT / 2.0
    ensures y > FIELD_EDGE - PADDLE_HEIGHT / 2.0 ==> r == FIELD_EDGE - PADDLE_HEIGHT / 2.0
  {
    var raised := if y < PADDLE_HEIGHT / 2.0 then PADDLE_HEIGHT / 2.0 else y;
    if raised > FIELD_EDGE - PADDLE_HEIGHT / 2.0 then FIELD_EDGE - PADDLE_HEIGHT / 2.0 else raised
  }

  /** `Paddle.move`: up subtracts the speed, down adds it, then the clamp. */
  function MovePaddle(p: PaddleState): (r: PaddleState)
    ensures r.x == p.x && r.up == p.up && r.down == p.down
    ensures InField(r.y)
    ensures p.up && !p.down ==> r.y == ClampToField(p.y - PADDLE_SPEED)
    ensures p.down && !p.up ==> r.y == ClampToField(p.y + PADDLE_SPEED)
    ensures p.up == p.down && InField(p.y) ==> r.y == p.y
  {
    var lifted := if p.up then p.y - PADDLE_SPEED else p.y;
    var lowered := if p.down then lifted + PADDLE_SPEED else lifted;
    p.(y := ClampToField(lowered))
  }

  // ------------------------------------------------------------------- ball

  /** A ball placed at (x, y) whose velocity components are `speed` with the flipped signs. */
  function Launch(x: real, y: real, speed: real, h: Heading): (r: BallState)
    ensures r.x == x && r.y == y
    ensures r.xSpeed == speed || r.xSpeed == -speed
    ensures r.ySpeed == speed || r.ySpeed == -speed
    ensures speed > 0.0 ==> (r.xSpeed > 0.0 <==> h.xSign == 1.0) && (r.ySpeed > 0.0 <==> h.ySign == 1.0)
  {
    BallState(x, y, speed * h.xSign, speed * h.ySign)
  }

  /** Both velocity components have the magnitude the engine launches balls with. */
  predicate HasGameSpeed(b: BallState) {
    Abs(b.xSpeed) == BALL_SPEED && Abs(b.ySpeed) == BALL_SPEED
  }

  /** `Ball.reset`: back to the centre with a fresh heading at the game speed. */
  function ResetBall(h: Heading): (r: BallState)
    ensures r.x == CENTRE && r.y == CENTRE
    ensures HasGameSpeed(r)
  {
    Launch(CENTRE, CENTRE, BALL_SPEED, h)
  }

  /** `Ball.move`: the position advances by the velocity. */
  function MoveBall(b: BallState): BallState {
    b.(x := b.x + b.xSpeed, y := b.y + b.ySpeed)
  }

  // ------------------------------------------------------------- collisions

  /** The ball's vertical extent overlaps the paddle's. */
  predicate WithinVertical(b: BallState, p: PaddleState) {
    b.y + BALL_RADIUS >= p.y - PADDLE_HEIGHT / 2.0 && b.y - BALL_RADIUS <= p.y + PADDLE_HEIGHT / 2.0
  }

  /** The ball touches the facing (right) edge of the left paddle. */
  predicate TouchesLeftPaddle(b: BallState, p: PaddleState) {
    WithinVertical(b, p) && b.x - BALL_RADIUS <= p.x + PADDLE_WIDTH / 2.0 && b.x > p.x
  }

  /** The ball touches the facing (left) edge of the right paddle. */
  predicate TouchesRightPaddle(b: BallState, p: PaddleState) {
    WithinVertical(b, p) && b.x + BALL_RADIUS >= p.x - PADDLE_WIDTH / 2.0 && b.x < p.x
  }

  predicate Above(b: BallState, p: PaddleState) { b.y < p.y - PADDLE_HEIGHT / 2.0 }

  predicate Below(b: BallState, p: PaddleState) { b.y > p.y + PADDLE_HEIGHT / 2.0 }

  /** The three checks against player one's paddle in `Game.handleCollision`. */
  function BounceOffLeft(b: BallState, p: PaddleState): (r: BallState)
    ensures r.x == b.x && r.y == b.y
    ensures Abs(r.xSpeed) == Abs(b.xSpeed) && Abs(r.ySpeed) == Abs(b.ySpeed)
    ensures !TouchesLeftPaddle(b, p) ==> r == b
    ensures r.xSpeed != b.xSpeed ==> b.xSpeed < 0.0 && r.xSpeed > 0.0
    ensures TouchesLeftPaddle(b, p) && b.xSpeed < 0.0 ==> r.xSpeed > 0.0
    ensures TouchesLeftPaddle(b, p) && Above(b, p) && b.ySpeed > 0.0 ==> r.ySpeed < 0.0
    ensures TouchesLeftPaddle(b, p) && Below(b, p) && b.ySpeed < 0.0 ==> r.ySpeed > 0.0
    ensures r.ySpeed != b.ySpeed ==> (Above(b, p) && b.ySpeed > 0.0) || (Below(b, p) && b.ySpeed < 0.0)
  {
    var hit := TouchesLeftPaddle(b, p);
    var xs := Flip(b.xSpeed, hit && b.xSpeed < 0.0);
    var ys := Flip(b.ySpeed, hit && b.ySpeed > 0.0 && Above(b, p));
    var ys' := Flip(ys, hit && ys < 0.0 && Below(b, p));
    b.(xSpeed := xs, ySpeed := ys')
  }

  /** The checks against player two's paddle in `Game.handleCollision`; its
      below-edge branch has an empty body, so a ball under the paddle keeps
      its vertical speed. */
  function BounceOffRight(b: BallState, p: PaddleState): (r: BallState)
    ensures r.x == b.x && r.y == b.y
    ensures Abs(r.xSpeed) == Abs(b.xSpeed) && Abs(r.ySpeed) == Abs(b.ySpeed)
    ensures !TouchesRightPaddle(b, p) ==> r == b
    ensures r.xSpeed != b.xSpeed ==> b.xSpeed > 0.0 && r.xSpeed < 0.0
    ensures TouchesRightPaddle(b, p) && b.xSpeed > 0.0 ==> r.xSpeed < 0.0
    ensures TouchesRightPaddle(b, p) && Above(b, p) && b.ySpeed > 0.0 ==> r.ySpeed < 0.0
    ensures r.ySpeed != b.ySpeed ==> Above(b, p) && b.ySpeed > 0.0
    ensures Below(b, p) ==> r.ySpeed == b.ySpeed
  {
    var hit := TouchesRightPaddle(b, p);
    var xs := Flip(b.xSpeed, hit && b.xSpeed > 0.0);
    var ys := Flip(b.ySpeed, hit && b.ySpeed > 0.0 && Above(b, p));
    b.(xSpeed := xs, ySpeed := ys)
  }

  /** The top and bottom wall checks that end `Game.handleCollision`. */
  function BounceOffWalls(b: BallState): (r: BallState)
    ensures r.x == b.x && r.y == b.y && r.xSpeed == b.xSpeed
    ensures Abs(r.ySpeed) == Abs(b.ySpeed)
    ensures BALL_RADIUS <= b.y <= WORLD_HEIGHT - BALL_RADIUS ==> r == b
    ensures b.y - BALL_RADIUS < 0.0 && 2.0 * BALL_RADIUS <= WORLD_HEIGHT ==> r.ySpeed >= 0.0
    ensures b.y + BALL_RADIUS > WORLD_HEIGHT && 2.0 * BALL_RADIUS <= WORLD_HEIGHT ==> r.ySpeed <= 0.0
  {
    var ys := Flip(b.ySpeed, b.ySpeed < 0.0 && b.y - BALL_RADIUS < 0.0);
    b.(ySpeed := Flip(ys, ys > 0.0 && b.y + BALL_RADIUS > WORLD_HEIGHT))
  }

  /** `Game.handleCollision`: left paddle, right paddle, then the walls. */
  function Collide(b: BallState, one: PaddleState, two: PaddleState): (r: BallState)
    ensures r.x == b.x && r.y == b.y
    ensures Abs(r.xSpeed) == Abs(b.xSpeed) && Abs(r.ySpeed) == Abs(b.ySpeed)
    ensures HasGameSpeed(b) ==> HasGameSpeed(r)
    ensures !TouchesLeftPaddle(b, one) && !TouchesRightPaddle(b, two) ==> r == BounceOffWalls(b)
  {
    BounceOffWalls(BounceOffRight(BounceOffLeft(b, one), two))
  }

  // ----------------------------------------------------------------- scores

  /** The first half of `Game.checkScore`: the ball left through the left edge. */
  function ScoreLeftExit(g: GameState, h: Heading): GameState {
    if g.ball.x < 0.0 then
      var score := g.twoScore + 1;
      var won := score >= WINNING_SCORE;
      g.(twoScore := score,
         results := if won then g.results + [GameResult(g.twoId, g.oneId)] else g.results,
         finished := won || g.finished,
         ball := ResetBall(h))
    else g
  }

  /** The second half of `Game.checkScore`: the ball left through the right edge. */
  function ScoreRightExit(g: GameState, h: Heading): GameState {
    if g.ball.x > FIELD_EDGE then
      var score := g.oneScore + 1;
      var won := score >= WINNING_SCORE;
      g.(oneScore := score,
         results := if won then g.results + [GameResult(g.oneId, g.twoId)] else g.results,
         finished := won || g.finished,
         ball := ResetBall(h))
    else g
  }

  /** `Game.checkScore`. Because a scored ball is put back in the centre, at
      most one point is scored per call. */
  function CheckScore(g: GameState, h: Heading): (r: GameState)
    ensures r.one == g.one && r.two == g.two && r.oneId == g.oneId && r.twoId == g.twoId
    ensures g.ball.x < 0.0 ==>
      r.twoScore == g.twoScore + 1 && r.oneScore == g.oneScore && r.ball == ResetBall(h)
    ensures g.ball.x > FIELD_EDGE ==>
      r.oneScore == g.oneScore + 1 && r.twoScore == g.twoScore && r.ball == ResetBall(h)
    ensures 0.0 <= g.ball.x <= FIELD_EDGE ==> r == g
    ensures r.oneScore + r.twoScore <= g.oneScore + g.twoScore + 1
    ensures r.finished <==>
      g.finished || (r.oneScore > g.oneScore && r.oneScore >= WINNING_SCORE)
                 || (r.twoScore > g.twoScore && r.twoScore >= WINNING_SCORE)
    ensures r.results ==
      g.results + (if r.oneScore > g.oneScore && r.oneScore >= WINNING_SCORE then [GameResult(g.oneId, g.twoId)]
                   else if r.twoScore > g.twoScore && r.twoScore >= WINNING_SCORE then [GameResult(g.twoId, g.oneId)]
                   else [])
  {
    ScoreRightExit(ScoreLeftExit(g, h), h)
  }

  // ------------------------------------------------------------------ games

  /** The game `new Game(oneId, twoId)` builds: paddles at rest in the middle
      of each side, the ball in the middle of the world. */
  function NewGame(oneId: int, twoId: int, h: Heading): (r: GameState)
    ensures r.oneId == oneId && r.twoId == twoId
    ensures r.oneScore == 0 && r.twoScore == 0 && !r.finished && r.results == []
    ensures Consistent(r)
  {
    GameState(
      PaddleState(1.0, CENTRE, false, false),
      PaddleState(WORLD_WIDTH - 1.0, CENTRE, false, false),
      Launch(WORLD_WIDTH / 2.0, WORLD_HEIGHT / 2.0, BALL_SPEED, h),
      oneId, twoId, 0, 0, false, [])
  }

  /** `Game.updateGame`: nothing once finished; otherwise both paddles, the
      ball, the collisions and the score check, in that order. */
  function Step(g: GameState, h: Heading): (r: GameState)
    ensures g.finished ==> r == g
    ensures r.oneId == g.oneId && r.twoId == g.twoId
    ensures r.oneScore >= g.oneScore && r.twoScore >= g.twoScore
    ensures r.oneScore + r.twoScore <= g.oneScore + g.twoScore + 1
    ensures InField(g.one.y) && InField(g.two.y) ==> InField(r.one.y) && InField(r.two.y)
    ensures HasGameSpeed(g.ball) ==> HasGameSpeed(r.ball)
    ensures g.results <= r.results && |r.results| <= |g.results| + 1
  {
    if g.finished then g
    else
      var one := MovePaddle(g.one);
      var two := MovePaddle(g.two);
      var ball := Collide(MoveBall(g.ball), one, two);
      CheckScore(g.(one := one, two := two, ball := ball), h)
  }

  /** The results a game has stored, read off its scores: the player who
      reached the winning score wins against the other. */
  function Outcome(g: GameState): seq<GameResult> {
    if g.oneScore == WINNING_SCORE then [GameResult(g.oneId, g.twoId)]
    else if g.twoScore == WINNING_SCORE then [GameResult(g.twoId, g.oneId)]
    else []
  }

  /** What holds of every game the engine can reach: paddles inside the
      field, the ball at game speed, no score past the winning score, the game
      finished exactly when one player reached it, and exactly one stored
      result once finished. */
  predicate Consistent(g: GameState) {
    && InField(g.one.y) && InField(g.two.y)
    && HasGameSpeed(g.ball)
    && g.oneScore <= WINNING_SCORE && g.twoScore <= WINNING_SCORE
    && !(g.oneScore == WINNING_SCORE && g.twoScore == WINNING_SCORE)
    && (g.finished <==> g.oneScore == WINNING_SCORE || g.twoScore == WINNING_SCORE)
    && g.results == Outcome(g)
  }

  /** Scoring an unfinished consistent game keeps it consistent: the point
      taken never lifts a score past the winning score, and reaching it both
      finishes the game and stores the one result. */
  lemma CheckScoreKeepsConsistent(g: GameState, h: Heading)
    requires Consistent(g) && !g.finished
    ensures Consistent(CheckScore(g, h))
  {
  }

  lemma StepKeepsConsistent(g: GameState, h: Heading)
    requires Consistent(g)
    ensures Consistent(Step(g, h))
  {
    if !g.finished {
      var one := MovePaddle(g.one);
      var two := MovePaddle(g.two);
      var moved := g.(one := one, two := two, ball := Collide(MoveBall(g.ball), one, two));
      assert Outcome(moved) == Outcome(g);
      CheckScoreKeepsConsistent(moved, h);
    }
  }

  /** A finished game has a winner: its scores are never equal. */
  lemma FinishedHasStrictWinner(g: GameState)
    requires Consistent(g) && g.finished
    ensures g.oneScore != g.twoScore
    ensures g.oneScore > g.twoScore ==> g.results == [GameResult(g.oneId, g.twoId)]
    ensures g.twoScore > g.oneScore ==> g.results == [GameResult(g.twoId, g.oneId)]
  {
  }

  // ------------------------------------------------------------------- runs

  /** The game after one tick per heading (each tick's heading is used if it scores). */
  function Run(g: GameState, hs: seq<Heading>): GameState
    decreases |hs|
  {
    if hs == [] then g else Run(Step(g, hs[0]), hs[1..])
  }

  lemma {:induction false} RunKeepsConsistent(g: GameState, hs: seq<Heading>)
    requires Consistent(g)
    ensures Consistent(Run(g, hs))
    decreases |hs|
  {
    if hs != [] {
      StepKeepsConsistent(g, hs[0]);
      RunKeepsConsistent(Step(g, hs[0]), hs[1..]);
    }
  }

  /** Scores never decrease, at most one point is scored per tick, a finished
      game stays finished, and the stored results only grow. */
  lemma {:induction false} RunIsMonotone(g: GameState, hs: seq<Heading>)
    ensures Run(g, hs).oneScore >= g.oneScore && Run(g, hs).twoScore >= g.twoScore
    ensures Run(g, hs).oneScore + Run(g, hs).twoScore <= g.oneScore + g.twoScore + |hs|
    ensures g.finished ==> Run(g, hs) == g
    ensures g.results <= Run(g, hs).results
    ensures Run(g, hs).oneId == g.oneId && Run(g, hs).twoId == g.twoId
    decreases |hs|
  {
    if hs != [] {
      RunIsMonotone(Step(g, hs[0]), hs[1..]);
    }
  }

  /** Once `finished` is set by some tick, every later tick finds it set. */
  lemma {:induction false} FinishedNeverReverts(g: GameState, hs: seq<Heading>, k: nat)
    requires k <= |hs|
    requires Run(g, hs[..k]).finished
    ensures Run(g, hs).finished
    ensures Run(g, hs) == Run(g, hs[..k])
    decreases k
  {
    if k == 0 {
      assert hs[..k] == [];
      RunIsMonotone(g, hs);
    } else {
      assert hs[..k][0] == hs[0] && hs[..k][1..] == hs[1..][..k - 1];
      FinishedNeverReverts(Step(g, hs[0]), hs[1..], k - 1);
    }
  }

  /** Every game the engine builds and ticks is consistent; in particular it is
      finished exactly when one player reached the winning score, and then it
      has stored exactly one (winner, loser) result. */
  lemma PlayedGameIsConsistent(oneId: int, twoId: int, h: Heading, hs: seq<Heading>)
    ensures Consistent(Run(NewGame(oneId, twoId, h), hs))
    ensures Run(NewGame(oneId, twoId, h), hs).finished ==> |Run(NewGame(oneId, twoId, h), hs).results| == 1
  {
    RunKeepsConsistent(NewGame(oneId, twoId, h), hs);
  }
}
