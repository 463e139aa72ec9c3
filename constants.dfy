/** The tuning values of the game engine.
    The engine reads them from a constants module whose values are not part of
    this model, so each is declared here as an arbitrary positive value: every
    property proved below holds whatever the concrete values are. */
module Constants {

  type PositiveReal = r: real | r > 0.0 witness 1.0
  type PositiveNat = n: nat | n > 0 witness 1

  /** Height of the playfield, used for the top and bottom wall bounces. */
  const WORLD_HEIGHT: PositiveReal
  /** Width of the playfield, used to place the ball and the right paddle. */
  const WORLD_WIDTH: PositiveReal
  /** Magnitude of each velocity component of the ball. */
  const BALL_SPEED: PositiveReal
  /** Radius of the ball. */
  const BALL_RADIUS: PositiveReal
  /** Distance a paddle travels in one step. */
  const PADDLE_SPEED: PositiveReal
  /** Score that ends a game. */
  const WINNING_SCORE: PositiveNat
}
