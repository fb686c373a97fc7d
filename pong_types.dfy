/** Shared vocabulary of the Pong game: the geometry and speed constants, plane
    vectors, colours and the two status messages.  Positions and speeds are exact
    reals; the game itself computes in 32-bit floats. */
module PongTypes {

  // Racket (paddle) and ball geometry, in pixels.
  const RacketHeight: real := 100.0
  const RacketWidth: real := 20.0
  const RacketHeightHalf: real := RacketHeight * 0.5
  const RacketWidthHalf: real := RacketWidth * 0.5
  const RacketPadding: real := 40.0
  const BallSize: real := 30.0
  const BallSizeHalf: real := BallSize * 0.5

  // Speeds, in pixels per second.
  const PlayerSpeed: real := 600.0
  const BallSpeed: real := 300.0

  /** Factor applied to the ball's horizontal speed on every racket hit. */
  const BounceFactor: real := 1.1

  /** Status messages shown while the game is paused. */
  const StartText: string := "Press Space to Start Game"
  const ResumeText: string := "Press Space to Resume Game"

  datatype Option<T> = None | Some(value: T)

  /** A point or a velocity in the plane; y grows downwards. */
  datatype Vec2 = Vec2(x: real, y: real)

  /** An RGBA colour with channels in [0, 1]. */
  datatype Color = Color(r: real, g: real, b: real, a: real)

  function Abs(x: real): (r: real)
    ensures r >= 0.0 && (r == x || r == -x)
  {
    if x < 0.0 then -x else x
  }
}
