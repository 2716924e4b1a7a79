/**
 * The numeric configuration of src/lib/Constants.ts that the world and player
 * builders read, as exact reals. Only the values used by src/lib/Bodies.ts are here.
 */
module Constants {
  /** The shape of `BALL_STARTING_POS`: a position and an initial vertical speed. */
  datatype StartingPos = StartingPos(x: real, y: real, vy: real)

  const GROUND_WIDTH: real := 10.0
  const WIDTH: real := 20.0
  const PLAYER_RADIUS: real := 1.8
  const PLAYER_CHAIN_SIZE: nat := 20
  const BALL_RADIUS: real := 0.3
  const BALL_DAMPING: real := 0.4
  const BALL_RESTITUTION: real := 0.8
  const NET_RESTITUTION: real := 0.3
  const NET_HEIGHT: real := 1.5
  const GROUND_THICKNESS: real := 0.1
  const NET_THICKNESS: real := 0.15
  const PLAYER_STARTING_POS: real := (0.8 * GROUND_WIDTH) / 2.0
  const BALL_STARTING_POS: StartingPos := StartingPos(PLAYER_STARTING_POS, 5.0, 15.0)
  const GRAVITY: real := 10.0
}
