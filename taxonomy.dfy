/**
 * The body taxonomy: the payload that src/lib/Bodies.ts attaches to a body as its
 * user data. The source stores an object `{ kind: "GROUND" }`, `{ kind: "BALL" }` or
 * `{ kind: "PLAYER", playerIndex }`; here it is a closed variant.
 */
module Taxonomy {
  /** The value of the `kind` field of a body's user data. */
  datatype KindName = GROUND | BALL | PLAYER

  /** A body's user data. The player index is the source's `number`, kept unbounded. */
  datatype Tag = Ground | Ball | Player(playerIndex: int)
  {
    function Kind(): (k: KindName) {
      match this
      case Ground => GROUND
      case Ball => BALL
      case Player(_) => PLAYER
    }
  }
}
