/** Geometry of the office map and the player sprite, and the peer capacity. */
module Constants {

  const NoOfTilesInXAxe: int := 35
  const NoOfTilesInYAxe: int := 18
  const TileSize: int := 16

  const GameWidth: int := NoOfTilesInXAxe * TileSize
  const GameHeight: int := NoOfTilesInYAxe * TileSize

  const PlayerHeight: real := 32.0
  const PlayerHeightFactor: real := 3.0 / 4.0
  const PlayerWidth: real := 16.0
  const PlayerScale: real := 1.5

  /** Number of peer sessions at which a client answers a connect request with "room full". */
  const MaxConnections: nat := 2

  /** Height of the sprite's collision box. */
  function HitboxHeight(): (h: real)
    ensures h == 24.0
  {
    PlayerHeight * PlayerHeightFactor
  }

  /** Vertical offset of the collision box from the sprite's top edge. */
  function HitboxOffsetY(): (o: real)
    ensures o == 8.0
    ensures o + HitboxHeight() == PlayerHeight
  {
    PlayerHeight * (1.0 - PlayerHeightFactor)
  }

  /** The map is 560 by 288 pixels. */
  lemma GameSize()
    ensures GameWidth == 560 && GameHeight == 288
  {
  }
}
