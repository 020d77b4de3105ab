/**
 * The collaborators of the hint-icon message and ground-item types. Their
 * own definitions are not part of this model: positions, items and regions
 * are opaque values compared by value equality, and a player is seen only
 * through its index.
 */
module World {
  import opened JavaInt

  /** A tile of the game world (x, y, height plane). */
  type Position(==)

  /** An item stack (id and amount). */
  type Item(==)

  /** A square cell of the world grid. */
  type Region

  /** A player, as far as these types see one: its index in the player list. */
  datatype Player = Player(index: Int32)

  /** The kind of an entity placed in the world. */
  datatype EntityType = GroundItem | Npc | Player | StaticObject

  /** Whether an update operation adds an entity to, or removes it from, a client's view. */
  datatype EntityUpdateType = Add | Remove
}
