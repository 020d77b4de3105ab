# Hint-icon messages and ground items (Apollo game server)

This project models two immutable value types of the Apollo game server, a
network message type and a world-entity type, and proves properties of the
model in Dafny.

- **HintIconMessage** is the message that puts a hint icon over an NPC or a
  player. It has a target `Type` (NPC, integer value 1; PLAYER, integer value 10),
  an optional mob index and an optional tile position. Its constructor is
  private. The only ways to build one are the four factories `forNpc`,
  `forPlayer`, `resetNpc` and `resetPlayer`. The accessors `getIndex` and
  `getPosition` throw `NoSuchElementException` when their field is absent.
- **GroundItem** is an item stack lying on a tile. It carries an owner index,
  where -1 means no player dropped it. `equals` compares positions only.
  `hashCode` mixes the position hash and the item hash in 32-bit `int`
  arithmetic. `toUpdateOperation` wraps the item in an `ItemUpdateOperation`
  for a region.

Files:

- `java_int.dfy` (module `JavaInt`): Java's `int` as the subset type `Int32`.
  Wrap-around is written out: `Wrap`, `Mul` and `Add`.
- `wrappers.dfy` (module `Wrappers`): `Option` (Java's `Optional` and
  `OptionalInt`) and `Result`. A thrown exception is an `Err` value.
- `world.dfy` (module `World`): the collaborators. `Position`, `Item` and
  `Region` are opaque types compared by value. `Player` is just its index.
  It also defines the `EntityType` and `EntityUpdateType` enumerations.
- `hint_icon.dfy` (module `HintIcon`): the message, its factories and
  accessors, and the predicate `Reachable`, which describes the messages the
  factories can build.
- `ground_item.dfy` (module `GroundItems`): the ground item, its factories,
  `equals` as written (`Equals`), `hashCode` (`HashCode`), the
  corrected equality (`EqualsByContent`), and the update operation.

`Position.hashCode()` and `Item.hashCode()` are not part of this model.
`HashCode` and the lemmas about it take them as function parameters, so
every result holds for any choice of those two hash functions.

The class comment of `HintIconMessage`
(game/src/main/org/apollo/game/message/impl/HintIconMessage.java:11) speaks of
an icon over an NPC, a tile or a player, and the message has a `position`
field for the tile (lines 102-105). No factory sets that field, so no message
the program can build targets a tile.

## Model

| member | source | states |
|---|---|---|
| JavaInt.Wrap | src/org/apollo/game/model/entity/GroundItem.java:99 | the result is the one `int` congruent to the exact value modulo 2^32, and an in-range value is left unchanged |
| JavaInt.WrapAbsorbs | src/org/apollo/game/model/entity/GroundItem.java:99 | wrapping an intermediate product before the addition gives the same `int` as wrapping only the exact result |
| JavaInt.AddCancels | src/org/apollo/game/model/entity/GroundItem.java:99 | Java `int` addition is injective in its second operand, overflow included |
| HintIcon.Type.Value | game/src/main/org/apollo/game/message/impl/HintIconMessage.java:27-55 | NPC has integer value 1 and PLAYER has 10, and each value belongs to exactly one type |
| HintIcon.HintIconMessage.GetIndex | game/src/main/org/apollo/game/message/impl/HintIconMessage.java:131-133 | returns the index the message was built with, and throws NoSuchElementException exactly when it has none |
| HintIcon.HintIconMessage.GetPosition | game/src/main/org/apollo/game/message/impl/HintIconMessage.java:141-143 | returns the position the message was built with, and throws NoSuchElementException exactly when it has none |
| HintIcon.HintIconMessage.GetType | game/src/main/org/apollo/game/message/impl/HintIconMessage.java:150-152 | returns the type the message was built with |
| HintIcon.ForNpc | game/src/main/org/apollo/game/message/impl/HintIconMessage.java:65-67 | type NPC (integer value 1), getIndex returns the given index, getPosition throws NoSuchElementException |
| HintIcon.ForPlayer | game/src/main/org/apollo/game/message/impl/HintIconMessage.java:75-77 | type PLAYER (integer value 10), getIndex returns the given index, getPosition throws NoSuchElementException |
| HintIcon.ResetNpc | game/src/main/org/apollo/game/message/impl/HintIconMessage.java:84-86 | type NPC, getIndex returns -1, getPosition throws |
| HintIcon.ResetPlayer | game/src/main/org/apollo/game/message/impl/HintIconMessage.java:93-95 | type PLAYER, getIndex returns -1, getPosition throws |
| HintIcon.ResetsAreReachable | game/src/main/org/apollo/game/message/impl/HintIconMessage.java:84-95 | both reset messages are messages that forNpc or forPlayer build |
| HintIcon.ReachableShape | game/src/main/org/apollo/game/message/impl/HintIconMessage.java:65-77 | a message can be built by a factory if and only if it has an index and no position, whatever its type |
| HintIcon.ReachableAccessors | game/src/main/org/apollo/game/message/impl/HintIconMessage.java:129-143 | on every message a factory builds, getIndex succeeds and getPosition always throws NoSuchElementException |
| HintIcon.ValueInjective | game/src/main/org/apollo/game/message/impl/HintIconMessage.java:22-55 | two types have the same integer value if and only if they are the same type |
| HintIcon.AccessorsDetermineMessage | game/src/main/org/apollo/game/message/impl/HintIconMessage.java:100-152 | the accessors return exactly the constructor's arguments: messages on which getType, getIndex and getPosition agree are equal |
| HintIcon.FactoriesInjective | game/src/main/org/apollo/game/message/impl/HintIconMessage.java:65-77 | forNpc and forPlayer are injective in the index, and an NPC message never equals a player message |
| GroundItems.Create | src/org/apollo/game/model/entity/GroundItem.java:24-26 | the item has the given position and item, and owner index -1 |
| GroundItems.Dropped | src/org/apollo/game/model/entity/GroundItem.java:36-38 | the item has the given position and item, and the dropping player's index as its owner index |
| GroundItems.GroundItem.GetItem | src/org/apollo/game/model/entity/GroundItem.java:83-85 | returns the item the ground item was built with |
| GroundItems.GroundItem.GetOwnerIndex | src/org/apollo/game/model/entity/GroundItem.java:93-95 | returns the owner index the ground item was built with (-1 when no player dropped it) |
| GroundItems.GroundItem.GetEntityType | src/org/apollo/game/model/entity/GroundItem.java:74-76 | always GROUND_ITEM, never NPC or PLAYER |
| GroundItems.Equals | src/org/apollo/game/model/entity/GroundItem.java:64-71 | true exactly for another ground item on the same tile, whatever its item and owner; false for any other object, null included |
| GroundItems.EqualsIgnoresItemAndOwner | src/org/apollo/game/model/entity/GroundItem.java:64-71 | replacing the item and owner index of either side never changes the result of equals |
| GroundItems.HashCode | src/org/apollo/game/model/entity/GroundItem.java:98-100 | Java's step-by-step `int` evaluation of hash(position) * 31 + hash(item) equals the exact value reduced once modulo 2^32 into the `int` range |
| GroundItems.EqualsIsEquivalence | src/org/apollo/game/model/entity/GroundItem.java:64-71 | equals is reflexive, symmetric and transitive on ground items, and false for any other object, null included |
| GroundItems.CreateEqualsDropped | src/org/apollo/game/model/entity/GroundItem.java:24-71 | create(p, i) and dropped(p, i, owner) are equal both ways, for any owner |
| GroundItems.HashCodeIgnoresOwner | src/org/apollo/game/model/entity/GroundItem.java:98-100 | changing the owner index never changes hashCode |
| GroundItems.EqualItemsMayHashDifferently | src/org/apollo/game/model/entity/GroundItem.java:64-100 | two items at one position whose item hashes differ are equal, but their hashCodes differ |
| GroundItems.EqualsByContent | src/org/apollo/game/model/entity/GroundItem.java:64-71 | the corrected equality: true exactly when equals holds and the two items are also the same |
| GroundItems.EqualsByContentConsistentWithHash | src/org/apollo/game/model/entity/GroundItem.java:98-100 | under the corrected equality (same position and same item), equal ground items have equal hashCodes, for any collaborator hashes |
| GroundItems.EqualsByContentProperties | src/org/apollo/game/model/entity/GroundItem.java:64-71 | the corrected equality is an equivalence, false for non-ground-items, implies equals, and still equates create and dropped |
| GroundItems.ToUpdateOperation | src/org/apollo/game/model/entity/GroundItem.java:103-105 | the operation carries the given region and update type, and an item with this item's position, item and owner |
| GroundItems.DroppedAddScenario | src/org/apollo/game/model/entity/GroundItem.java:36-105 | an item dropped by player 5 has owner 5 and type GROUND_ITEM, and its ADD operation references the region and that item |

## Left out

- The `Message` base class and the network encoding of the hint-icon message are not part of this model. The byte layout is not defined in these files.
- The internals of `Position`, `Item`, `Region`, `Player` and `Entity` are not part of this model. Positions, items and regions are opaque values with value equality. A player is only its index. `getPosition` of the `Entity` base class is read as the `position` field.
- The `EntityType` and `EntityUpdateType` enumerations are not part of this model. `World.EntityType` lists GROUND_ITEM, NPC, PLAYER and STATIC_OBJECT. `World.EntityUpdateType` lists ADD and REMOVE. Only GROUND_ITEM, ADD and the fact that its values are distinct are used.
- `Position.hashCode` and `Item.hashCode` are function parameters, not definitions.
- Null arguments are not modelled: a `World.Position`, `World.Item` or `World.Player` value is never null. In the source, `dropped(p, i, null)` throws NullPointerException at `owner.getIndex()` (src/org/apollo/game/model/entity/GroundItem.java:37), and `create(p, null)` succeeds but that item's `hashCode` throws at `item.hashCode()` (line 99). `GroundItems.Dropped` and `GroundItems.HashCode` always return a value.
- Java reference identity is not modelled. `equals` takes a sum type: a ground item, or any other object, null included. `instanceof` over arbitrary classes is reduced to that choice.
- Thrown `NoSuchElementException`s are `Err` results. Nothing models stack unwinding.
- Regions, the region repository and the per-viewer update dispatcher are not part of this model.
- `toUpdateOperation` does not mutate the item or the region. This holds by construction, because everything here is a value. The model does not distinguish two Java objects with equal fields.

## Findings

| source | as written | input that shows it | evidently intended | confidence | as-written member | corrected member |
|---|---|---|---|---|---|---|
| src/org/apollo/game/model/entity/GroundItem.java:64-71, 98-100 | `equals` compares positions only, while `hashCode` also mixes in the item hash, so equal ground items can have different hash codes. This breaks the `java.lang.Object` rule that equal objects hash equally. | `create(p, a)` and `create(p, b)` where `a.hashCode() != b.hashCode()` | equal objects must have equal hash codes (the `java.lang.Object.hashCode` contract): equality by position and item, or a hash of the position alone | medium, not executed | GroundItems.EqualItemsMayHashDifferently (on GroundItems.Equals) | GroundItems.EqualsByContent, proved consistent by GroundItems.EqualsByContentConsistentWithHash |
