/**
 * A ground item: an item stack lying on a tile, optionally tagged with the
 * index of the player who dropped it (-1 when nobody did). Ground items
 * are immutable; they are built only by Create and Dropped.
 */
module GroundItems {
  import opened JavaInt
  import World

  /** The owner index of a ground item that no player dropped. */
  const NO_OWNER: Int32 := -1

  datatype GroundItem = GroundItem(position: World.Position, item: World.Item, index: Int32)
  {

    /** The item displayed on the ground. */
    function GetItem(): (it: World.Item)
      ensures it == item
    {
      item
    }

    /** The index of the player who dropped this item, or -1. */
    function GetOwnerIndex(): (owner: Int32)
      ensures owner == index
    {
      index
    }

    /** The kind of entity a ground item is: always GROUND_ITEM, never NPC or PLAYER. */
    function GetEntityType(): (t: World.EntityType)
      ensures t == World.EntityType.GroundItem
      ensures t != World.EntityType.Npc && t != World.EntityType.Player
    {
      World.EntityType.GroundItem
    }
  }

  /** A ground item no player owns. */
  function Create(position: World.Position, item: World.Item): (g: GroundItem)
    ensures g.position == position && g.GetItem() == item
    ensures g.GetOwnerIndex() == NO_OWNER
  {
    GroundItem(position, item, NO_OWNER)
  }

  /** A ground item dropped by the given player, tagged with that player's index. */
  function Dropped(position: World.Position, item: World.Item, owner: World.Player): (g: GroundItem)
    ensures g.position == position && g.GetItem() == item
    ensures g.GetOwnerIndex() == owner.index
  {
    GroundItem(position, item, owner.index)
  }

  /** The argument of Java's `equals`: a ground item, or anything else (null included). */
  datatype Object = AGroundItem(groundItem: GroundItem) | NotAGroundItem

  /** `equals` as written: another ground item on the same tile, whatever it holds. */
  predicate Equals(g: GroundItem, obj: Object): (b: bool)
    ensures b <==> obj.AGroundItem? && obj.groundItem.position == g.position
  {
    match obj
    case AGroundItem(other) => g.position == other.position
    case NotAGroundItem => false
  }

  /**
   * `hashCode`: position hash times 31 plus item hash, evaluated step by
   * step in wrapping `int` arithmetic. The result is the exact value
   * reduced once modulo 2^32 into the `int` range.
   */
  function HashCode(g: GroundItem, positionHash: World.Position -> Int32, itemHash: World.Item -> Int32): (h: Int32)
    ensures h == Wrap(positionHash(g.position) * 31 + itemHash(g.item))
  {
    Add(Mul(positionHash(g.position), 31), itemHash(g.item))
  }

  /** Neither side's item or owner index plays any part in equals. */
  lemma EqualsIgnoresItemAndOwner(g: GroundItem, h: GroundItem, item: World.Item, owner: Int32)
    ensures Equals(g, AGroundItem(h)) <==> Equals(g, AGroundItem(h.(item := item, index := owner)))
    ensures Equals(g, AGroundItem(h)) <==> Equals(g.(item := item, index := owner), AGroundItem(h))
  {
  }

  /** equals is an equivalence relation on ground items. */
  lemma EqualsIsEquivalence(a: GroundItem, b: GroundItem, c: GroundItem)
    ensures Equals(a, AGroundItem(a))
    ensures Equals(a, AGroundItem(b)) <==> Equals(b, AGroundItem(a))
    ensures Equals(a, AGroundItem(b)) && Equals(b, AGroundItem(c)) ==> Equals(a, AGroundItem(c))
    ensures !Equals(a, NotAGroundItem)
  {
  }

  /** Who dropped an item never affects its identity. */
  lemma CreateEqualsDropped(position: World.Position, item: World.Item, owner: World.Player)
    ensures Equals(Create(position, item), AGroundItem(Dropped(position, item, owner)))
    ensures Equals(Dropped(position, item, owner), AGroundItem(Create(position, item)))
  {
  }

  /** hashCode does not depend on the owner index. */
  lemma HashCodeIgnoresOwner(g: GroundItem, owner: Int32, positionHash: World.Position -> Int32, itemHash: World.Item -> Int32)
    ensures HashCode(g.(index := owner), positionHash, itemHash) == HashCode(g, positionHash, itemHash)
  {
  }

  /**
   * Two ground items on one tile holding items with different hashes are
   * equal yet hash differently, against the rule that equal objects have
   * equal hash codes.
   */
  lemma EqualItemsMayHashDifferently(
    position: World.Position, a: World.Item, b: World.Item,
    positionHash: World.Position -> Int32, itemHash: World.Item -> Int32)
    requires itemHash(a) != itemHash(b)
    ensures Equals(Create(position, a), AGroundItem(Create(position, b)))
    ensures HashCode(Create(position, a), positionHash, itemHash) != HashCode(Create(position, b), positionHash, itemHash)
  {
  }

  /** Equality as the hash code implies it: same tile and same item, owner ignored. */
  predicate EqualsByContent(g: GroundItem, obj: Object): (b: bool)
    ensures b <==> Equals(g, obj) && obj.groundItem.item == g.item
  {
    match obj
    case AGroundItem(other) => g.position == other.position && g.item == other.item
    case NotAGroundItem => false
  }

  /** The corrected equality agrees with hashCode, for every choice of the collaborators' hashes. */
  lemma EqualsByContentConsistentWithHash(a: GroundItem, b: GroundItem, positionHash: World.Position -> Int32, itemHash: World.Item -> Int32)
    requires EqualsByContent(a, AGroundItem(b))
    ensures HashCode(a, positionHash, itemHash) == HashCode(b, positionHash, itemHash)
  {
  }

  /** The corrected equality is an equivalence that still ignores the owner and refines equals. */
  lemma EqualsByContentProperties(a: GroundItem, b: GroundItem, c: GroundItem, owner: World.Player)
    ensures EqualsByContent(a, AGroundItem(a)) && !EqualsByContent(a, NotAGroundItem)
    ensures EqualsByContent(a, AGroundItem(b)) <==> EqualsByContent(b, AGroundItem(a))
    ensures EqualsByContent(a, AGroundItem(b)) && EqualsByContent(b, AGroundItem(c)) ==> EqualsByContent(a, AGroundItem(c))
    ensures EqualsByContent(a, AGroundItem(b)) ==> Equals(a, AGroundItem(b))
    ensures EqualsByContent(Create(a.position, a.item), AGroundItem(Dropped(a.position, a.item, owner)))
  {
  }

  /** One change to one ground item, scoped to one region. */
  datatype ItemUpdateOperation = ItemUpdateOperation(
    region: World.Region,
    operation: World.EntityUpdateType,
    entity: GroundItem)

  /**
   * The operation that adds or removes this ground item in the given
   * region: it carries the region, the update type and the item itself,
   * so the item it reports is indistinguishable from this one.
   */
  function ToUpdateOperation(g: GroundItem, region: World.Region, operation: World.EntityUpdateType): (op: ItemUpdateOperation)
    ensures op.region == region && op.operation == operation
    ensures op.entity.position == g.position && op.entity.GetItem() == g.GetItem()
    ensures op.entity.GetOwnerIndex() == g.GetOwnerIndex()
  {
    ItemUpdateOperation(region, operation, g)
  }

  /**
   * An item dropped by player 5 reports owner 5 and type GROUND_ITEM, and
   * its ADD operation refers to the given region and to that item.
   */
  lemma DroppedAddScenario(position: World.Position, item: World.Item, region: World.Region)
    ensures var g := Dropped(position, item, World.Player.Player(5));
      && g.GetOwnerIndex() == 5
      && g.GetEntityType() == World.EntityType.GroundItem
      && ToUpdateOperation(g, region, World.EntityUpdateType.Add) == ItemUpdateOperation(region, World.EntityUpdateType.Add, g)
  {
  }
}
