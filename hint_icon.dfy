/**
 * The hint-icon message: a notice that puts a marker over an NPC or a
 * player, identified by its index. Messages are immutable and are built
 * only by the four factories below (the underlying constructor is private).
 */
module HintIcon {
  import opened JavaInt
  import opened Wrappers
  import World

  /** The target kind of a hint icon, with its integer value. */
  datatype Type = Npc | Player {

    /** The integer value of this type. */
    function Value(): (v: Int32)
      ensures v == 1 <==> this == Npc
      ensures v == 10 <==> this == Player
    {
      match this
      case Npc => 1
      case Player => 10
    }
  }

  /** What an accessor throws when the field it reads is absent. */
  datatype Exception = NoSuchElementException

  /**
   * The message's fields. Any combination can be written down here; the
   * ones the program can actually build are those of Reachable.
   */
  datatype HintIconMessage = HintIconMessage(
    kind: Type,
    index: Option<Int32>,
    position: Option<World.Position>)
  {

    /** The index of the targeted mob; throws when there is none. */
    function GetIndex(): (r: Result<Int32, Exception>)
      ensures r.Ok? <==> index.Some?
      ensures r.Ok? ==> index == Some(r.value)
      ensures r.Err? ==> r.error == NoSuchElementException
    {
      match index
      case Some(i) => Ok(i)
      case None => Err(NoSuchElementException)
    }

    /** The targeted tile; throws when there is none. */
    function GetPosition(): (r: Result<World.Position, Exception>)
      ensures r.Ok? <==> position.Some?
      ensures r.Ok? ==> position == Some(r.value)
      ensures r.Err? ==> r.error == NoSuchElementException
    {
      match position
      case Some(p) => Ok(p)
      case None => Err(NoSuchElementException)
    }

    /** The kind of entity this message is directed at. */
    function GetType(): (t: Type)
      ensures t == kind
    {
      kind
    }
  }

  /** A hint icon over the NPC with the given index. */
  function ForNpc(index: Int32): (m: HintIconMessage)
    ensures m.GetType() == Npc && m.GetType().Value() == 1
    ensures m.GetIndex() == Ok(index)
    ensures m.GetPosition() == Err(NoSuchElementException)
  {
    HintIconMessage(Npc, Some(index), None)
  }

  /** A hint icon over the player with the given index. */
  function ForPlayer(index: Int32): (m: HintIconMessage)
    ensures m.GetType() == Player && m.GetType().Value() == 10
    ensures m.GetIndex() == Ok(index)
    ensures m.GetPosition() == Err(NoSuchElementException)
  {
    HintIconMessage(Player, Some(index), None)
  }

  /** The message that clears the current NPC hint icon. */
  function ResetNpc(): (m: HintIconMessage)
    ensures m.GetType() == Npc
    ensures m.GetIndex() == Ok(-1)
    ensures m.GetPosition() == Err(NoSuchElementException)
  {
    ForNpc(-1)
  }

  /** The message that clears the current player hint icon. */
  function ResetPlayer(): (m: HintIconMessage)
    ensures m.GetType() == Player
    ensures m.GetIndex() == Ok(-1)
    ensures m.GetPosition() == Err(NoSuchElementException)
  {
    ForPlayer(-1)
  }

  /** The messages some factory can return (the reset factories call the other two). */
  ghost predicate Reachable(m: HintIconMessage)
  {
    exists i: Int32 :: m == ForNpc(i) || m == ForPlayer(i)
  }

  lemma ResetsAreReachable()
    ensures Reachable(ResetNpc()) && Reachable(ResetPlayer())
  {
  }

  /**
   * A message is reachable exactly when it carries an index and no
   * position: no factory sets a position, every factory sets an index,
   * and every target kind has a factory.
   */
  lemma {:induction false} ReachableShape(m: HintIconMessage)
    ensures Reachable(m) <==> m.index.Some? && m.position.None?
  {
    if m.index.Some? && m.position.None? {
      var i := m.index.value;
      match m.kind
      case Npc => assert m == ForNpc(i);
      case Player => assert m == ForPlayer(i);
    }
  }

  /**
   * On every message the program can build, getIndex succeeds and
   * getPosition always throws.
   */
  lemma {:induction false} ReachableAccessors(m: HintIconMessage)
    requires Reachable(m)
    ensures m.GetIndex().Ok?
    ensures m.GetPosition() == Err(NoSuchElementException)
  {
    ReachableShape(m);
  }

  /** The integer values of the two types differ, so the value identifies the type. */
  lemma ValueInjective(a: Type, b: Type)
    ensures a.Value() == b.Value() <==> a == b
  {
  }

  /**
   * The accessors give back exactly what the constructor was given, so a
   * message is determined by what its accessors report.
   */
  lemma AccessorsDetermineMessage(a: HintIconMessage, b: HintIconMessage)
    requires a.GetType() == b.GetType()
    requires a.GetIndex() == b.GetIndex()
    requires a.GetPosition() == b.GetPosition()
    ensures a == b
  {
  }

  /** The factories are injective: different indices give different messages. */
  lemma FactoriesInjective(i: Int32, j: Int32)
    ensures ForNpc(i) == ForNpc(j) <==> i == j
    ensures ForPlayer(i) == ForPlayer(j) <==> i == j
    ensures ForNpc(i) != ForPlayer(j)
  {
  }
}
