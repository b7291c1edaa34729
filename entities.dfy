/**
 * The game entities the controller reacts to, as values: doors, door
 * manipulators and other combat entities; the filter applied to the door a
 * player looks at; the manipulator-exclusion test; and what a fired close
 * timer does to its door.
 */
module Entities {
  import opened Wrappers
  import opened Settings

  /** The identity of an entity object; the source compares entities by reference. */
  type EntityRef = nat

  /** A door carries its type tag (short prefab name) and its open flag. */
  datatype Kind = DoorKind(prefab: string, isOpen: bool) | ManipulatorKind | OtherKind

  /** An entity: its identity, its owner (0 = unowned) and its network id (`None`: not networked). */
  datatype Entity = Entity(ref: EntityRef, owner: PlayerId, net: Option<NetId>, kind: Kind)

  predicate IsDoor(e: Entity) {
    e.kind.DoorKind?
  }

  predicate IsManipulator(e: Entity) {
    e.kind.ManipulatorKind?
  }

  /**
   * The door a player's raycast singles out for the `single` and `type`
   * commands: the entity hit, when it is an owned door of a recognised type.
   */
  function LookingDoor(deployedToName: map<string, string>, hit: Option<Entity>): (r: Option<Entity>)
    ensures r.Some? <==>
      hit.Some? && IsDoor(hit.value) && hit.value.owner != 0 && hit.value.kind.prefab in deployedToName
    ensures r.Some? ==> r == hit
  {
    match hit
    case None => None
    case Some(e) =>
      if IsDoor(e) && e.owner != 0 && e.kind.prefab in deployedToName then Some(e) else None
  }

  /**
   * Some tracked manipulator currently targets the door. `targets` gives the
   * target door of each manipulator that still exists and has one; a destroyed
   * manipulator (null to the engine) has no entry.
   */
  ghost predicate Controlled(manipulators: set<EntityRef>, targets: map<EntityRef, EntityRef>, door: EntityRef) {
    exists m :: m in manipulators && m in targets && targets[m] == door
  }

  /**
   * Whether a fired close timer closes its door: the door (`None` once
   * destroyed) must still exist and be open, and with `cancelOnKill` the player
   * must not be dead.
   */
  predicate FireCloses(cancelOnKill: bool, doorNow: Option<Entity>, playerDead: bool) {
    && doorNow.Some? && IsDoor(doorNow.value) && doorNow.value.kind.isOpen
    && !(cancelOnKill && playerDead)
  }

  /** The door after its close timer fired. */
  function Fire(cancelOnKill: bool, doorNow: Option<Entity>, playerDead: bool): (after: Option<Entity>)
    requires doorNow.Some? ==> IsDoor(doorNow.value)
    ensures after.Some? <==> doorNow.Some?
    ensures after.Some? ==> IsDoor(after.value) && after.value.ref == doorNow.value.ref
    ensures after.Some? && after.value.kind.isOpen ==> doorNow.value.kind.isOpen && cancelOnKill && playerDead
  {
    if FireCloses(cancelOnKill, doorNow, playerDead)
    then Some(doorNow.value.(kind := doorNow.value.kind.(isOpen := false)))
    else doorNow
  }

  /** A fired timer changes the door exactly when it closes it, and then only its open flag. */
  lemma FireChangesOnlyWhenCloses(cancelOnKill: bool, doorNow: Option<Entity>, playerDead: bool)
    requires doorNow.Some? ==> IsDoor(doorNow.value)
    ensures Fire(cancelOnKill, doorNow, playerDead) != doorNow <==> FireCloses(cancelOnKill, doorNow, playerDead)
    ensures FireCloses(cancelOnKill, doorNow, playerDead) ==>
      var d := Fire(cancelOnKill, doorNow, playerDead).value;
      !d.kind.isOpen && d.(kind := d.kind.(isOpen := true)) == doorNow.value
  {
  }

  /** A second firing on the same door does nothing: the first one closed it or had no effect. */
  lemma FireIdempotent(cancelOnKill: bool, doorNow: Option<Entity>, playerDead: bool)
    requires doorNow.Some? ==> IsDoor(doorNow.value)
    ensures Fire(cancelOnKill, Fire(cancelOnKill, doorNow, playerDead), playerDead)
         == Fire(cancelOnKill, doorNow, playerDead)
  {
  }

  /** The exclusion test only looks at the tracked manipulators: an untracked one never counts. */
  lemma ControlledAfterRemoval(manipulators: set<EntityRef>, targets: map<EntityRef, EntityRef>,
                               door: EntityRef, m: EntityRef)
    requires forall n :: n in manipulators && n in targets && targets[n] == door ==> n == m
    ensures !Controlled(manipulators - {m}, targets, door)
  {
  }
}
