/**
 * The Auto Doors controller: the plugin object with its mutable state (the
 * settings store, the tracked door manipulators, the recognised door types)
 * and the engine hooks and chat command that update it.
 */
module Controller {
  import opened Wrappers
  import opened Settings
  import opened Entities
  import opened Decision
  import opened Commands

  class AutoDoors {
    /** The configuration file, read once at load. */
    const config: Config
    /** Set once the server has finished starting. */
    var initialized: bool
    /** Door type tag to display name, for the door types that can auto-close. */
    var deployedToName: map<string, string>
    /** The door manipulators being tracked, by entity identity. */
    var doorManipulators: set<EntityRef>
    /** The data file: the per-player settings. */
    var playerData: Store

    /** The plugin as loaded: configuration and data read, server not yet initialised. */
    constructor (config: Config, loaded: Store)
      ensures this.config == config && playerData == loaded
      ensures !initialized && deployedToName == map[] && doorManipulators == {}
    {
      this.config := config;
      initialized := false;
      deployedToName := map[];
      doorManipulators := {};
      playerData := loaded;
    }

    /**
     * Server start: the recognised door types become known, and every
     * manipulator that already exists goes through the spawn hook.
     */
    method OnServerInitialized(deployed: map<string, string>, existing: seq<Entity>)
      requires forall i :: 0 <= i < |existing| ==> IsManipulator(existing[i])
      modifies this`initialized, this`deployedToName, this`doorManipulators
      ensures initialized && deployedToName == deployed
      ensures doorManipulators == old(doorManipulators) + set i | 0 <= i < |existing| && existing[i].owner != 0 :: existing[i].ref
    {
      deployedToName := deployed;
      initialized := true;
      for i := 0 to |existing|
        invariant initialized && deployedToName == deployed
        invariant doorManipulators == old(doorManipulators) + set j | 0 <= j < i && existing[j].owner != 0 :: existing[j].ref
      {
        OnEntitySpawned(existing[i]);
      }
    }

    /** A manipulator spawns: it is tracked once the server is initialised, if it has an owner. */
    method OnEntitySpawned(manipulator: Entity)
      requires IsManipulator(manipulator)
      modifies this`doorManipulators
      ensures doorManipulators == if initialized && manipulator.owner != 0
                                  then old(doorManipulators) + {manipulator.ref}
                                  else old(doorManipulators)
    {
      if !initialized || manipulator.owner == 0 {
        return;
      }
      doorManipulators := doorManipulators + {manipulator.ref};
    }

    /**
     * An entity is destroyed. Owned, networked ones only: a manipulator stops
     * being tracked; a door's net id leaves every player's per-door overrides.
     */
    method OnEntityKill(entity: Entity)
      modifies this`doorManipulators, this`playerData
      ensures entity.owner == 0 || entity.net.None? || entity.kind.OtherKind? ==>
        doorManipulators == old(doorManipulators) && playerData == old(playerData)
      ensures entity.owner != 0 && entity.net.Some? && IsManipulator(entity) ==>
        doorManipulators == old(doorManipulators) - {entity.ref} && playerData == old(playerData)
      ensures entity.owner != 0 && entity.net.Some? && IsDoor(entity) ==>
        doorManipulators == old(doorManipulators) && playerData == ForgetDoor(old(playerData), entity.net.value)
    {
      if entity.owner == 0 || entity.net.None? {
        return;
      }
      if IsManipulator(entity) {
        doorManipulators := doorManipulators - {entity.ref};
      } else if IsDoor(entity) {
        var id := entity.net.value;
        ghost var before := playerData;
        var pending := playerData.Keys;
        while pending != {}
          invariant pending <= before.Keys && playerData.Keys == before.Keys
          invariant doorManipulators == old(doorManipulators)
          invariant forall p :: p in before && p !in pending ==>
            playerData[p] == before[p].(doorSettings := before[p].doorSettings - {id})
          invariant forall p :: p in pending ==> playerData[p] == before[p]
          decreases pending
        {
          var p :| p in pending;
          var entry := playerData[p];
          if id in entry.doorSettings {
            playerData := playerData[p := entry.(doorSettings := entry.doorSettings - {id})];
          } else {
            assert entry.doorSettings - {id} == entry.doorSettings;
          }
          pending := pending - {p};
        }
        assert playerData == ForgetDoor(before, id) by {
          assert playerData.Keys == ForgetDoor(before, id).Keys;
          forall p | p in playerData ensures playerData[p] == ForgetDoor(before, id)[p] { }
        }

      }
    }

    /** World reset: every player's per-door overrides are cleared, since net ids are reassigned. */
    method OnNewSave()
      modifies this`playerData
      ensures playerData == WipeDoorOverrides(old(playerData))
    {
      ghost var before := playerData;
      var pending := playerData.Keys;
      while pending != {}
        invariant pending <= before.Keys && playerData.Keys == before.Keys
        invariant forall p :: p in before && p !in pending ==> playerData[p] == before[p].(doorSettings := map[])
        invariant forall p :: p in pending ==> playerData[p] == before[p]
        decreases pending
      {
        var p :| p in pending;
        playerData := playerData[p := playerData[p].(doorSettings := map[])];
        pending := pending - {p};
      }
    }

    /** Lazy creation of a player's entry with the configured defaults. */
    method CreatePlayerData(player: PlayerId)
      modifies this`playerData
      ensures playerData == EnsureEntry(old(playerData), player, config)
    {
      if player in playerData {
        return;
      }
      playerData := playerData[player := NewEntry(config)];
    }

    /** Whether some tracked manipulator targets `door`; `targets` is each live manipulator's target door. */
    method HaveDoorController(door: EntityRef, targets: map<EntityRef, EntityRef>) returns (found: bool)
      ensures found <==> Controlled(doorManipulators, targets, door)
    {
      var pending := doorManipulators;
      while pending != {}
        invariant pending <= doorManipulators
        invariant forall m :: m in doorManipulators && m !in pending ==> !(m in targets && targets[m] == door)
        decreases pending
      {
        var m :| m in pending;
        if m in targets && targets[m] == door {
          return true;
        }
        pending := pending - {m};
      }
      return false;
    }

    /**
     * A door was opened by `player`. Returns the delay of the close timer to
     * schedule, or `None`. The host's answers arrive as parameters: whether the
     * player holds the use permission, each manipulator's target, and whether a
     * listener vetoes the close.
     */
    method OnDoorOpened(door: Entity, player: PlayerId, hasPermission: bool,
                        targets: map<EntityRef, EntityRef>, vetoed: bool) returns (delay: Option<real>)
      requires IsDoor(door)
      modifies this`playerData
      ensures delay == CloseDecision(config, deployedToName, old(playerData), door, player, hasPermission,
                                     Controlled(doorManipulators, targets, door.ref), vetoed)
      ensures playerData ==
        if Admitted(config, deployedToName, door, hasPermission, Controlled(doorManipulators, targets, door.ref))
        then EnsureEntry(old(playerData), player, config)
        else old(playerData)
    {
      if door.net.None? || !door.kind.isOpen || door.owner == 0 {
        return None;
      }
      if door.kind.prefab !in deployedToName {
        return None;
      }
      if config.usePermissions && !hasPermission {
        return None;
      }
      if config.excludeDoorController {
        var controlled := HaveDoorController(door.ref, targets);
        if controlled {
          return None;
        }
      }
      var id := door.net.value;
      var autoCloseTime := 0.0;
      CreatePlayerData(player);
      var entry := playerData[player];
      if !entry.enabled {
        return None;
      }
      if id in entry.doorSettings {
        if !entry.doorSettings[id].enabled {
          return None;
        }
        autoCloseTime := entry.doorSettings[id].time;
      } else if door.kind.prefab in entry.typeSettings {
        if !entry.typeSettings[door.kind.prefab].enabled {
          return None;
        }
        autoCloseTime := entry.typeSettings[door.kind.prefab].time;
      } else {
        autoCloseTime := entry.time;
      }
      if autoCloseTime <= 0.0 {
        return None;
      }
      if vetoed {
        return None;
      }
      return Some(autoCloseTime);
    }

    /** The check a fired close timer makes before closing its door. */
    function TimerCloses(doorNow: Option<Entity>, playerDead: bool): (closes: bool)
      requires doorNow.Some? ==> IsDoor(doorNow.value)
      ensures closes ==> doorNow.Some? && doorNow.value.kind.isOpen
      ensures closes ==> !(config.cancelOnKill && playerDead)
      ensures doorNow.Some? && doorNow.value.kind.isOpen && !(config.cancelOnKill && playerDead) ==> closes
    {
      FireCloses(config.cancelOnKill, doorNow, playerDead)
    }

    /** The `/autodoor` chat command issued by `player`, with `hit` the entity the player looks at. */
    method CmdAutoDoor(player: PlayerId, hasPermission: bool, args: Args, hit: Option<Entity>) returns (reply: Reply)
      modifies this`playerData
      ensures Outcome(playerData, reply)
           == Command(config, deployedToName, old(playerData), player, hasPermission, args, hit)
    {
      if config.usePermissions && !hasPermission {
        return NotAllowed;
      }
      CreatePlayerData(player);
      if args.NoArgs? {
        var entry := playerData[player];
        playerData := playerData[player := entry.(enabled := !entry.enabled)];
        return AutoDoorToggled(playerData[player].enabled);
      }
      match args.verb {
        case All => reply := CmdAll(player, args.arg);
        case Single => reply := CmdSingle(player, args.arg, hit);
        case Type => reply := CmdType(player, args.arg, hit);
        case Help => reply := HelpText;
        case Unknown => reply := SyntaxError;
      }
    }

    /** `all <t>`: the loops over both override maps set every delay. */
    method CmdAll(player: PlayerId, arg: Arg) returns (reply: Reply)
      requires player in playerData
      modifies this`playerData
      ensures Outcome(playerData, reply) == AllCommand(config, old(playerData), player, arg)
    {
      if arg.Word? && arg.parsed.Some? {
        var time := arg.parsed.value;
        if InRange(config, time) {
          var entry := playerData[player];
          var types := RetimeOverrides(entry.typeSettings, time);
          var doors := RetimeOverrides(entry.doorSettings, time);
          playerData := playerData[player := PlayerEntry(entry.enabled, time, doors, types)];
          return DelaySet(time);
        }
        return DelayLimit;
      }
      return SyntaxError;
    }

    /** `single [t]` on the door the player looks at. */
    method CmdSingle(player: PlayerId, arg: Arg, hit: Option<Entity>) returns (reply: Reply)
      requires player in playerData
      modifies this`playerData
      ensures Outcome(playerData, reply) == SingleCommand(config, deployedToName, old(playerData), player, arg, hit)
    {
      var door := LookingDoor(deployedToName, hit);
      if door.None? || door.value.net.None? {
        return DoorNotFound;
      }
      var id := door.value.net.value;
      var entry := playerData[player];
      var settings := entry.doorSettings;
      if id !in settings {
        settings := settings[id := DoorSettings(true, config.defaultDelay)];
      }
      if arg.Absent? {
        settings := settings[id := settings[id].(enabled := !settings[id].enabled)];
        playerData := playerData[player := entry.(doorSettings := settings)];
        return SingleToggled(settings[id].enabled);
      }
      playerData := playerData[player := entry.(doorSettings := settings)];
      if arg.parsed.Some? {
        var time := arg.parsed.value;
        if InRange(config, time) {
          settings := settings[id := settings[id].(time := time)];
          playerData := playerData[player := entry.(doorSettings := settings)];
          return SingleDelaySet(time);
        }
        return DelayLimit;
      }
      return SyntaxError;
    }

    /** `type [t]` on the type of the door the player looks at. */
    method CmdType(player: PlayerId, arg: Arg, hit: Option<Entity>) returns (reply: Reply)
      requires player in playerData
      modifies this`playerData
      ensures Outcome(playerData, reply) == TypeCommand(config, deployedToName, old(playerData), player, arg, hit)
    {
      var door := LookingDoor(deployedToName, hit);
      if door.None? || door.value.net.None? {
        return DoorNotFound;
      }
      var tag := door.value.kind.prefab;
      var entry := playerData[player];
      var settings := entry.typeSettings;
      if tag !in settings {
        settings := settings[tag := DoorSettings(true, config.defaultDelay)];
      }
      if arg.Absent? {
        settings := settings[tag := settings[tag].(enabled := !settings[tag].enabled)];
        playerData := playerData[player := entry.(typeSettings := settings)];
        return TypeToggled(settings[tag].enabled);
      }
      playerData := playerData[player := entry.(typeSettings := settings)];
      if arg.parsed.Some? {
        var time := arg.parsed.value;
        if InRange(config, time) {
          settings := settings[tag := settings[tag].(time := time)];
          playerData := playerData[player := entry.(typeSettings := settings)];
          return TypeDelaySet(time);
        }
        return DelayLimit;
      }
      return SyntaxError;
    }
  }

  /**
   * The manipulator scenario: while a manipulator targets a door, opening it
   * schedules nothing; once the manipulator is destroyed it closes as usual.
   */
  method ManipulatorScenario() {
    var plugin := new AutoDoors(DEFAULT_CONFIG, map[]);
    plugin.OnServerInitialized(map["door.hinged.wood" := "Wooden Door"], []);
    var manipulator := Entity(2, 7, Some(50), ManipulatorKind);
    var door := Entity(1, 7, Some(42), DoorKind("door.hinged.wood", true));
    plugin.OnEntitySpawned(manipulator);
    var targets := map[2 := 1];
    var first := plugin.OnDoorOpened(door, 7, true, targets, false);
    assert plugin.doorManipulators == {2};
    assert Controlled(plugin.doorManipulators, targets, 1) by {
      assert 2 in plugin.doorManipulators && 2 in targets && targets[2] == 1;
    }
    assert first == None;
    plugin.OnEntityKill(manipulator);
    assert plugin.doorManipulators == {};
    var second := plugin.OnDoorOpened(door, 7, true, map[], false);
    assert second == Some(5.0);
  }
}
