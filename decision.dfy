/**
 * The door-open decision: the guard chain of the door-opened handler, the
 * delay resolution it applies to the acting player's settings, and the final
 * positivity and veto checks. The result is the delay of the one-shot close
 * timer, or `None` when no timer is scheduled.
 */
module Decision {
  import opened Wrappers
  import opened Settings
  import opened Entities

  /**
   * The guards that run before the player's settings are looked at: a networked,
   * open, owned door of a recognised type, the use permission when permissions
   * are on, and no manipulator on the door when manipulators are excluded.
   */
  predicate Admitted(cfg: Config, deployedToName: map<string, string>, door: Entity,
                     hasPermission: bool, controlled: bool)
    requires IsDoor(door)
  {
    && door.net.Some? && door.kind.isOpen && door.owner != 0
    && door.kind.prefab in deployedToName
    && !(cfg.usePermissions && !hasPermission)
    && !(cfg.excludeDoorController && controlled)
  }

  /** The entry the decision reads: the player's own, or a fresh one with the defaults. */
  function EntryFor(cfg: Config, s: Store, player: PlayerId): (e: PlayerEntry)
    ensures player in s ==> e == s[player]
    ensures player !in s ==> e == NewEntry(cfg)
  {
    EnsureEntry(s, player, cfg)[player]
  }

  /** The delay after which the door is closed, if a close is scheduled at all. */
  function CloseDecision(cfg: Config, deployedToName: map<string, string>, s: Store, door: Entity,
                         player: PlayerId, hasPermission: bool, controlled: bool, vetoed: bool): (r: Option<real>)
    requires IsDoor(door)
    ensures r.Some? ==> r.value > 0.0 && Admitted(cfg, deployedToName, door, hasPermission, controlled) && !vetoed
  {
    if !Admitted(cfg, deployedToName, door, hasPermission, controlled) then None
    else match ResolveDelay(EntryFor(cfg, s, player), door.net.value, door.kind.prefab)
      case None => None
      case Some(t) => if t <= 0.0 || vetoed then None else Some(t)
  }

  /**
   * A close is scheduled exactly when every guard passes, the resolved delay is
   * positive and no listener vetoes; the delay is then the resolved one.
   */
  lemma ScheduledIff(cfg: Config, deployedToName: map<string, string>, s: Store, door: Entity,
                     player: PlayerId, hasPermission: bool, controlled: bool, vetoed: bool)
    requires IsDoor(door)
    ensures var r := CloseDecision(cfg, deployedToName, s, door, player, hasPermission, controlled, vetoed);
      r.Some? <==>
        && Admitted(cfg, deployedToName, door, hasPermission, controlled)
        && !vetoed
        && var d := ResolveDelay(EntryFor(cfg, s, player), door.net.value, door.kind.prefab);
           d.Some? && d.value > 0.0 && r == d
  {
  }

  /** None of the guard failures lets a close through, whatever the player's settings. */
  lemma NoCloseWhenGuardFails(cfg: Config, deployedToName: map<string, string>, s: Store, door: Entity,
                              player: PlayerId, hasPermission: bool, controlled: bool, vetoed: bool)
    requires IsDoor(door)
    requires || door.owner == 0
             || !door.kind.isOpen
             || door.net.None?
             || door.kind.prefab !in deployedToName
             || (cfg.usePermissions && !hasPermission)
             || (cfg.excludeDoorController && controlled)
             || vetoed
    ensures CloseDecision(cfg, deployedToName, s, door, player, hasPermission, controlled, vetoed) == None
  {
  }

  /** A stored delay of zero or below never schedules a close. */
  lemma NoCloseForNonPositiveDelay(cfg: Config, deployedToName: map<string, string>, s: Store, door: Entity,
                                   player: PlayerId, hasPermission: bool, controlled: bool, vetoed: bool)
    requires IsDoor(door) && door.net.Some?
    requires var d := ResolveDelay(EntryFor(cfg, s, player), door.net.value, door.kind.prefab);
      d.Some? && d.value <= 0.0
    ensures CloseDecision(cfg, deployedToName, s, door, player, hasPermission, controlled, vetoed) == None
  {
  }

  /**
   * A disabled per-door override keeps the door open for every choice of
   * per-type overrides and global delay.
   */
  lemma DisabledDoorOverrideNeverCloses(cfg: Config, deployedToName: map<string, string>, s: Store, door: Entity,
                                        player: PlayerId, hasPermission: bool, controlled: bool, vetoed: bool,
                                        otherTypes: map<string, DoorSettings>, otherTime: real)
    requires IsDoor(door) && door.net.Some? && player in s
    requires door.net.value in s[player].doorSettings && !s[player].doorSettings[door.net.value].enabled
    ensures var s' := s[player := s[player].(typeSettings := otherTypes, time := otherTime)];
      CloseDecision(cfg, deployedToName, s', door, player, hasPermission, controlled, vetoed) == None
  {
  }

  /**
   * A player with no entry yet is decided by the configured defaults: the
   * default delay when the default switch is on and that delay is positive.
   */
  lemma NewPlayerUsesDefaults(cfg: Config, deployedToName: map<string, string>, s: Store, door: Entity,
                              player: PlayerId, hasPermission: bool, controlled: bool, vetoed: bool)
    requires IsDoor(door) && player !in s
    ensures CloseDecision(cfg, deployedToName, s, door, player, hasPermission, controlled, vetoed)
         == if Admitted(cfg, deployedToName, door, hasPermission, controlled) && !vetoed
               && cfg.defaultEnabled && cfg.defaultDelay > 0.0
            then Some(cfg.defaultDelay) else None
  {
  }
}
