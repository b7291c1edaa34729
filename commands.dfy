/**
 * The state changes of the `/autodoor` chat command. Parsing is abstracted:
 * the verb arrives already recognised and the delay argument as the result of
 * parsing it as a number. Chat output is reduced to which message is sent.
 */
module Commands {
  import opened Wrappers
  import opened Settings
  import opened Entities
  import opened Decision

  /** The delay argument after a verb: none given, or a word that did or did not parse as a number. */
  datatype Arg = Absent | Word(parsed: Option<real>)

  /** The sub-verbs (`a|all`, `s|single`, `t|type`, `h|help`) and any other word. */
  datatype Verb = All | Single | Type | Help | Unknown

  /** The command line: no arguments at all, or a verb with its (optional) delay. */
  datatype Args = NoArgs | WithVerb(verb: Verb, arg: Arg)

  /** Which message the player is sent. */
  datatype Reply =
    | NotAllowed
    | AutoDoorToggled(enabled: bool)
    | DelaySet(time: real)
    | DelayLimit
    | DoorNotFound
    | SingleToggled(enabled: bool)
    | SingleDelaySet(time: real)
    | TypeToggled(enabled: bool)
    | TypeDelaySet(time: real)
    | HelpText
    | SyntaxError

  datatype Outcome = Outcome(store: Store, reply: Reply)

  /** What `single` and `type` do to their override map once the target is known. */
  datatype Adjusted = Toggled(enabled: bool) | TimeSet(time: real) | OutOfRange | NotANumber

  /**
   * The override for key `k` is first created if absent (enabled, default
   * delay); then a bare verb flips it, an in-range number sets its delay, and
   * any other argument leaves the created override as it is.
   */
  function Adjust<K>(cfg: Config, m: map<K, DoorSettings>, k: K, arg: Arg): (r: (map<K, DoorSettings>, Adjusted))
    ensures r.0.Keys == m.Keys + {k}
    ensures forall j :: j in m && j != k ==> r.0[j] == m[j]
    ensures var o := EnsureOverride(m, k, cfg.defaultDelay)[k];
      match arg
      case Absent => r.0[k] == o.(enabled := !o.enabled) && r.1 == Toggled(!o.enabled)
      case Word(Some(t)) =>
        if InRange(cfg, t) then r.0[k] == o.(time := t) && r.1 == TimeSet(t)
        else r.0[k] == o && r.1 == OutOfRange
      case Word(None) => r.0[k] == o && r.1 == NotANumber
  {
    var created := EnsureOverride(m, k, cfg.defaultDelay);
    match arg
    case Absent =>
      var flipped := ToggleOverride(created, k);
      (flipped, Toggled(flipped[k].enabled))
    case Word(Some(t)) =>
      if InRange(cfg, t) then (SetOverrideTime(created, k, t), TimeSet(t)) else (created, OutOfRange)
    case Word(None) => (created, NotANumber)
  }

  /** The message for a `single` or `type` adjustment. */
  function AdjustReply(a: Adjusted, single: bool): Reply {
    match a
    case Toggled(b) => if single then SingleToggled(b) else TypeToggled(b)
    case TimeSet(t) => if single then SingleDelaySet(t) else TypeDelaySet(t)
    case OutOfRange => DelayLimit
    case NotANumber => SyntaxError
  }

  /** `all`: an in-range number retimes the whole entry; a missing or non-numeric argument is a syntax error. */
  function AllCommand(cfg: Config, s: Store, p: PlayerId, arg: Arg): Outcome
    requires p in s
  {
    match arg
    case Word(Some(t)) =>
      if InRange(cfg, t) then Outcome(s[p := RetimedEntry(s[p], t)], DelaySet(t))
      else Outcome(s, DelayLimit)
    case _ => Outcome(s, SyntaxError)
  }

  /** `single`: adjusts the per-door override of the door the player looks at. */
  function SingleCommand(cfg: Config, deployedToName: map<string, string>, s: Store, p: PlayerId,
                         arg: Arg, hit: Option<Entity>): Outcome
    requires p in s
  {
    var target := LookingDoor(deployedToName, hit);
    if target.None? || target.value.net.None? then Outcome(s, DoorNotFound)
    else
      var a := Adjust(cfg, s[p].doorSettings, target.value.net.value, arg);
      Outcome(s[p := s[p].(doorSettings := a.0)], AdjustReply(a.1, true))
  }

  /** `type`: adjusts the per-type override of the door the player looks at. */
  function TypeCommand(cfg: Config, deployedToName: map<string, string>, s: Store, p: PlayerId,
                       arg: Arg, hit: Option<Entity>): Outcome
    requires p in s
  {
    var target := LookingDoor(deployedToName, hit);
    if target.None? || target.value.net.None? then Outcome(s, DoorNotFound)
    else
      var a := Adjust(cfg, s[p].typeSettings, target.value.kind.prefab, arg);
      Outcome(s[p := s[p].(typeSettings := a.0)], AdjustReply(a.1, false))
  }

  /** The whole command: permission check, lazy entry creation, then the verb. */
  function Command(cfg: Config, deployedToName: map<string, string>, s: Store, p: PlayerId,
                   hasPermission: bool, args: Args, hit: Option<Entity>): Outcome
  {
    if cfg.usePermissions && !hasPermission then Outcome(s, NotAllowed)
    else
      var s1 := EnsureEntry(s, p, cfg);
      match args
      case NoArgs => Outcome(s1[p := s1[p].(enabled := !s1[p].enabled)], AutoDoorToggled(!s1[p].enabled))
      case WithVerb(All, arg) => AllCommand(cfg, s1, p, arg)
      case WithVerb(Single, arg) => SingleCommand(cfg, deployedToName, s1, p, arg, hit)
      case WithVerb(Type, arg) => TypeCommand(cfg, deployedToName, s1, p, arg, hit)
      case WithVerb(Help, _) => Outcome(s1, HelpText)
      case WithVerb(Unknown, _) => Outcome(s1, SyntaxError)
  }

  // ---------------------------------------------------------------------------
  // Properties of the command
  // ---------------------------------------------------------------------------

  /** Every existing setting of the old store is still there, with the same switch and delay. */
  ghost predicate SettingsKept(s: Store, r: Store) {
    && s.Keys <= r.Keys
    && forall q :: q in s ==>
      && r[q].enabled == s[q].enabled && r[q].time == s[q].time
      && (forall k :: k in s[q].doorSettings ==> k in r[q].doorSettings && r[q].doorSettings[k] == s[q].doorSettings[k])
      && (forall k :: k in s[q].typeSettings ==> k in r[q].typeSettings && r[q].typeSettings[k] == s[q].typeSettings[k])
  }

  /** Without the use permission (when permissions are on) the command changes nothing. */
  lemma DeniedChangesNothing(cfg: Config, deployedToName: map<string, string>, s: Store, p: PlayerId,
                             args: Args, hit: Option<Entity>)
    requires cfg.usePermissions
    ensures Command(cfg, deployedToName, s, p, false, args, hit) == Outcome(s, NotAllowed)
  {
  }

  /** The command touches only the issuing player's entry, which it creates if needed. */
  lemma OnlyIssuerChanges(cfg: Config, deployedToName: map<string, string>, s: Store, p: PlayerId,
                          hasPermission: bool, args: Args, hit: Option<Entity>)
    ensures var r := Command(cfg, deployedToName, s, p, hasPermission, args, hit).store;
      && (r.Keys == s.Keys || r.Keys == s.Keys + {p})
      && forall q :: q in s && q != p ==> r[q] == s[q]
  {
  }

  /**
   * A delay outside `[minimumDelay, maximumDelay]` is refused by every verb that
   * takes one: no stored switch or delay changes, and the reply is the limit
   * message (or that no door was found). The target's override may still be
   * created with the defaults.
   */
  lemma OutOfRangeKeepsSettings(cfg: Config, deployedToName: map<string, string>, s: Store, p: PlayerId,
                                hasPermission: bool, verb: Verb, t: real, hit: Option<Entity>)
    requires verb in {All, Single, Type}
    requires !InRange(cfg, t)
    ensures var o := Command(cfg, deployedToName, s, p, hasPermission, WithVerb(verb, Word(Some(t))), hit);
      && SettingsKept(s, o.store)
      && o.reply in {NotAllowed, DelayLimit, DoorNotFound}
  {
  }

  /** A refused number for `single`/`type` leaves exactly the store with the target's override created. */
  lemma RefusedSingleCreatesOverride(cfg: Config, deployedToName: map<string, string>, s: Store, p: PlayerId,
                                     t: real, hit: Option<Entity>)
    requires !cfg.usePermissions && !InRange(cfg, t)
    requires var d := LookingDoor(deployedToName, hit); d.Some? && d.value.net.Some?
    ensures var e := EnsureEntry(s, p, cfg)[p];
      var id := hit.value.net.value;
      Command(cfg, deployedToName, s, p, false, WithVerb(Single, Word(Some(t))), hit)
        == Outcome(EnsureEntry(s, p, cfg)[p := e.(doorSettings := EnsureOverride(e.doorSettings, id, cfg.defaultDelay))],
                   DelayLimit)
  {
  }

  /**
   * A valid `all <t>` sets the global delay and the delay of every existing
   * override to `t`; no switch changes and no override is added or removed.
   */
  lemma ValidAllRetimesEverything(cfg: Config, deployedToName: map<string, string>, s: Store, p: PlayerId,
                                  t: real, hit: Option<Entity>)
    requires !cfg.usePermissions && InRange(cfg, t)
    ensures var o := Command(cfg, deployedToName, s, p, false, WithVerb(All, Word(Some(t))), hit);
      var e := EnsureEntry(s, p, cfg)[p];
      && o.reply == DelaySet(t)
      && o.store.Keys == s.Keys + {p}
      && o.store[p].time == t && o.store[p].enabled == e.enabled
      && o.store[p].doorSettings.Keys == e.doorSettings.Keys
      && o.store[p].typeSettings.Keys == e.typeSettings.Keys
      && (forall k :: k in e.doorSettings ==> o.store[p].doorSettings[k] == e.doorSettings[k].(time := t))
      && (forall k :: k in e.typeSettings ==> o.store[p].typeSettings[k] == e.typeSettings[k].(time := t))
  {
  }

  /** A valid `single <t>` stores `t` as the delay of the looked-at door's override and nothing else. */
  lemma ValidSingleSetsOneDelay(cfg: Config, deployedToName: map<string, string>, s: Store, p: PlayerId,
                                t: real, hit: Option<Entity>)
    requires !cfg.usePermissions && InRange(cfg, t)
    requires var d := LookingDoor(deployedToName, hit); d.Some? && d.value.net.Some?
    ensures var o := Command(cfg, deployedToName, s, p, false, WithVerb(Single, Word(Some(t))), hit);
      var e := EnsureEntry(s, p, cfg)[p];
      var id := hit.value.net.value;
      && o.reply == SingleDelaySet(t)
      && o.store[p] == e.(doorSettings := o.store[p].doorSettings)
      && o.store[p].doorSettings.Keys == e.doorSettings.Keys + {id}
      && o.store[p].doorSettings[id].time == t
      && o.store[p].doorSettings[id].enabled == (id !in e.doorSettings || e.doorSettings[id].enabled)
      && (forall k :: k in e.doorSettings && k != id ==> o.store[p].doorSettings[k] == e.doorSettings[k])
  {
  }

  /** A valid `type <t>` stores `t` as the delay of the looked-at door's type override and nothing else. */
  lemma ValidTypeSetsOneDelay(cfg: Config, deployedToName: map<string, string>, s: Store, p: PlayerId,
                              t: real, hit: Option<Entity>)
    requires !cfg.usePermissions && InRange(cfg, t)
    requires var d := LookingDoor(deployedToName, hit); d.Some? && d.value.net.Some?
    ensures var o := Command(cfg, deployedToName, s, p, false, WithVerb(Type, Word(Some(t))), hit);
      var e := EnsureEntry(s, p, cfg)[p];
      var tag := hit.value.kind.prefab;
      && o.reply == TypeDelaySet(t)
      && o.store[p] == e.(typeSettings := o.store[p].typeSettings)
      && o.store[p].typeSettings.Keys == e.typeSettings.Keys + {tag}
      && o.store[p].typeSettings[tag].time == t
      && o.store[p].typeSettings[tag].enabled == (tag !in e.typeSettings || e.typeSettings[tag].enabled)
      && (forall k :: k in e.typeSettings && k != tag ==> o.store[p].typeSettings[k] == e.typeSettings[k])
  {
  }

  /** The bare command flips the global switch, reports the new state, and issued twice restores the entry. */
  lemma BareToggleFlips(cfg: Config, deployedToName: map<string, string>, s: Store, p: PlayerId, hit: Option<Entity>)
    requires !cfg.usePermissions
    ensures var o := Command(cfg, deployedToName, s, p, false, NoArgs, hit);
      var e := EnsureEntry(s, p, cfg)[p];
      && o.store == EnsureEntry(s, p, cfg)[p := e.(enabled := !e.enabled)]
      && o.reply == AutoDoorToggled(!e.enabled)
      && Command(cfg, deployedToName, o.store, p, false, NoArgs, hit).store == EnsureEntry(s, p, cfg)
  {
  }

  /**
   * The first bare `single` on a door creates its override enabled and then
   * flips it: the door ends up with a disabled override at the default delay.
   */
  lemma FirstSingleToggleDisables(cfg: Config, deployedToName: map<string, string>, s: Store, p: PlayerId,
                                  hit: Option<Entity>)
    requires !cfg.usePermissions
    requires var d := LookingDoor(deployedToName, hit); d.Some? && d.value.net.Some?
    requires p in s ==> hit.value.net.value !in s[p].doorSettings
    ensures var o := Command(cfg, deployedToName, s, p, false, WithVerb(Single, Absent), hit);
      && o.store[p].doorSettings[hit.value.net.value] == DoorSettings(false, cfg.defaultDelay)
      && o.reply == SingleToggled(false)
  {
  }

  /** The same for a bare `type`: the first toggle leaves the type disabled at the default delay. */
  lemma FirstTypeToggleDisables(cfg: Config, deployedToName: map<string, string>, s: Store, p: PlayerId,
                                hit: Option<Entity>)
    requires !cfg.usePermissions
    requires var d := LookingDoor(deployedToName, hit); d.Some? && d.value.net.Some?
    requires p in s ==> hit.value.kind.prefab !in s[p].typeSettings
    ensures var o := Command(cfg, deployedToName, s, p, false, WithVerb(Type, Absent), hit);
      && o.store[p].typeSettings[hit.value.kind.prefab] == DoorSettings(false, cfg.defaultDelay)
      && o.reply == TypeToggled(false)
  {
  }

  // ---------------------------------------------------------------------------
  // Commands followed by a door being opened
  // ---------------------------------------------------------------------------

  /**
   * After a valid `all <t>`, opening any door of the issuing player either
   * schedules nothing or schedules a close after exactly `t`.
   */
  lemma AllThenOpen(cfg: Config, deployedToName: map<string, string>, s: Store, p: PlayerId,
                    t: real, hit: Option<Entity>, door: Entity,
                    hasPermission: bool, controlled: bool, vetoed: bool)
    requires !cfg.usePermissions && InRange(cfg, t) && IsDoor(door)
    ensures var s' := Command(cfg, deployedToName, s, p, false, WithVerb(All, Word(Some(t))), hit).store;
      CloseDecision(cfg, deployedToName, s', door, p, hasPermission, controlled, vetoed) in {None, Some(t)}
  {
  }

  /**
   * After a first bare `type` on a door, opening any door of that type that has
   * no per-door override of its own schedules nothing.
   */
  lemma TypeToggleThenOpen(cfg: Config, deployedToName: map<string, string>, s: Store, p: PlayerId,
                           hit: Option<Entity>, door: Entity,
                           hasPermission: bool, controlled: bool, vetoed: bool)
    requires !cfg.usePermissions
    requires var d := LookingDoor(deployedToName, hit); d.Some? && d.value.net.Some?
    requires p in s ==> hit.value.kind.prefab !in s[p].typeSettings
    requires IsDoor(door) && door.kind.prefab == hit.value.kind.prefab && door.net.Some?
    requires p in s ==> door.net.value !in s[p].doorSettings
    ensures var s' := Command(cfg, deployedToName, s, p, false, WithVerb(Type, Absent), hit).store;
      CloseDecision(cfg, deployedToName, s', door, p, hasPermission, controlled, vetoed) == None
  {
  }

  /**
   * A refused `single <t>` is not harmless: it pins the looked-at door to an
   * enabled override at the default delay, which can turn a door the player had
   * disabled by type into one that closes.
   */
  lemma RefusedSingleCanEnableClosing()
    ensures var cfg := DEFAULT_CONFIG;
      var deployed := map["door.hinged.wood" := "Wooden Door"];
      var door := Entity(1, 7, Some(42), DoorKind("door.hinged.wood", true));
      var s := map[7 := PlayerEntry(true, 8.0, map[], map["door.hinged.wood" := DoorSettings(false, 8.0)])];
      var s' := Command(cfg, deployed, s, 7, true, WithVerb(Single, Word(Some(100.0))), Some(door));
      && s'.reply == DelayLimit
      && CloseDecision(cfg, deployed, s, door, 7, true, false, false) == None
      && CloseDecision(cfg, deployed, s'.store, door, 7, true, false, false) == Some(5.0)
  {
  }
}
