# Auto Doors — a verified model of the door auto-close core

Auto Doors is a game-server plugin that closes doors automatically some
seconds after they are opened. Each player has settings: a global switch and
delay, per-door overrides keyed by the door's network id, and per-type
overrides keyed by the door's short prefab name. This project models the
plugin's state and decisions in Dafny and proves what they do:

- the settings store and its operations (module `Settings`): lazy creation
  of an entry with the configured defaults, override creation, toggling and
  retiming, purging a destroyed door's id, wiping the per-door overrides on a
  world reset, and `ResolveDelay`, the precedence rule that picks the delay
  for one door;
- the game entities as values (module `Entities`): the filter on the door a
  player looks at (`LookingDoor`), the manipulator-exclusion test
  (`Controlled`), and what a fired close timer does (`FireCloses`, `Fire`);
- the door-opened decision (module `Decision`): the guard chain, then
  delay resolution, then the positivity and veto checks (`CloseDecision`);
- the chat command's effect on the store and its reply (module `Commands`:
  `Command` with `AllCommand`, `SingleCommand`, `TypeCommand` and `Adjust`);
- the plugin object itself (module `Controller`, class `AutoDoors`), with
  fields `config`, `initialized`, `deployedToName`, `doorManipulators` and
  `playerData`. Its hook methods and command methods update those fields
  with loops as the plugin does. Each is proved against the pure functions
  above. A client method, `ManipulatorScenario`, runs one sequence of hooks.
  While a manipulator targets a door, opening the door schedules nothing.
  After the manipulator is destroyed, the door closes after the default
  delay.

Delays are C# `float` values that are only stored and compared, so they are
`real` here. Player ids, net ids and entity identities are `nat`. An owner id
of 0 means "unowned".

The host's contributions are parameters:
- the permission service's answer (`hasPermission`);
- the `CanAutoDoorClose` hook's veto (`vetoed`);
- the entity hit by the player's raycast (`hit`);
- the parsed number after a verb (`Arg`);
- each live manipulator's current target door (`targets`; a destroyed
  manipulator, which the engine reports as null, has no entry);
- at timer-fire time, the door's current state and whether the player is
  dead.

Where the plugin's design description and this revision of the code differ,
the model follows the code:
- This revision keeps no table of pending timers. The close is scheduled
  fire-and-forget, and no handler cancels it when the door is closed or
  destroyed. The model therefore returns the scheduled delay (`OnDoorOpened`)
  and models the check made when the timer fires (`TimerCloses`, `Fire`).
  Timer replacement and cancellation are not modelled.
- There is no "allow unowned doors" option. A door with owner 0 never
  auto-closes.
- A `single` or `type` command whose number is out of range, or not a
  number, is not free of side effects. The looked-at door's override is
  created (enabled, default delay) before the number is checked
  (AutoDoors.cs:190-191, 224-225). `RefusedSingleCreatesOverride` states
  this. `RefusedSingleCanEnableClosing` shows a concrete store where such a
  refused command makes a door that was disabled by its type close after the
  default delay.

## Model

| member | source | states |
|---|---|---|
| `Settings.EnsureEntry` | AutoDoors.cs:121-129 | an existing entry is left as it is; a missing one is added with `defaultEnabled`, `defaultDelay` and empty override maps; no other player's entry changes |
| `Settings.EnsureEntryIdempotent` | AutoDoors.cs:121-129 | creating a player's entry twice gives the same store as creating it once |
| `Settings.EnsureOverride` | AutoDoors.cs:190-191 | an absent per-door or per-type override is created as `{enabled = true, time = defaultDelay}`; existing overrides are kept |
| `Settings.ToggleOverride` | AutoDoors.cs:195 | flips one override's `enabled`, keeps its `time` and every other override |
| `Settings.ToggleOverrideInvolution` | AutoDoors.cs:229 | toggling an override twice restores the map |
| `Settings.SetOverrideTime` | AutoDoors.cs:207 | sets one override's `time`, keeps its `enabled` and every other override |
| `Settings.Retimed` | AutoDoors.cs:171-174 | every override of a map gets delay `t`; keys and `enabled` flags are unchanged |
| `Settings.RetimedEntry` | AutoDoors.cs:170-174 | a valid `all t` sets the global delay and every per-door and per-type delay to `t`, changes no switch and adds or removes no key |
| `Settings.RetimeOverrides` | AutoDoors.cs:171-174 | the loop over an override map's keys produces `Retimed(m, t)` |
| `Settings.ForgetDoor` | AutoDoors.cs:66-72 | a destroyed door's net id leaves every player's per-door overrides; other ids, per-type overrides and global settings are unchanged |
| `Settings.ForgetDoorIdempotent` | AutoDoors.cs:69-71 | purging an id twice equals purging it once; purging and the world-reset wipe commute |
| `Settings.WipeDoorOverrides` | AutoDoors.cs:393-398 | every player's per-door override map becomes empty; `enabled`, `time` and per-type overrides survive |
| `Settings.GlobalSwitchGates` | AutoDoors.cs:89 | with the global switch off `ResolveDelay` gives no delay, whatever the overrides say |
| `Settings.DoorOverrideShadows` | AutoDoors.cs:90-94 | a per-door override decides alone: per-type overrides and the global delay cannot change the result, and a disabled one suppresses it |
| `Settings.TypeOverrideShadows` | AutoDoors.cs:95-99 | without a per-door override a per-type override decides alone over the global delay; a disabled one suppresses it |
| `Settings.GlobalDelayFallback` | AutoDoors.cs:100 | with neither override the global delay applies |
| `Settings.ResolvedDelayIsStored` | AutoDoors.cs:86-100 | a resolved delay is the enabled, most specific stored setting: the matching per-door override, else the per-type one, else the global delay |
| `Settings.RetimedResolvesToTime` | AutoDoors.cs:170-174 | after retiming with `t` every door resolves to nothing or to exactly `t` |
| `Entities.LookingDoor` | AutoDoors.cs:135-141 | the targeted entity is returned exactly when it is a door with an owner and a recognised type |
| `Entities.Fire` | AutoDoors.cs:106-109 | a fired timer keeps the door's existence and identity; the door is left open only if it was open and the player was dead with `cancelOnKill` on |
| `Entities.FireChangesOnlyWhenCloses` | AutoDoors.cs:106-108 | a fired timer changes the door exactly when the fire check passes, and then only clears its open flag |
| `Entities.FireIdempotent` | AutoDoors.cs:106-108 | firing a second time has no further effect |
| `Entities.ControlledAfterRemoval` | AutoDoors.cs:113-119 | once the only manipulator targeting a door stops being tracked, the door counts as uncontrolled |
| `Decision.EntryFor` | AutoDoors.cs:87-88 | the decision reads the player's own entry, or a fresh default entry when there is none |
| `Decision.CloseDecision` | AutoDoors.cs:79-104 | a scheduled delay is positive and comes only after every guard passed and no listener vetoed |
| `Decision.ScheduledIff` | AutoDoors.cs:79-104 | a close is scheduled if and only if the guards pass, no veto, and the resolved delay is positive; the delay is then the resolved one |
| `Decision.NoCloseWhenGuardFails` | AutoDoors.cs:81-84 | unowned, closed, non-networked or unrecognised doors, a missing permission, a targeting manipulator under `excludeDoorController`, or a veto schedule nothing |
| `Decision.NoCloseForNonPositiveDelay` | AutoDoors.cs:102 | a resolved delay of 0 or below schedules nothing |
| `Decision.DisabledDoorOverrideNeverCloses` | AutoDoors.cs:90-92 | a disabled per-door override keeps the door open for every choice of per-type overrides and global delay |
| `Decision.NewPlayerUsesDefaults` | AutoDoors.cs:86-100 | a player without an entry is decided by `defaultEnabled` and `defaultDelay` |
| `Commands.Adjust` | AutoDoors.cs:190-212 | `single`/`type` first create the override if absent; a bare verb flips it, an in-range number sets its delay, any other argument leaves the created override; other keys are kept |
| `Commands.DeniedChangesNothing` | AutoDoors.cs:148-152 | without the use permission (permissions on) the command changes nothing and replies "not allowed" |
| `Commands.OnlyIssuerChanges` | AutoDoors.cs:153-249 | a command touches only the issuing player's entry, adding at most that key |
| `Commands.OutOfRangeKeepsSettings` | AutoDoors.cs:168-177 | for `all`, `single` and `type`, a delay outside `[minimumDelay, maximumDelay]` changes no stored switch or delay; the reply is the limit message, "no door found" or "not allowed" |
| `Commands.RefusedSingleCreatesOverride` | AutoDoors.cs:190-210 | a refused `single t` leaves exactly the store in which the looked-at door's override is created with the defaults |
| `Commands.ValidAllRetimesEverything` | AutoDoors.cs:166-175 | a valid `all t` sets the global and every override's delay to `t`, keeps all switches and keys, and replies with `t` |
| `Commands.ValidSingleSetsOneDelay` | AutoDoors.cs:203-209 | a valid `single t` stores `t` as that door's override delay and changes nothing else of the entry |
| `Commands.ValidTypeSetsOneDelay` | AutoDoors.cs:238-244 | a valid `type t` stores `t` as that type's override delay and changes nothing else of the entry |
| `Commands.BareToggleFlips` | AutoDoors.cs:154-159 | the bare command flips the global switch and reports the new state; issued twice it restores the entry |
| `Commands.FirstSingleToggleDisables` | AutoDoors.cs:190-197 | the first bare `single` on a door leaves its override `{enabled = false, time = defaultDelay}` |
| `Commands.FirstTypeToggleDisables` | AutoDoors.cs:224-232 | the first bare `type` on a door leaves its type override `{enabled = false, time = defaultDelay}` |
| `Commands.AllThenOpen` | AutoDoors.cs:170-174 | after a valid `all t`, opening any door schedules nothing or a close after exactly `t` |
| `Commands.TypeToggleThenOpen` | AutoDoors.cs:224-229 | after a first bare `type`, no door of that type without its own per-door override is closed |
| `Commands.RefusedSingleCanEnableClosing` | AutoDoors.cs:190-210 | a concrete store where a refused `single 100` turns a door that was disabled by type into one that closes after the default delay |
| `Controller.AutoDoors.constructor` | AutoDoors.cs:19-24 | the loaded plugin holds the loaded data, no manipulators, no recognised types, not initialised |
| `Controller.AutoDoors.OnServerInitialized` | AutoDoors.cs:26-32 | sets the recognised types, marks the plugin initialised, and tracks every existing owned manipulator |
| `Controller.AutoDoors.OnEntitySpawned` | AutoDoors.cs:52-56 | a manipulator is added only when the plugin is initialised and the manipulator owned |
| `Controller.AutoDoors.OnEntityKill` | AutoDoors.cs:58-73 | for owned, networked entities: a manipulator is removed from the set; a door's id is purged from every player (`ForgetDoor`); anything else changes nothing |
| `Controller.AutoDoors.OnNewSave` | AutoDoors.cs:393-398 | the loop over all players leaves `WipeDoorOverrides` of the old store |
| `Controller.AutoDoors.CreatePlayerData` | AutoDoors.cs:121-129 | the store becomes `EnsureEntry` of the old store |
| `Controller.AutoDoors.HaveDoorController` | AutoDoors.cs:113-119 | the search returns true exactly when some tracked manipulator targets the door |
| `Controller.AutoDoors.OnDoorOpened` | AutoDoors.cs:79-111 | returns `CloseDecision` for the current state; the entry is created exactly when the first four guards pass |
| `Controller.AutoDoors.TimerCloses` | AutoDoors.cs:106-107 | a fired timer closes the door exactly when it still exists and is open and not (`cancelOnKill` and the player is dead) |
| `Controller.AutoDoors.CmdAutoDoor` | AutoDoors.cs:146-264 | the new store and the reply are those of `Command` |
| `Controller.AutoDoors.CmdAll` | AutoDoors.cs:163-180 | the `all` branch, with its two loops, yields `AllCommand` |
| `Controller.AutoDoors.CmdSingle` | AutoDoors.cs:182-214 | the `single` branch yields `SingleCommand` |
| `Controller.AutoDoors.CmdType` | AutoDoors.cs:216-249 | the `type` branch yields `TypeCommand` |

## Left out

- Host timer scheduling (`timer.Once`, AutoDoors.cs:104) and the randomised save delay (AutoDoors.cs:75). Real time is not modelled: `OnDoorOpened` returns the delay, and `TimerCloses`/`Fire` model the check made when the timer fires.
- JSON persistence: `LoadConfig`, `LoadDefaultConfig`, `SaveConfig`, `LoadData`, `SaveData`, `ClearData`, and the saves at unload, at server save and after `OnNewSave` (AutoDoors.cs:75-77, 323-391, 397). These are file I/O through the host. The configuration enters as a constructor argument, and `DEFAULT_CONFIG` holds the defaults of AutoDoors.cs:272-305.
- `UpdateConfig` (AutoDoors.cs:34-50) walks engine item and prefab definitions. `OnServerInitialized` takes its result, the type-to-name map, as a parameter.
- The physics raycast in `GetLookingDoor` (AutoDoors.cs:133-135). The entity hit is an input, and only the owner/type filter is modelled (`LookingDoor`).
- Permission registration and lookup, and the `CanAutoDoorClose` hook: the lookup result and the veto are boolean inputs. The hook is consulted only after a positive delay is resolved, and the model keeps that order.
- Chat output, localisation and the help text (AutoDoors.cs:251-261, 404-454). A reply is the message kind with its numbers; display names and colours are dropped.
- Chat-argument parsing: lower-casing the verb, matching `a|all`, `s|single`, `t|type`, `h|help`, and `float.TryParse`. The verb arrives as a `Verb`, and the delay as `Absent` or `Word(parsed)`.
- Null checks on `door`, `player` and the spawned manipulator. The engine never passes a null entity, so these inputs are plain values. Manipulators that are null while still in the set are covered: `targets` has no entry for them.
- The hook typing: `OnDoorOpened` requires a door and `OnEntitySpawned` a manipulator, because those hooks are only called with those entity types.
- Floating point: NaN, infinities and rounding of `float` delays are not modelled. A parsed NaN, which every comparison in the range check rejects, has no counterpart among the reals.
- `Controller.AutoDoors.OnEntityKill`, `OnNewSave`, `CreatePlayerData`, `OnDoorOpened` and the command methods take the store as a value map that they reassign. In the source the per-player entries are objects updated in place. No entry object is shared between two keys, so the observable result is the same.
