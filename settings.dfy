/**
 * The per-player auto-close settings store of the Auto Doors plugin and the
 * pure operations on it: lazy creation of an entry, per-door and per-type
 * overrides, retiming, purging a door id, wiping the per-door overrides, and
 * the resolution of the delay that applies to one door.
 */
module Settings {
  import opened Wrappers

  /** A player's account id (C# `ulong`); the value 0 stands for "no owner". */
  type PlayerId = nat
  /** A networked entity's id (C# `uint`), used as the key of per-door overrides. */
  type NetId = nat

  /** An override for one door id or one door type. */
  datatype DoorSettings = DoorSettings(enabled: bool, time: real)

  /** One player's settings: the global switch and delay, and the two override maps. */
  datatype PlayerEntry = PlayerEntry(
    enabled: bool,
    time: real,
    doorSettings: map<NetId, DoorSettings>,
    typeSettings: map<string, DoorSettings>)

  /** The data file: one entry per player id. */
  type Store = map<PlayerId, PlayerEntry>

  /** The policy part of the configuration file (chat settings and display names left out). */
  datatype Config = Config(
    usePermissions: bool,
    excludeDoorController: bool,
    cancelOnKill: bool,
    defaultEnabled: bool,
    defaultDelay: real,
    maximumDelay: real,
    minimumDelay: real)

  /** The values a fresh configuration file holds. */
  const DEFAULT_CONFIG := Config(false, true, false, true, 5.0, 10.0, 5.0)

  /** The inclusive range check every delay-setting command applies. */
  predicate InRange(cfg: Config, t: real) {
    t <= cfg.maximumDelay && t >= cfg.minimumDelay
  }

  /** The entry a player gets on first interaction. */
  function NewEntry(cfg: Config): PlayerEntry {
    PlayerEntry(cfg.defaultEnabled, cfg.defaultDelay, map[], map[])
  }

  /** The store after making sure player `p` has an entry. */
  function EnsureEntry(s: Store, p: PlayerId, cfg: Config): (r: Store)
    ensures r.Keys == s.Keys + {p}
    ensures p in s ==> r == s
    ensures p !in s ==> r[p].enabled == cfg.defaultEnabled && r[p].time == cfg.defaultDelay
    ensures p !in s ==> r[p].doorSettings == map[] && r[p].typeSettings == map[]
    ensures forall q :: q in s ==> r[q] == s[q]
  {
    if p in s then s else s[p := NewEntry(cfg)]
  }

  /** An override map after making sure key `k` has an override, enabled with the default delay. */
  function EnsureOverride<K>(m: map<K, DoorSettings>, k: K, defaultDelay: real): (r: map<K, DoorSettings>)
    ensures r.Keys == m.Keys + {k}
    ensures k !in m ==> r[k].enabled && r[k].time == defaultDelay
    ensures forall j :: j in m ==> r[j] == m[j]
  {
    if k in m then m else m[k := DoorSettings(true, defaultDelay)]
  }

  /** An override map with the `enabled` flag of key `k` flipped. */
  function ToggleOverride<K>(m: map<K, DoorSettings>, k: K): (r: map<K, DoorSettings>)
    requires k in m
    ensures r.Keys == m.Keys
    ensures r[k].enabled != m[k].enabled && r[k].time == m[k].time
    ensures forall j :: j in m && j != k ==> r[j] == m[j]
  {
    m[k := m[k].(enabled := !m[k].enabled)]
  }

  /** An override map with the delay of key `k` replaced by `t`. */
  function SetOverrideTime<K>(m: map<K, DoorSettings>, k: K, t: real): (r: map<K, DoorSettings>)
    requires k in m
    ensures r.Keys == m.Keys
    ensures r[k].time == t && r[k].enabled == m[k].enabled
    ensures forall j :: j in m && j != k ==> r[j] == m[j]
  {
    m[k := m[k].(time := t)]
  }

  /** An override map in which every override has delay `t`. */
  function Retimed<K>(m: map<K, DoorSettings>, t: real): (r: map<K, DoorSettings>)
    ensures r.Keys == m.Keys
    ensures forall k :: k in r ==> r[k].time == t && r[k].enabled == m[k].enabled
  {
    map k | k in m :: m[k].(time := t)
  }

  /** A player entry after a valid `all <t>`: the global delay and every override's delay become `t`. */
  function RetimedEntry(e: PlayerEntry, t: real): (r: PlayerEntry)
    ensures r.enabled == e.enabled && r.time == t
    ensures r.doorSettings.Keys == e.doorSettings.Keys && r.typeSettings.Keys == e.typeSettings.Keys
    ensures forall k :: k in r.doorSettings ==>
      r.doorSettings[k].time == t && r.doorSettings[k].enabled == e.doorSettings[k].enabled
    ensures forall k :: k in r.typeSettings ==>
      r.typeSettings[k].time == t && r.typeSettings[k].enabled == e.typeSettings[k].enabled
  {
    PlayerEntry(e.enabled, t, Retimed(e.doorSettings, t), Retimed(e.typeSettings, t))
  }

  /** Imperative counterpart of `Retimed`: the loop over the keys of one override map. */
  method RetimeOverrides<K>(m: map<K, DoorSettings>, t: real) returns (r: map<K, DoorSettings>)
    ensures r == Retimed(m, t)
  {
    r := m;
    var pending := m.Keys;
    while pending != {}
      invariant pending <= m.Keys
      invariant r.Keys == m.Keys
      invariant forall k :: k in m && k !in pending ==> r[k] == m[k].(time := t)
      invariant forall k :: k in pending ==> r[k] == m[k]
      decreases pending
    {
      var k :| k in pending;
      r := r[k := r[k].(time := t)];
      pending := pending - {k};
    }
  }

  /** The store after a door with net id `id` is destroyed: that id leaves every player's per-door overrides. */
  function ForgetDoor(s: Store, id: NetId): (r: Store)
    ensures r.Keys == s.Keys
    ensures forall p :: p in r ==>
      && r[p].doorSettings.Keys == s[p].doorSettings.Keys - {id}
      && (forall k :: k in r[p].doorSettings ==> r[p].doorSettings[k] == s[p].doorSettings[k])
      && r[p].typeSettings == s[p].typeSettings
      && r[p].enabled == s[p].enabled && r[p].time == s[p].time
  {
    map p | p in s :: s[p].(doorSettings := s[p].doorSettings - {id})
  }

  /** The store after a world reset: no player keeps any per-door override. */
  function WipeDoorOverrides(s: Store): (r: Store)
    ensures r.Keys == s.Keys
    ensures forall p :: p in r ==>
      && r[p].doorSettings == map[]
      && r[p].typeSettings == s[p].typeSettings
      && r[p].enabled == s[p].enabled && r[p].time == s[p].time
  {
    map p | p in s :: s[p].(doorSettings := map[])
  }

  /** What one matching override contributes: its delay, or nothing when it is disabled. */
  function OverrideDelay(o: DoorSettings): Option<real> {
    if o.enabled then Some(o.time) else None
  }

  /**
   * The delay that applies to door `id` of type `prefab` for a player: the global
   * switch first, then a per-door override, then a per-type override, then the
   * global delay. `None` means that nothing is scheduled.
   */
  function ResolveDelay(e: PlayerEntry, id: NetId, prefab: string): Option<real> {
    if !e.enabled then None
    else if id in e.doorSettings then OverrideDelay(e.doorSettings[id])
    else if prefab in e.typeSettings then OverrideDelay(e.typeSettings[prefab])
    else Some(e.time)
  }

  // ---------------------------------------------------------------------------
  // Properties of the store operations
  // ---------------------------------------------------------------------------

  /** Creating a player's entry twice is the same as creating it once. */
  lemma EnsureEntryIdempotent(s: Store, p: PlayerId, cfg: Config)
    ensures EnsureEntry(EnsureEntry(s, p, cfg), p, cfg) == EnsureEntry(s, p, cfg)
    ensures EnsureEntry(s, p, cfg)[p] == if p in s then s[p] else NewEntry(cfg)
  {
  }

  /** Flipping one override twice gives back the map one started from. */
  lemma ToggleOverrideInvolution<K>(m: map<K, DoorSettings>, k: K)
    requires k in m
    ensures ToggleOverride(ToggleOverride(m, k), k) == m
  {
  }

  /** Purging a door id twice purges it once; purging commutes with the world-reset wipe. */
  lemma ForgetDoorIdempotent(s: Store, id: NetId)
    ensures ForgetDoor(ForgetDoor(s, id), id) == ForgetDoor(s, id)
    ensures ForgetDoor(WipeDoorOverrides(s), id) == WipeDoorOverrides(s)
    ensures WipeDoorOverrides(ForgetDoor(s, id)) == WipeDoorOverrides(s)
  {
    var once := ForgetDoor(s, id);
    forall p | p in s
      ensures ForgetDoor(once, id)[p] == once[p]
    {
      assert once[p].doorSettings - {id} == once[p].doorSettings;
    }
    assert ForgetDoor(WipeDoorOverrides(s), id) == WipeDoorOverrides(s);
  }

  // ---------------------------------------------------------------------------
  // Precedence of delay resolution
  // ---------------------------------------------------------------------------

  /** With the player's global switch off nothing is scheduled, whatever the overrides and the delay say. */
  lemma GlobalSwitchGates(e: PlayerEntry, id: NetId, prefab: string)
    requires !e.enabled
    ensures ResolveDelay(e, id, prefab) == None
  {
  }

  /**
   * A per-door override decides alone: neither the per-type overrides nor the
   * global delay can change the result, and a disabled one suppresses the close.
   */
  lemma DoorOverrideShadows(e: PlayerEntry, id: NetId, prefab: string,
                            otherTypes: map<string, DoorSettings>, otherTime: real)
    requires e.enabled && id in e.doorSettings
    ensures ResolveDelay(e.(typeSettings := otherTypes, time := otherTime), id, prefab)
         == ResolveDelay(e, id, prefab)
    ensures ResolveDelay(e, id, prefab).Some? <==> e.doorSettings[id].enabled
    ensures ResolveDelay(e, id, prefab).Some? ==> ResolveDelay(e, id, prefab).value == e.doorSettings[id].time
  {
  }

  /**
   * Without a per-door override a per-type override decides alone: the global
   * delay cannot change the result, and a disabled one suppresses the close.
   */
  lemma TypeOverrideShadows(e: PlayerEntry, id: NetId, prefab: string, otherTime: real)
    requires e.enabled && id !in e.doorSettings && prefab in e.typeSettings
    ensures ResolveDelay(e.(time := otherTime), id, prefab) == ResolveDelay(e, id, prefab)
    ensures ResolveDelay(e, id, prefab).Some? <==> e.typeSettings[prefab].enabled
    ensures ResolveDelay(e, id, prefab).Some? ==> ResolveDelay(e, id, prefab).value == e.typeSettings[prefab].time
  {
  }

  /** With neither override the global delay applies. */
  lemma GlobalDelayFallback(e: PlayerEntry, id: NetId, prefab: string)
    requires e.enabled && id !in e.doorSettings && prefab !in e.typeSettings
    ensures ResolveDelay(e, id, prefab) == Some(e.time)
  {
  }

  /** Whatever delay is resolved is one the player stored: the global one or a matching override's. */
  lemma ResolvedDelayIsStored(e: PlayerEntry, id: NetId, prefab: string)
    requires ResolveDelay(e, id, prefab).Some?
    ensures e.enabled
    ensures var t := ResolveDelay(e, id, prefab).value;
      || (id in e.doorSettings && e.doorSettings[id] == DoorSettings(true, t))
      || (id !in e.doorSettings && prefab in e.typeSettings && e.typeSettings[prefab] == DoorSettings(true, t))
      || (id !in e.doorSettings && prefab !in e.typeSettings && e.time == t)
  {
  }

  /** After a valid `all <t>` every door resolves either to nothing or to exactly `t`. */
  lemma RetimedResolvesToTime(e: PlayerEntry, t: real, id: NetId, prefab: string)
    ensures ResolveDelay(RetimedEntry(e, t), id, prefab) in {None, Some(t)}
  {
  }
}
