/**
 * The settings store (app/stores/settings.ts): three skin names and two
 * switches. Every action changes one field and then persists a snapshot of the
 * whole state; loading patches the state with whatever fields were persisted.
 */
module AppSettings {
  import opened Wrappers

  /** The store's state, the `Settings` interface. */
  datatype Settings = Settings(diceSkin: string, cupSkin: string, environmentSkin: string, soundEnabled: bool, hapticsEnabled: bool)

  const DefaultSkin: string := "default"

  /** All skins `'default'`, sound and haptics on. */
  const InitialSettings: Settings := Settings(DefaultSkin, DefaultSkin, DefaultSkin, true, true)

  /** A persisted object as `$patch` sees it: each field may be present or absent. */
  datatype SettingsPatch = SettingsPatch(
    diceSkin: Option<string>,
    cupSkin: Option<string>,
    environmentSkin: Option<string>,
    soundEnabled: Option<bool>,
    hapticsEnabled: Option<bool>)

  /** What `saveToLocalStorage` writes: the whole state, every field present. */
  function Snapshot(s: Settings): (p: SettingsPatch)
    ensures p.diceSkin.Some? && p.cupSkin.Some? && p.environmentSkin.Some?
    ensures p.soundEnabled.Some? && p.hapticsEnabled.Some?
  {
    SettingsPatch(Some(s.diceSkin), Some(s.cupSkin), Some(s.environmentSkin), Some(s.soundEnabled), Some(s.hapticsEnabled))
  }

  /** `$patch(p)`: the present fields overwrite, the absent ones stay. */
  function ApplyPatch(s: Settings, p: SettingsPatch): (r: Settings)
    ensures r.diceSkin == (if p.diceSkin.Some? then p.diceSkin.value else s.diceSkin)
    ensures r.cupSkin == (if p.cupSkin.Some? then p.cupSkin.value else s.cupSkin)
    ensures r.environmentSkin == (if p.environmentSkin.Some? then p.environmentSkin.value else s.environmentSkin)
    ensures r.soundEnabled == (if p.soundEnabled.Some? then p.soundEnabled.value else s.soundEnabled)
    ensures r.hapticsEnabled == (if p.hapticsEnabled.Some? then p.hapticsEnabled.value else s.hapticsEnabled)
  {
    Settings(
      match p.diceSkin case Some(v) => v case None => s.diceSkin,
      match p.cupSkin case Some(v) => v case None => s.cupSkin,
      match p.environmentSkin case Some(v) => v case None => s.environmentSkin,
      match p.soundEnabled case Some(v) => v case None => s.soundEnabled,
      match p.hapticsEnabled case Some(v) => v case None => s.hapticsEnabled)
  }

  /**
   * Loading a saved snapshot reproduces the saved state, whatever the state
   * was before; loading the current state's snapshot changes nothing; and a
   * patch applied twice has the effect of applying it once.
   */
  lemma SnapshotRoundTrip(s: Settings, t: Settings, p: SettingsPatch)
    ensures ApplyPatch(s, Snapshot(t)) == t
    ensures ApplyPatch(s, Snapshot(s)) == s
    ensures ApplyPatch(ApplyPatch(s, p), p) == ApplyPatch(s, p)
  {
  }

  /** The Pinia store; `stored` is the `diceRollerSettings` entry of the browser's storage. */
  class SettingsStore {
    var state: Settings
    var stored: Option<SettingsPatch>

    /** A fresh store with the defaults, over whatever the storage already holds. */
    constructor (stored: Option<SettingsPatch>)
      ensures state == InitialSettings && this.stored == stored
    {
      state := InitialSettings;
      this.stored := stored;
    }

    /** `saveToLocalStorage`: persist the whole state. */
    method SaveToLocalStorage()
      modifies this
      ensures state == old(state) && stored == Some(Snapshot(state))
    {
      stored := Some(Snapshot(state));
    }

    /** `setDiceSkin`. */
    method SetDiceSkin(skin: string)
      modifies this
      ensures state == old(state).(diceSkin := skin)
      ensures stored == Some(Snapshot(state))
    {
      state := state.(diceSkin := skin);
      SaveToLocalStorage();
    }

    /** `setCupSkin`. */
    method SetCupSkin(skin: string)
      modifies this
      ensures state == old(state).(cupSkin := skin)
      ensures stored == Some(Snapshot(state))
    {
      state := state.(cupSkin := skin);
      SaveToLocalStorage();
    }

    /** `setEnvironmentSkin`. */
    method SetEnvironmentSkin(skin: string)
      modifies this
      ensures state == old(state).(environmentSkin := skin)
      ensures stored == Some(Snapshot(state))
    {
      state := state.(environmentSkin := skin);
      SaveToLocalStorage();
    }

    /** `toggleSound`: a second call restores the previous state. */
    method ToggleSound()
      modifies this
      ensures state == old(state).(soundEnabled := !old(state).soundEnabled)
      ensures stored == Some(Snapshot(state))
    {
      state := state.(soundEnabled := !state.soundEnabled);
      SaveToLocalStorage();
    }

    /** `toggleHaptics`: a second call restores the previous state. */
    method ToggleHaptics()
      modifies this
      ensures state == old(state).(hapticsEnabled := !old(state).hapticsEnabled)
      ensures stored == Some(Snapshot(state))
    {
      state := state.(hapticsEnabled := !state.hapticsEnabled);
      SaveToLocalStorage();
    }

    /** `loadFromLocalStorage`: patch the state with the stored entry when there is one. */
    method LoadFromLocalStorage()
      modifies this
      ensures stored == old(stored)
      ensures state == if stored.Some? then ApplyPatch(old(state), stored.value) else old(state)
    {
      if stored.Some? {
        state := ApplyPatch(state, stored.value);
      }
    }
  }

  /** Toggling sound twice, or haptics twice, leaves the store as it was apart from the snapshot. */
  method ToggleTwiceRestores(store: SettingsStore)
    modifies store
    ensures store.state == old(store.state)
    ensures store.stored == Some(Snapshot(old(store.state)))
  {
    store.ToggleSound();
    store.ToggleSound();
    store.ToggleHaptics();
    store.ToggleHaptics();
  }
}
