/**
 * The `chromeStorage` helper (src/utils/chromeStorage.ts): typed reads and
 * writes of three keys of the extension's local storage, plus the preset
 * operations built on them.
 *
 * The storage area is a map field that the methods reassign.  The awaits
 * become plain sequencing.  `DEFAULT_SETTINGS` and `DEFAULT_PRESETS` are not
 * defined in the files this model covers, so they are constructor
 * arguments.  `JSON.parse` and `Date.now()` happen outside:
 * `importPreset` gets the parse outcome and the clock reading.
 * `exportPreset` returns the preset that `JSON.stringify` would render.
 */
module ChromeStorage {
  import opened Wrappers
  import opened Types
  import opened PresetList
  import Helpers

  /** Lines 1-5. */
  const SettingsKey := "audioSettings"
  const PresetsKey := "audioPresets"
  const ActiveKey := "activePreset"

  /** A stored value; `ActiveValue(None)` is a stored `null`. */
  datatype Stored =
    | SettingsValue(settings: AudioSettings)
    | PresetsValue(presets: seq<Preset>)
    | ActiveValue(active: Option<string>)

  /** Lines 7-11, `StorageMap`: each key, when present, holds its own type. */
  predicate WellTyped(m: map<string, Stored>)
  {
    (SettingsKey in m ==> m[SettingsKey].SettingsValue?)
    && (PresetsKey in m ==> m[PresetsKey].PresetsValue?)
    && (ActiveKey in m ==> m[ActiveKey].ActiveValue?)
  }

  /** Line 17: the stored settings, or the default when the key is absent. */
  function SettingsIn(m: map<string, Stored>, defaults: AudioSettings): (r: AudioSettings)
    requires WellTyped(m)
    ensures SettingsKey !in m ==> r == defaults
    ensures SettingsKey in m ==> SettingsValue(r) == m[SettingsKey]
  {
    if SettingsKey in m then m[SettingsKey].settings else defaults
  }

  /** Line 29: the stored presets, or the default list when the key is absent. */
  function PresetsIn(m: map<string, Stored>, defaults: seq<Preset>): (r: seq<Preset>)
    requires WellTyped(m)
    ensures PresetsKey !in m ==> r == defaults
    ensures PresetsKey in m ==> PresetsValue(r) == m[PresetsKey]
  {
    if PresetsKey in m then m[PresetsKey].presets else defaults
  }

  /** Line 52: the stored active preset id, or `null` when the key is absent. */
  function ActiveIn(m: map<string, Stored>): (r: Option<string>)
    requires WellTyped(m)
    ensures ActiveKey !in m ==> r.None?
    ensures ActiveKey in m ==> ActiveValue(r) == m[ActiveKey]
  {
    if ActiveKey in m then m[ActiveKey].active else None
  }

  /** Lines 61-70: the preset with the id, or the error raised when there is none. */
  function Exported(ps: seq<Preset>, id: string): (r: Result<Preset>)
    ensures r.Err? <==> forall i :: 0 <= i < |ps| ==> ps[i].id != id
    ensures r.Err? ==> r.error == "Preset not found"
    ensures r.Ok? ==> r.value in ps && r.value.id == id
  {
    match Find(ps, id)
    case None => Err("Preset not found")
    case Some(p) => Ok(p)
  }

  /** `Partial<Preset>` as far as `importPreset` looks at it. */
  datatype Draft = Draft(name: Option<string>, settings: Option<PresetSettings>)

  /** Line 81, `custom-${Date.now()}`. */
  function FreshId(now: int): string
  {
    "custom-" + Helpers.IntText(now)
  }

  /** Ids made at different times differ. */
  lemma FreshIdsDiffer(t1: int, t2: int)
    requires t1 != t2
    ensures FreshId(t1) != FreshId(t2)
  {
    Helpers.IntTextRoundTrip(t1);
    Helpers.IntTextRoundTrip(t2);
    assert FreshId(t1)[7..] == Helpers.IntText(t1);
    assert FreshId(t2)[7..] == Helpers.IntText(t2);
  }

  /**
   * Lines 72-83: a parse error propagates; a draft without a non-empty name
   * or without settings is refused; otherwise the preset gets a fresh id
   * and `isCustom: true`.
   */
  function Imported(parsed: Result<Draft>, now: int): (r: Result<Preset>)
    ensures r.Err? <==> (parsed.Err? || parsed.value.name.None? || parsed.value.name.value == ""
                         || parsed.value.settings.None?)
    ensures parsed.Err? ==> r == Err(parsed.error)
    ensures parsed.Ok? && r.Err? ==> r.error == "Invalid preset format"
    ensures r.Ok? ==> (r.value.id == FreshId(now) && r.value.isCustom
                       && Some(r.value.name) == parsed.value.name && Some(r.value.settings) == parsed.value.settings)
  {
    match parsed
    case Err(e) => Err(e)
    case Ok(d) =>
      if d.name.None? || d.name.value == "" || d.settings.None? then Err("Invalid preset format")
      else Ok(Preset(FreshId(now), d.name.value, d.settings.value, true))
  }

  class Storage {
    var storage: map<string, Stored>
    const defaultSettings: AudioSettings
    const defaultPresets: seq<Preset>

    predicate Valid()
      reads this
    {
      WellTyped(storage)
    }

    constructor (initial: map<string, Stored>, defaultSettings: AudioSettings, defaultPresets: seq<Preset>)
      requires WellTyped(initial)
      ensures Valid() && storage == initial
      ensures this.defaultSettings == defaultSettings && this.defaultPresets == defaultPresets
    {
      storage := initial;
      this.defaultSettings, this.defaultPresets := defaultSettings, defaultPresets;
    }

    /** Lines 14-18. */
    method GetSettings() returns (r: AudioSettings)
      requires Valid()
      ensures r == SettingsIn(storage, defaultSettings)
    {
      r := if SettingsKey in storage then storage[SettingsKey].settings else defaultSettings;
    }

    /** Lines 20-24. */
    method SetSettings(settings: AudioSettings)
      requires Valid()
      modifies this
      ensures Valid() && storage == old(storage)[SettingsKey := SettingsValue(settings)]
    {
      storage := storage[SettingsKey := SettingsValue(settings)];
    }

    /** Lines 26-30. */
    method GetPresets() returns (r: seq<Preset>)
      requires Valid()
      ensures r == PresetsIn(storage, defaultPresets)
    {
      r := if PresetsKey in storage then storage[PresetsKey].presets else defaultPresets;
    }

    /** Lines 32-36. */
    method SetPresets(presets: seq<Preset>)
      requires Valid()
      modifies this
      ensures Valid() && storage == old(storage)[PresetsKey := PresetsValue(presets)]
    {
      storage := storage[PresetsKey := PresetsValue(presets)];
    }

    /** Lines 38-42: replaces any preset with the same id and appends `preset`. */
    method AddPreset(preset: Preset)
      requires Valid()
      modifies this
      ensures Valid()
      ensures storage == old(storage)[PresetsKey := PresetsValue(Added(PresetsIn(old(storage), defaultPresets), preset))]
    {
      var presets := GetPresets();
      SetPresets(Without(presets, preset.id) + [preset]);
    }

    /** Lines 44-47. */
    method DeletePreset(id: string)
      requires Valid()
      modifies this
      ensures Valid()
      ensures storage == old(storage)[PresetsKey := PresetsValue(Without(PresetsIn(old(storage), defaultPresets), id))]
    {
      var presets := GetPresets();
      SetPresets(Without(presets, id));
    }

    /** Lines 49-53. */
    method GetActivePreset() returns (r: Option<string>)
      requires Valid()
      ensures r == ActiveIn(storage)
    {
      r := if ActiveKey in storage then storage[ActiveKey].active else None;
    }

    /** Lines 55-59. */
    method SetActivePreset(id: Option<string>)
      requires Valid()
      modifies this
      ensures Valid() && storage == old(storage)[ActiveKey := ActiveValue(id)]
    {
      storage := storage[ActiveKey := ActiveValue(id)];
    }

    /** Lines 61-70. */
    method ExportPreset(id: string) returns (r: Result<Preset>)
      requires Valid()
      ensures r == Exported(PresetsIn(storage, defaultPresets), id)
    {
      var presets := GetPresets();
      var found := Find(presets, id);
      if found.None? {
        return Err("Preset not found");
      }
      r := Ok(found.value);
    }

    /** Lines 72-87: on success the new preset is added; on failure storage is untouched. */
    method ImportPreset(parsed: Result<Draft>, now: int) returns (r: Result<Preset>)
      requires Valid()
      modifies this
      ensures Valid() && r == Imported(parsed, now)
      ensures r.Ok? ==> storage == old(storage)[PresetsKey := PresetsValue(Added(PresetsIn(old(storage), defaultPresets), r.value))]
      ensures r.Err? ==> storage == old(storage)
    {
      if parsed.Err? {
        return Err(parsed.error);
      }
      var d := parsed.value;
      if d.name.None? || d.name.value == "" || d.settings.None? {
        return Err("Invalid preset format");
      }
      var preset := Preset(FreshId(now), d.name.value, d.settings.value, true);
      AddPreset(preset);
      r := Ok(preset);
    }
  }

  // ---------------------------------------------------------------------
  // Properties

  /** A write is read back by its own getter and leaves the other two keys' readings alone. */
  lemma WriteThenRead(m: map<string, Stored>, ds: AudioSettings, dp: seq<Preset>,
                      s: AudioSettings, ps: seq<Preset>, a: Option<string>)
    requires WellTyped(m)
    ensures var m1 := m[SettingsKey := SettingsValue(s)];
      WellTyped(m1) && SettingsIn(m1, ds) == s && PresetsIn(m1, dp) == PresetsIn(m, dp) && ActiveIn(m1) == ActiveIn(m)
    ensures var m2 := m[PresetsKey := PresetsValue(ps)];
      WellTyped(m2) && PresetsIn(m2, dp) == ps && SettingsIn(m2, ds) == SettingsIn(m, ds) && ActiveIn(m2) == ActiveIn(m)
    ensures var m3 := m[ActiveKey := ActiveValue(a)];
      WellTyped(m3) && ActiveIn(m3) == a && SettingsIn(m3, ds) == SettingsIn(m, ds) && PresetsIn(m3, dp) == PresetsIn(m, dp)
  {
  }

  /** An imported preset is stored once, last, and exporting its id gives it back. */
  lemma ImportThenExport(m: map<string, Stored>, dp: seq<Preset>, parsed: Result<Draft>, now: int)
    requires WellTyped(m) && Imported(parsed, now).Ok?
    ensures var p := Imported(parsed, now).value;
      var ps := Added(PresetsIn(m, dp), p);
      Exported(ps, p.id) == Ok(p) && ps[|ps| - 1] == p && Count(ps, p.id) == 1
  {
    var p := Imported(parsed, now).value;
    FindAfterUpdate(PresetsIn(m, dp), p, p.id);
    AddedUnique(PresetsIn(m, dp), p);
  }

  /** After `deletePreset(id)` exporting `id` fails and every other preset is still there, in order. */
  lemma DeleteThenExport(ps: seq<Preset>, id: string, a: seq<Preset>, b: seq<Preset>)
    requires ps == a + b
    ensures Exported(Without(ps, id), id) == Err("Preset not found")
    ensures Without(ps, id) == Without(a, id) + Without(b, id)
    ensures |Without(ps, id)| == |ps| - Count(ps, id)
  {
    WithoutDistributes(a, b, id);
    WithoutCount(ps, id);
  }
}
