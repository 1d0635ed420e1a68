/**
 * The popup's settings handlers (src/entrypoints/popup/components/Home.tsx).
 * Each builds a new settings object from the current one and hands it to
 * `saveSettings`, whose persistence is not part of this model; here each
 * handler is a function that returns that object.
 *
 * The settings object is the popup store's record: the audio settings,
 * `activePresetId`, `presets`, and the theme and licence fields, which no
 * handler here touches.  Those fields are carried whole as `rest`.
 */
module Home {
  import opened Wrappers
  import opened Types
  import opened PresetList
  import ChromeStorage
  import EqualizerPanel

  datatype PopupSettings<R> = PopupSettings(
    enabled: bool,
    volume: real,
    bands: seq<Band>,
    stereoMode: StereoMode,
    invertChannels: bool,
    balance: real,
    activePresetId: Option<string>,
    presets: seq<Preset>,
    rest: R)

  /** The value a spread leaves: the patch's when it carries the key, the old one otherwise. */
  function Pick<T>(o: Option<T>, current: T): T
  {
    if o.Some? then o.value else current
  }

  /** Lines 11-16, `{ ...settings, ...patch }`. */
  function Patched<R>(s: PopupSettings<R>, p: SettingsPatch): (r: PopupSettings<R>)
    ensures r.activePresetId == s.activePresetId && r.presets == s.presets && r.rest == s.rest
    ensures p.bands.Some? ==> r.bands == p.bands.value
    ensures p == EmptyPatch ==> r == s
  {
    s.(enabled := Pick(p.enabled, s.enabled),
       volume := Pick(p.volume, s.volume),
       bands := Pick(p.bands, s.bands),
       stereoMode := Pick(p.stereoMode, s.stereoMode),
       invertChannels := Pick(p.invertChannels, s.invertChannels),
       balance := Pick(p.balance, s.balance))
  }

  /** `{ ...p, ...q }` on two patches. */
  function Combined(p: SettingsPatch, q: SettingsPatch): SettingsPatch
  {
    SettingsPatch(
      if q.enabled.Some? then q.enabled else p.enabled,
      if q.volume.Some? then q.volume else p.volume,
      if q.bands.Some? then q.bands else p.bands,
      if q.stereoMode.Some? then q.stereoMode else p.stereoMode,
      if q.invertChannels.Some? then q.invertChannels else p.invertChannels,
      if q.balance.Some? then q.balance else p.balance)
  }

  /** The five settings a preset stores, as `saveAsPreset` copies them (lines 37-43). */
  function Snapshot<R>(s: PopupSettings<R>): PresetSettings
  {
    PresetSettings(s.volume, s.bands, s.stereoMode, s.invertChannels, s.balance)
  }

  /** A preset's settings as a patch. */
  function PatchOf(ps: PresetSettings): SettingsPatch
  {
    SettingsPatch(None, Some(ps.volume), Some(ps.bands), Some(ps.stereoMode), Some(ps.invertChannels), Some(ps.balance))
  }

  /** Lines 21-27, `{ ...settings, ...preset.settings, activePresetId: preset.id }`. */
  function ApplyPreset<R>(s: PopupSettings<R>, preset: Preset): (r: PopupSettings<R>)
    ensures Snapshot(r) == preset.settings && r.activePresetId == Some(preset.id)
    ensures r.enabled == s.enabled && r.presets == s.presets && r.rest == s.rest
  {
    s.(volume := preset.settings.volume,
       bands := preset.settings.bands,
       stereoMode := preset.settings.stereoMode,
       invertChannels := preset.settings.invertChannels,
       balance := preset.settings.balance,
       activePresetId := Some(preset.id))
  }

  /** Lines 32-50: a custom preset made from the current settings, with an id from the clock reading `now`. */
  function SaveAsPreset<R>(s: PopupSettings<R>, name: string, now: int): (r: PopupSettings<R>)
    ensures |r.presets| == |s.presets| + 1 && r.(presets := s.presets) == s
    ensures var p := r.presets[|s.presets|];
      p.isCustom && p.name == name && p.settings == Snapshot(s) && p.id == ChromeStorage.FreshId(now)
  {
    s.(presets := s.presets + [Preset(ChromeStorage.FreshId(now), name, Snapshot(s), true)])
  }

  /** Lines 55-61. */
  function DeletePreset<R>(s: PopupSettings<R>, id: string): (r: PopupSettings<R>)
    ensures forall p :: p in r.presets <==> p in s.presets && p.id != id
    ensures r.activePresetId == (if s.activePresetId == Some(id) then None else s.activePresetId)
    ensures r.(presets := s.presets, activePresetId := s.activePresetId) == s
  {
    s.(presets := Without(s.presets, id),
       activePresetId := if s.activePresetId == Some(id) then None else s.activePresetId)
  }

  /**
   * Lines 66-89: the new settings, or the alert text when parsing or the
   * format check fails (then nothing is saved).
   */
  function ImportPreset<R>(s: PopupSettings<R>, parsed: Result<ChromeStorage.Draft>, now: int): (r: Result<PopupSettings<R>>)
    ensures r.Err? <==> ChromeStorage.Imported(parsed, now).Err?
    ensures r.Err? ==> r.error == "Failed to import preset: " + ChromeStorage.Imported(parsed, now).error
    ensures r.Ok? ==> |r.value.presets| == |s.presets| + 1 && r.value.(presets := s.presets) == s
                      && r.value.presets[|s.presets|].isCustom
  {
    match ChromeStorage.Imported(parsed, now)
    case Err(e) => Err("Failed to import preset: " + e)
    case Ok(p) => Ok(s.(presets := s.presets + [p]))
  }

  /** The download `exportPreset` starts: the file name and the preset rendered into it. */
  datatype ExportFile = ExportFile(fileName: string, preset: Preset)

  /** Lines 94-110: the download, or the alert text when no preset has the id. */
  function ExportPreset<R>(s: PopupSettings<R>, id: string): (r: Result<ExportFile>)
    ensures r.Err? ==> r.error == "Failed to export preset: Preset not found"
    ensures r.Ok? ==> r.value.preset in s.presets && r.value.preset.id == id
                      && r.value.fileName == "equalizer-preset-" + id + ".json"
  {
    match ChromeStorage.Exported(s.presets, id)
    case Err(e) => Err("Failed to export preset: " + e)
    case Ok(p) => Ok(ExportFile("equalizer-preset-" + id + ".json", p))
  }

  // ---------------------------------------------------------------------
  // Properties

  /** `updateSettings` overrides exactly the keys the patch carries; the empty patch changes nothing. */
  lemma PatchOverrides<R>(s: PopupSettings<R>, p: SettingsPatch)
    ensures var r := Patched(s, p);
      (p.enabled.Some? ==> r.enabled == p.enabled.value) && (p.enabled.None? ==> r.enabled == s.enabled)
      && (p.volume.Some? ==> r.volume == p.volume.value) && (p.volume.None? ==> r.volume == s.volume)
      && (p.bands.Some? ==> r.bands == p.bands.value) && (p.bands.None? ==> r.bands == s.bands)
      && (p.stereoMode.Some? ==> r.stereoMode == p.stereoMode.value) && (p.stereoMode.None? ==> r.stereoMode == s.stereoMode)
      && (p.invertChannels.Some? ==> r.invertChannels == p.invertChannels.value)
      && (p.invertChannels.None? ==> r.invertChannels == s.invertChannels)
      && (p.balance.Some? ==> r.balance == p.balance.value) && (p.balance.None? ==> r.balance == s.balance)
      && r.activePresetId == s.activePresetId && r.presets == s.presets && r.rest == s.rest
    ensures Patched(s, EmptyPatch) == s
  {
  }

  /** Two updates in a row are one update with the combined patch; repeating an update changes nothing more. */
  lemma PatchesCompose<R>(s: PopupSettings<R>, p: SettingsPatch, q: SettingsPatch)
    ensures Patched(Patched(s, p), q) == Patched(s, Combined(p, q))
    ensures Patched(Patched(s, p), p) == Patched(s, p)
  {
  }

  /**
   * `applyPreset` is `updateSettings` with the preset's settings, plus the
   * active id: `enabled`, the preset list and the other fields stay, and
   * the current settings afterwards are the preset's.
   */
  lemma ApplyPresetIsPatch<R>(s: PopupSettings<R>, preset: Preset)
    ensures ApplyPreset(s, preset) == Patched(s, PatchOf(preset.settings)).(activePresetId := Some(preset.id))
    ensures Snapshot(ApplyPreset(s, preset)) == preset.settings
    ensures var r := ApplyPreset(s, preset);
      r.enabled == s.enabled && r.presets == s.presets && r.rest == s.rest && r.activePresetId == Some(preset.id)
  {
  }

  /** `saveAsPreset` appends exactly one custom preset holding the current settings, and changes nothing else. */
  lemma SaveAppendsOne<R>(s: PopupSettings<R>, name: string, now: int)
    ensures var r := SaveAsPreset(s, name, now);
      |r.presets| == |s.presets| + 1 && r.presets[..|s.presets|] == s.presets
      && r.presets[|s.presets|] == Preset(ChromeStorage.FreshId(now), name, Snapshot(s), true)
      && r.(presets := s.presets) == s
  {
    var r := SaveAsPreset(s, name, now);
    assert r.presets[..|s.presets|] == s.presets;
  }

  /**
   * Applying a preset just saved changes only the active id; exporting it
   * finds it when no older preset has its id.
   */
  lemma SaveThenApply<R>(s: PopupSettings<R>, name: string, now: int)
    ensures var r := SaveAsPreset(s, name, now);
      ApplyPreset(r, r.presets[|s.presets|]) == r.(activePresetId := Some(ChromeStorage.FreshId(now)))
    ensures var r := SaveAsPreset(s, name, now);
      (forall i :: 0 <= i < |s.presets| ==> s.presets[i].id != ChromeStorage.FreshId(now)) ==>
        ExportPreset(r, ChromeStorage.FreshId(now))
        == Ok(ExportFile("equalizer-preset-" + ChromeStorage.FreshId(now) + ".json", r.presets[|s.presets|]))
  {
    var r := SaveAsPreset(s, name, now);
    var id := ChromeStorage.FreshId(now);
    if forall i :: 0 <= i < |s.presets| ==> s.presets[i].id != id {
      FindFirst(r.presets, id, |s.presets|);
    }
  }

  /**
   * `deletePreset` drops every preset with the id, keeps the others in
   * their order, clears the active id only when it was that id, and
   * changes nothing else.
   */
  lemma DeleteRemoves<R>(s: PopupSettings<R>, id: string)
    ensures var r := DeletePreset(s, id);
      Count(r.presets, id) == 0 && |r.presets| == |s.presets| - Count(s.presets, id)
      && (forall p :: p in r.presets <==> p in s.presets && p.id != id)
      && (s.activePresetId == Some(id) ==> r.activePresetId.None?)
      && (s.activePresetId != Some(id) ==> r.activePresetId == s.activePresetId)
      && r.(presets := s.presets, activePresetId := s.activePresetId) == s
  {
    WithoutCount(s.presets, id);
  }

  /**
   * `importPreset` saves only a parsed draft with a non-empty name and
   * settings, and then appends exactly one custom preset with a fresh id,
   * leaving the other fields as they were.
   */
  lemma ImportAppends<R>(s: PopupSettings<R>, parsed: Result<ChromeStorage.Draft>, now: int)
    ensures var r := ImportPreset(s, parsed, now);
      r.Ok? <==> (parsed.Ok? && parsed.value.name.Some? && parsed.value.name.value != ""
                  && parsed.value.settings.Some?)
    ensures var r := ImportPreset(s, parsed, now);
      parsed.Ok? && r.Err? ==> r.error == "Failed to import preset: Invalid preset format"
    ensures var r := ImportPreset(s, parsed, now);
      r.Ok? ==> (|r.value.presets| == |s.presets| + 1 && r.value.presets[..|s.presets|] == s.presets
                 && r.value.(presets := s.presets) == s
                 && var p := r.value.presets[|s.presets|];
                    p.isCustom && p.id == ChromeStorage.FreshId(now)
                    && Some(p.name) == parsed.value.name && Some(p.settings) == parsed.value.settings)
  {
    var r := ImportPreset(s, parsed, now);
    if r.Ok? {
      assert r.value.presets[..|s.presets|] == s.presets;
    }
  }

  /** `exportPreset` fails exactly when no preset has the id. */
  lemma ExportFindsId<R>(s: PopupSettings<R>, id: string)
    ensures var r := ExportPreset(s, id);
      (r.Err? <==> forall i :: 0 <= i < |s.presets| ==> s.presets[i].id != id)
      && (r.Err? ==> r.error == "Failed to export preset: Preset not found")
      && (r.Ok? ==> r.value.preset in s.presets && r.value.preset.id == id
                    && r.value.fileName == "equalizer-preset-" + id + ".json")
  {
  }

  /** A slider move or a reset in the equalizer panel changes the bands and nothing else. */
  lemma EqualizerEditsOnlyBands<R>(s: PopupSettings<R>, index: nat, gain: real)
    requires index < |s.bands|
    ensures var r := Patched(s, EqualizerPanel.UpdateBand(s.bands, index, gain));
      r.(bands := s.bands) == s && |r.bands| == |s.bands| && r.bands[index].gain == gain
      && forall j :: 0 <= j < |s.bands| && j != index ==> r.bands[j] == s.bands[j]
    ensures var r := Patched(s, EqualizerPanel.ResetBands(s.bands));
      r.(bands := s.bands) == s && |r.bands| == |s.bands|
      && forall j :: 0 <= j < |s.bands| ==> r.bands[j] == s.bands[j].(gain := 0.0)
  {
  }
}
