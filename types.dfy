/**
 * The settings records shared by the content-script processor, the popup
 * components and the storage helper (src/types/index.d.ts).
 */
module Types {
  import opened Wrappers

  /** An equalizer band: its centre frequency in Hz, its gain in dB and its `label` (a keyword in Dafny, hence `caption`). */
  datatype Band = Band(frequency: real, gain: real, caption: string)

  datatype StereoMode = Stereo | Mono

  datatype AudioSettings = AudioSettings(
    enabled: bool,
    volume: real,
    bands: seq<Band>,
    stereoMode: StereoMode,
    invertChannels: bool,
    balance: real)

  /** A preset stores every setting but `enabled`. */
  datatype PresetSettings = PresetSettings(
    volume: real,
    bands: seq<Band>,
    stereoMode: StereoMode,
    invertChannels: bool,
    balance: real)

  datatype Preset = Preset(id: string, name: string, settings: PresetSettings, isCustom: bool)

  /** `Partial<AudioSettings>`: `None` is a key the patch does not carry. */
  datatype SettingsPatch = SettingsPatch(
    enabled: Option<bool>,
    volume: Option<real>,
    bands: Option<seq<Band>>,
    stereoMode: Option<StereoMode>,
    invertChannels: Option<bool>,
    balance: Option<real>)

  /** `{}`. */
  const EmptyPatch := SettingsPatch(None, None, None, None, None, None)
}
