/**
 * The equalizer panel of the popup (src/entrypoints/popup/components/Equalizer.tsx):
 * moving one band's slider and the Reset button.  Each builds a new band list
 * and hands `{ bands }` to `onUpdateSettings`, which is `Home.Patched`.
 */
module EqualizerPanel {
  import opened Wrappers
  import opened Types

  /** Lines 7-11: band `index` gets the new gain. */
  function UpdateBand(bands: seq<Band>, index: nat, gain: real): (r: SettingsPatch)
    requires index < |bands|
    ensures OnlyBands(r) && |r.bands.value| == |bands| && r.bands.value[index].gain == gain
  {
    EmptyPatch.(bands := Some(bands[index := bands[index].(gain := gain)]))
  }

  /** Lines 13-16: every band's gain goes back to 0. */
  function ResetBands(bands: seq<Band>): (r: SettingsPatch)
    ensures OnlyBands(r) && |r.bands.value| == |bands|
    ensures forall i :: 0 <= i < |bands| ==> r.bands.value[i].gain == 0.0
  {
    EmptyPatch.(bands := Some(seq(|bands|, i requires 0 <= i < |bands| => bands[i].(gain := 0.0))))
  }

  /** A patch that carries only `bands`. */
  predicate OnlyBands(p: SettingsPatch)
  {
    p.bands.Some? && p.(bands := None) == EmptyPatch
  }

  /**
   * Lines 7-11: the patch carries only `bands`, of the same length; band
   * `index` has the new gain and keeps its frequency and label, and every
   * other band is unchanged.
   */
  lemma UpdateBandChangesOne(bands: seq<Band>, index: nat, gain: real)
    requires index < |bands|
    ensures var p := UpdateBand(bands, index, gain);
      OnlyBands(p) && |p.bands.value| == |bands|
      && p.bands.value[index].gain == gain
      && p.bands.value[index].frequency == bands[index].frequency
      && p.bands.value[index].caption == bands[index].caption
      && forall j :: 0 <= j < |bands| && j != index ==> p.bands.value[j] == bands[j]
  {
  }

  /** Setting a band to the gain it already has changes nothing. */
  lemma UpdateBandSameGain(bands: seq<Band>, index: nat)
    requires index < |bands|
    ensures UpdateBand(bands, index, bands[index].gain).bands == Some(bands)
  {
    assert bands[index].(gain := bands[index].gain) == bands[index];
    assert bands[index := bands[index]] == bands;
  }

  /**
   * Lines 13-16: the patch carries only `bands`, of the same length, with
   * every gain 0 and every frequency and label kept.
   */
  lemma ResetClearsGains(bands: seq<Band>)
    ensures var p := ResetBands(bands);
      OnlyBands(p) && |p.bands.value| == |bands|
      && forall i :: 0 <= i < |bands| ==>
           p.bands.value[i].gain == 0.0
           && p.bands.value[i].frequency == bands[i].frequency
           && p.bands.value[i].caption == bands[i].caption
  {
  }

  /** Resetting twice is resetting once, and a reset band list is what moving each band to 0 gives. */
  lemma ResetIdempotent(bands: seq<Band>, index: nat)
    ensures ResetBands(ResetBands(bands).bands.value) == ResetBands(bands)
    ensures index < |bands| ==>
      UpdateBand(ResetBands(bands).bands.value, index, 0.0) == ResetBands(bands)
  {
    var r := ResetBands(bands).bands.value;
    assert ResetBands(r).bands.value == r;
    if index < |bands| {
      assert r[index := r[index].(gain := 0.0)] == r;
    }
  }
}
