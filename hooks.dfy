/**
 * The "manual changes" predicate of the popup store
 * (src/entrypoints/popup/store/hooks.js, `useManualChanges`): does the
 * current equalizer curve differ from the selected preset's curve?
 */
module Hooks {
  import opened Wrappers
  import opened Json
  import opened EqualizerSlice

  /** `Math.abs(val - presetVal) > 0.01`, where `-` coerces both operands to numbers. */
  predicate Differs(val: JsValue, presetVal: JsValue, coerce: JsValue -> JsNumber)
  {
    Above(Abs(Sub(ToNumber(val, coerce), ToNumber(presetVal, coerce))), 0.01)
  }

  /** Band `i` counts as changed when the preset has a defined value there that is more than 0.01 away. */
  predicate ChangedAt(eq: seq<JsValue>, ref: seq<JsValue>, i: nat, coerce: JsValue -> JsNumber)
    requires i < |eq|
  {
    i < |ref| && !ref[i].JUndefined? && Differs(eq[i], ref[i], coerce)
  }

  /** `eq.some(...)` over the indices from `from` on. */
  function SomeChanged(eq: seq<JsValue>, ref: seq<JsValue>, coerce: JsValue -> JsNumber, from: nat): (r: bool)
    requires from <= |eq|
    decreases |eq| - from
    ensures r <==> exists i :: from <= i < |eq| && ChangedAt(eq, ref, i, coerce)
  {
    if from == |eq| then false
    else ChangedAt(eq, ref, from, coerce) || SomeChanged(eq, ref, coerce, from + 1)
  }

  /** The eq curve of the preset `selectedPreset` names, when the guards pass and that preset has one. */
  function SelectedCurve(isLoaded: bool, selectedPreset: JsValue, presets: seq<EqPreset>): (r: Option<seq<JsValue>>)
    ensures r.Some? ==> isLoaded && Truthy(selectedPreset) && |presets| > 0
    ensures r.Some? <==>
      isLoaded && Truthy(selectedPreset) && |presets| > 0
      && FindPreset(presets, selectedPreset).Some? && presets[FindPreset(presets, selectedPreset).value].eq.Some?
    ensures r.Some? ==> r == presets[FindPreset(presets, selectedPreset).value].eq
  {
    if !isLoaded || !Truthy(selectedPreset) || |presets| == 0 then None
    else match FindPreset(presets, selectedPreset)
      case None => None
      case Some(i) => presets[i].eq
  }

  /** The callback `useManualChanges` returns. */
  function ManualChanges(isLoaded: bool, selectedPreset: JsValue, presets: seq<EqPreset>, eq: seq<JsValue>, coerce: JsValue -> JsNumber): (r: bool)
    ensures !isLoaded || !Truthy(selectedPreset) || |presets| == 0 ==> !r
    ensures SelectedCurve(isLoaded, selectedPreset, presets).None? ==> !r
    ensures r <==> (SelectedCurve(isLoaded, selectedPreset, presets).Some?
      && exists i :: 0 <= i < |eq| && ChangedAt(eq, SelectedCurve(isLoaded, selectedPreset, presets).value, i, coerce))
  {
    match SelectedCurve(isLoaded, selectedPreset, presets)
    case None => false
    case Some(ref) => SomeChanged(eq, ref, coerce, 0)
  }

  // ---------------------------------------------------------------------
  // Properties

  /** No value is more than 0.01 away from itself, not even NaN or an infinity. */
  lemma SelfNotDiffers(v: JsValue, coerce: JsValue -> JsNumber)
    ensures !Differs(v, v, coerce)
  {
  }

  /** A curve that matches the preset's at every index they share shows no manual change. */
  lemma SameCurveNoChanges(isLoaded: bool, selectedPreset: JsValue, presets: seq<EqPreset>, eq: seq<JsValue>, coerce: JsValue -> JsNumber)
    requires SelectedCurve(isLoaded, selectedPreset, presets).Some?
    requires var ref := SelectedCurve(isLoaded, selectedPreset, presets).value;
      forall i :: 0 <= i < |eq| && i < |ref| ==> eq[i] == ref[i]
    ensures !ManualChanges(isLoaded, selectedPreset, presets, eq, coerce)
  {
    var ref := SelectedCurve(isLoaded, selectedPreset, presets).value;
    forall i | 0 <= i < |eq|
      ensures !ChangedAt(eq, ref, i, coerce)
    {
      if i < |ref| {
        SelfNotDiffers(eq[i], coerce);
      }
    }
  }

  /** For loaded finite numbers the change test is the plain distance test. */
  lemma FiniteDistance(x: real, y: real, coerce: JsValue -> JsNumber)
    ensures Differs(Num(x), Num(y), coerce) <==> (x - y > 0.01 || y - x > 0.01)
  {
  }
}
