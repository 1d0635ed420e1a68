/**
 * The popup's equalizer slice (src/entrypoints/popup/store/slices/equalizerSlice.js).
 *
 * The Redux draft is the class `Equalizer`; each reducer is a method that
 * changes the fields in place, and its new state is given by a pure
 * function of the old state (`WithEqValue`, `PresetLoaded`, ...).  The
 * validators that `loadInitialData.fulfilled` applies to the stored values
 * are pure predicates over JavaScript values.
 */
module EqualizerSlice {
  import opened Wrappers
  import opened Json

  /**
   * A preset as the slice holds it.  `eq` is `None` when the preset has no
   * `eq` array, and `isCustom` records the test `p.isCustom === true`.
   */
  datatype EqPreset = EqPreset(key: string, name: string, eq: Option<seq<JsValue>>, isCustom: bool)

  datatype EqualizerState = EqualizerState(
    eq: seq<JsValue>,
    volume: JsValue,
    presets: seq<EqPreset>,
    selectedPreset: JsValue,
    hasManualChanges: bool,
    balance: JsValue,
    isMono: JsValue,
    isInvert: JsValue)

  /** The 22 built-in presets, `default` first; none is custom. */
  const SystemPresets: seq<EqPreset> := [
    EqPreset("default", "default", Some([Num(0.0), Num(0.0), Num(0.0), Num(0.0), Num(0.0), Num(0.0), Num(0.0), Num(0.0), Num(0.0), Num(0.0)]), false),
    EqPreset("acoustic", "Acoustic", Some([Num(15.0), Num(15.0), Num(10.0), Num(4.0), Num(7.0), Num(7.0), Num(10.0), Num(12.0), Num(10.0), Num(5.0)]), false),
    EqPreset("bassBooster", "Bass Booster", Some([Num(15.0), Num(12.0), Num(10.0), Num(7.0), Num(3.0), Num(0.0), Num(0.0), Num(0.0), Num(0.0), Num(0.0)]), false),
    EqPreset("bassReducer", "Bass Reducer", Some([Num(-15.0), Num(-12.0), Num(-10.0), Num(-8.0), Num(-5.0), Num(0.0), Num(0.0), Num(7.0), Num(10.0), Num(12.0)]), false),
    EqPreset("classical", "Classical", Some([Num(15.0), Num(12.0), Num(10.0), Num(8.0), Num(-5.0), Num(-5.0), Num(0.0), Num(7.0), Num(10.0), Num(12.0)]), false),
    EqPreset("dance", "Dance", Some([Num(12.0), Num(22.0), Num(15.0), Num(0.0), Num(5.0), Num(10.0), Num(16.0), Num(15.0), Num(12.0), Num(0.0)]), false),
    EqPreset("deep", "Deep", Some([Num(15.0), Num(12.0), Num(5.0), Num(3.0), Num(10.0), Num(8.0), Num(5.0), Num(-6.0), Num(-12.0), Num(-15.0)]), false),
    EqPreset("electronic", "Electronic", Some([Num(14.0), Num(13.0), Num(4.0), Num(0.0), Num(-6.0), Num(6.0), Num(3.0), Num(4.0), Num(13.0), Num(15.0)]), false),
    EqPreset("hiphop", "Hip Hop", Some([Num(16.0), Num(14.0), Num(4.0), Num(10.0), Num(-4.0), Num(-3.0), Num(4.0), Num(-2.0), Num(6.0), Num(10.0)]), false),
    EqPreset("jazz", "Jazz", Some([Num(13.0), Num(10.0), Num(4.0), Num(6.0), Num(-5.0), Num(-5.0), Num(0.0), Num(4.0), Num(10.0), Num(13.0)]), false),
    EqPreset("latin", "Latin", Some([Num(9.0), Num(5.0), Num(0.0), Num(0.0), Num(-5.0), Num(-5.0), Num(-5.0), Num(0.0), Num(10.0), Num(15.0)]), false),
    EqPreset("loudness", "Loudness", Some([Num(20.0), Num(14.0), Num(0.0), Num(0.0), Num(-6.0), Num(0.0), Num(-2.0), Num(-18.0), Num(16.0), Num(3.0)]), false),
    EqPreset("lounge", "Lounge", Some([Num(-10.0), Num(-5.0), Num(-2.0), Num(4.0), Num(13.0), Num(4.0), Num(0.0), Num(-5.0), Num(6.0), Num(3.0)]), false),
    EqPreset("piano", "Piano", Some([Num(10.0), Num(6.0), Num(0.0), Num(9.0), Num(10.0), Num(5.0), Num(11.0), Num(15.0), Num(10.0), Num(11.0)]), false),
    EqPreset("pop", "Pop", Some([Num(-5.0), Num(-4.0), Num(0.0), Num(6.0), Num(15.0), Num(13.0), Num(6.0), Num(0.0), Num(-3.0), Num(-5.0)]), false),
    EqPreset("rnb", "Rnb", Some([Num(9.0), Num(23.0), Num(19.0), Num(4.0), Num(-8.0), Num(-5.0), Num(8.0), Num(9.0), Num(10.0), Num(12.0)]), false),
    EqPreset("rock", "Rock", Some([Num(16.0), Num(13.0), Num(10.0), Num(4.0), Num(-1.0), Num(-2.0), Num(1.0), Num(8.0), Num(11.0), Num(15.0)]), false),
    EqPreset("smallSpeakers", "Small Speakers", Some([Num(18.0), Num(14.0), Num(13.0), Num(8.0), Num(4.0), Num(0.0), Num(-4.0), Num(-9.0), Num(-11.0), Num(-14.0)]), false),
    EqPreset("spokenWord", "Spoken Word", Some([Num(-7.0), Num(-1.0), Num(0.0), Num(2.0), Num(12.0), Num(15.0), Num(16.0), Num(14.0), Num(8.0), Num(0.0)]), false),
    EqPreset("trebleBooster", "Treble Booster", Some([Num(0.0), Num(0.0), Num(0.0), Num(0.0), Num(0.0), Num(3.0), Num(8.0), Num(12.0), Num(14.0), Num(17.0)]), false),
    EqPreset("trebleReducer", "Treble Reducer", Some([Num(0.0), Num(0.0), Num(0.0), Num(0.0), Num(0.0), Num(-3.0), Num(-8.0), Num(-12.0), Num(-14.0), Num(-17.0)]), false),
    EqPreset("vocalBooster", "Vocal Booster", Some([Num(-5.0), Num(-10.0), Num(-10.0), Num(4.0), Num(12.0), Num(12.0), Num(10.0), Num(5.0), Num(0.0), Num(-5.0)]), false)
  ]

  const FlatEq: seq<JsValue> := [Num(0.0), Num(0.0), Num(0.0), Num(0.0), Num(0.0), Num(0.0), Num(0.0), Num(0.0), Num(0.0), Num(0.0)]

  const InitialState: EqualizerState :=
    EqualizerState(FlatEq, Num(2.0), SystemPresets, JStr("default"), false, Num(0.0), JBool(false), JBool(false))

  /** `p.key === key`. */
  predicate HasKey(p: EqPreset, key: JsValue)
  {
    StrictEquals(JStr(p.key), key)
  }

  /** `presets.find((p) => p.key === key)`, as the index of the preset found. */
  function FindPreset(ps: seq<EqPreset>, key: JsValue): (r: Option<nat>)
    ensures r.Some? ==> r.value < |ps| && HasKey(ps[r.value], key)
    ensures r.Some? ==> forall j :: 0 <= j < r.value ==> !HasKey(ps[j], key)
    ensures r.None? <==> forall j :: 0 <= j < |ps| ==> !HasKey(ps[j], key)
  {
    if ps == [] then None
    else if HasKey(ps[0], key) then Some(0)
    else
      var rest := FindPreset(ps[1..], key);
      if rest.Some? then Some(rest.value + 1) else None
  }

  /** `presets.filter((p) => p.key !== key)`. */
  function WithoutKey(ps: seq<EqPreset>, key: JsValue): (r: seq<EqPreset>)
    ensures |r| <= |ps|
    ensures forall i :: 0 <= i < |r| ==> r[i] in ps && !HasKey(r[i], key)
    ensures forall p :: p in ps && !HasKey(p, key) ==> p in r
  {
    if ps == [] then []
    else (if HasKey(ps[0], key) then [] else [ps[0]]) + WithoutKey(ps[1..], key)
  }

  /** The element assignment `xs[i] = v`; an index past the end grows the array, with holes reading `undefined`. */
  function StoreAt(xs: seq<JsValue>, i: nat, v: JsValue): (r: seq<JsValue>)
    ensures |r| == if i < |xs| then |xs| else i + 1
    ensures r[i] == v
    ensures forall j :: 0 <= j < |r| && j != i ==> r[j] == if j < |xs| then xs[j] else JUndefined
  {
    if i < |xs| then xs[i := v]
    else xs + seq(i - |xs|, _ => JUndefined) + [v]
  }

  // ---------------------------------------------------------------------
  // Reducers as functions of the state

  /** `updateEqValue({index, value})`. */
  function WithEqValue(s: EqualizerState, index: nat, value: JsValue): EqualizerState
  {
    s.(eq := StoreAt(s.eq, index, value))
  }

  /** `loadPreset(key)`: copy the preset's eq when the preset exists and has one. */
  function PresetLoaded(s: EqualizerState, key: JsValue): EqualizerState
  {
    match FindPreset(s.presets, key)
    case Some(i) =>
      if s.presets[i].eq.Some? then s.(eq := s.presets[i].eq.value, selectedPreset := key, hasManualChanges := false)
      else s
    case None => s
  }

  /** `resetEqualizer()`: every field but the preset list goes back to its initial value. */
  function Reset(s: EqualizerState): EqualizerState
  {
    s.(eq := FlatEq, volume := Num(2.0), selectedPreset := JStr("default"), hasManualChanges := false,
       balance := Num(0.0), isMono := JBool(false), isInvert := JBool(false))
  }

  /** `updatePreset({key, eq, name})`: only the first preset with the key, and only the given fields. */
  function PresetUpdated(s: EqualizerState, key: JsValue, eq: Option<seq<JsValue>>, name: Option<string>): EqualizerState
  {
    match FindPreset(s.presets, key)
    case Some(i) =>
      var p := s.presets[i];
      var p1 := if eq.Some? then p.(eq := eq) else p;
      var p2 := if name.Some? then p1.(name := name.value) else p1;
      s.(presets := s.presets[i := p2])
    case None => s
  }

  /**
   * `deletePreset(key)`.  When the deleted key was selected the selection
   * falls back to `default`, whose eq is copied if the remaining list has a
   * `default` preset; spreading a missing eq throws, which `Err` stands for.
   */
  function PresetDeleted(s: EqualizerState, key: JsValue): Result<EqualizerState>
  {
    var kept := WithoutKey(s.presets, key);
    var s1 := s.(presets := kept);
    if !StrictEquals(s.selectedPreset, key) then Ok(s1)
    else
      var s2 := s1.(selectedPreset := JStr("default"));
      match FindPreset(kept, JStr("default"))
      case Some(i) =>
        if kept[i].eq.Some? then Ok(s2.(eq := kept[i].eq.value)) else Err("TypeError: eq is not iterable")
      case None => Ok(s2)
  }

  /** The fields of an `initializeFromStorage` payload, already in the store's shapes. */
  datatype InitPayload = InitPayload(
    eq: Option<seq<JsValue>>,
    volume: JsValue,
    selectedPreset: JsValue,
    customPresets: Option<seq<EqPreset>>,
    balance: JsValue,
    isMono: JsValue,
    isInvert: JsValue)

  /** `initializeFromStorage(payload)`. */
  function Initialized(s: EqualizerState, p: InitPayload): EqualizerState
  {
    EqualizerState(
      if p.eq.Some? then p.eq.value else s.eq,
      if p.volume.JUndefined? then s.volume else p.volume,
      if p.customPresets.Some? then SystemPresets + p.customPresets.value else s.presets,
      if Truthy(p.selectedPreset) then p.selectedPreset else s.selectedPreset,
      s.hasManualChanges,
      if p.balance.JUndefined? then s.balance else p.balance,
      if p.isMono.JUndefined? then s.isMono else p.isMono,
      if p.isInvert.JUndefined? then s.isInvert else p.isInvert)
  }

  // ---------------------------------------------------------------------
  // Validation of stored values (`loadInitialData.fulfilled`)

  /** A stored gain: a number, not NaN, within [-40, 40]. */
  predicate ValidGain(v: JsValue)
  {
    IsNumberNotNaN(v) && v.n.Finite? && -40.0 <= v.n.r <= 40.0
  }

  /** A stored eq: an array of exactly ten valid gains. */
  predicate ValidEq(v: JsValue)
  {
    v.JArr? && |v.items| == 10 && forall i :: 0 <= i < 10 ==> ValidGain(v.items[i])
  }

  /** `typeof v === 'number' ? v : parseFloat(v)`; `parse` is `parseFloat`. */
  function AsNumber(v: JsValue, parse: JsValue -> JsNumber): JsNumber
  {
    if v.JNum? then v.n else parse(v)
  }

  /** A stored custom preset: an object with string key and name and a ten-element eq array. */
  predicate ValidCustom(v: JsValue)
  {
    Truthy(v) && TypeOf(v) == "object"
    && Get(v, "key").JStr? && Get(v, "name").JStr?
    && IsArray(Get(v, "eq")) && |Get(v, "eq").items| == 10
  }

  function AsPreset(v: JsValue): EqPreset
    requires ValidCustom(v)
  {
    EqPreset(Get(v, "key").s, Get(v, "name").s, Some(Get(v, "eq").items), Get(v, "isCustom") == JBool(true))
  }

  /** `customPresets.filter(valid)`, converted. */
  function ValidCustoms(xs: seq<JsValue>): (r: seq<EqPreset>)
    ensures |r| <= |xs|
    ensures (exists i :: 0 <= i < |xs| && ValidCustom(xs[i])) <==> |r| > 0
    ensures forall i :: 0 <= i < |r| ==> r[i].eq.Some? && |r[i].eq.value| == 10
  {
    if xs == [] then []
    else
      (if ValidCustom(xs[0]) then [AsPreset(xs[0])] else []) + ValidCustoms(xs[1..])
  }

  /** The selected preset read back: a non-blank string, else `default`. */
  function LoadedKey(v: JsValue): JsValue
  {
    var k := Or(v, JStr("default"));
    if k.JStr? && NotBlank(k.s) then k else JStr("default")
  }

  /** The eq after the load: the stored one only when it is valid. */
  function StoredEq(cur: seq<JsValue>, v: JsValue): seq<JsValue>
  {
    if ValidEq(v) then v.items else cur
  }

  /** The volume after the load: the stored one, read as a number, only when it lies in [0, 4]. */
  function StoredVolume(cur: JsValue, v: JsValue, parse: JsValue -> JsNumber): JsValue
  {
    var n := AsNumber(v, parse);
    if Present(v) && n.Finite? && 0.0 <= n.r <= 4.0 then JNum(n) else cur
  }

  /** The balance after the load: any stored value read as a number, NaN included. */
  function StoredBalance(cur: JsValue, v: JsValue, parse: JsValue -> JsNumber): JsValue
  {
    if Present(v) then JNum(AsNumber(v, parse)) else cur
  }

  /** `isMono` and `isInvert` after the load: only a stored boolean is taken. */
  function StoredFlag(cur: JsValue, v: JsValue): JsValue
  {
    if v.JBool? then v else cur
  }

  /** The preset list after the load: the built-in presets and the valid stored ones, if there is one. */
  function StoredPresets(cur: seq<EqPreset>, v: JsValue): seq<EqPreset>
  {
    var valid := if v.JArr? then ValidCustoms(v.items) else [];
    if Truthy(v) && |valid| > 0 then SystemPresets + valid else cur
  }

  /** The state `loadInitialData.fulfilled` leaves, given the stored `prefs` (`hasManualChanges` is kept). */
  function Loaded(s: EqualizerState, prefs: JsValue, parse: JsValue -> JsNumber): EqualizerState
  {
    var from := Or(prefs, JObj(map[]));
    EqualizerState(
      StoredEq(s.eq, Get(from, "eq")),
      StoredVolume(s.volume, Get(from, "volume"), parse),
      StoredPresets(s.presets, Get(from, "customPresets")),
      LoadedKey(Get(from, "selectedPreset")),
      s.hasManualChanges,
      StoredBalance(s.balance, Get(from, "balance"), parse),
      StoredFlag(s.isMono, Get(from, "isMono")),
      StoredFlag(s.isInvert, Get(from, "isInvert")))
  }

  // ---------------------------------------------------------------------
  // The draft

  class Equalizer {
    var eq: seq<JsValue>
    var volume: JsValue
    var presets: seq<EqPreset>
    var selectedPreset: JsValue
    var hasManualChanges: bool
    var balance: JsValue
    var isMono: JsValue
    var isInvert: JsValue

    function State(): EqualizerState
      reads this
    {
      EqualizerState(eq, volume, presets, selectedPreset, hasManualChanges, balance, isMono, isInvert)
    }

    constructor ()
      ensures State() == InitialState
    {
      eq, volume, presets, selectedPreset := FlatEq, Num(2.0), SystemPresets, JStr("default");
      hasManualChanges, balance, isMono, isInvert := false, Num(0.0), JBool(false), JBool(false);
    }

    method SetEq(payload: seq<JsValue>)
      modifies this
      ensures State() == old(State()).(eq := payload)
    {
      eq := payload;
    }

    method UpdateEqValue(index: nat, value: JsValue)
      modifies this
      ensures State() == WithEqValue(old(State()), index, value)
    {
      eq := StoreAt(eq, index, value);
    }

    method SetVolume(payload: JsValue)
      modifies this
      ensures State() == old(State()).(volume := payload)
    {
      volume := payload;
    }

    method SetBalance(payload: JsValue)
      modifies this
      ensures State() == old(State()).(balance := payload)
    {
      balance := payload;
    }

    method SetMono(payload: JsValue)
      modifies this
      ensures State() == old(State()).(isMono := payload)
    {
      isMono := payload;
    }

    method SetInvert(payload: JsValue)
      modifies this
      ensures State() == old(State()).(isInvert := payload)
    {
      isInvert := payload;
    }

    method SetPresets(payload: seq<EqPreset>)
      modifies this
      ensures State() == old(State()).(presets := payload)
    {
      presets := payload;
    }

    method SetSelectedPreset(payload: JsValue)
      modifies this
      ensures State() == old(State()).(selectedPreset := payload)
    {
      selectedPreset := payload;
    }

    method SetHasManualChanges(payload: bool)
      modifies this
      ensures State() == old(State()).(hasManualChanges := payload)
    {
      hasManualChanges := payload;
    }

    method LoadPreset(key: JsValue)
      modifies this
      ensures State() == PresetLoaded(old(State()), key)
    {
      var found := FindPreset(presets, key);
      if found.Some? && presets[found.value].eq.Some? {
        eq := presets[found.value].eq.value;
        selectedPreset := key;
        hasManualChanges := false;
      }
    }

    method ResetEqualizer()
      modifies this
      ensures State() == Reset(old(State()))
    {
      eq := InitialState.eq;
      hasManualChanges := InitialState.hasManualChanges;
      balance := InitialState.balance;
      isMono := InitialState.isMono;
      isInvert := InitialState.isInvert;
      selectedPreset := InitialState.selectedPreset;
      volume := InitialState.volume;
    }

    method AddPreset(p: EqPreset)
      modifies this
      ensures State() == old(State()).(presets := old(presets) + [p])
    {
      presets := presets + [p];
    }

    method UpdatePreset(key: JsValue, newEq: Option<seq<JsValue>>, name: Option<string>)
      modifies this
      ensures State() == PresetUpdated(old(State()), key, newEq, name)
    {
      var found := FindPreset(presets, key);
      if found.Some? {
        var i := found.value;
        if newEq.Some? {
          presets := presets[i := presets[i].(eq := newEq)];
        }
        if name.Some? {
          presets := presets[i := presets[i].(name := name.value)];
        }
      }
    }

    /** On `Err` the reducer threw and Redux keeps the previous state. */
    method DeletePreset(key: JsValue) returns (ok: bool)
      modifies this
      ensures ok == PresetDeleted(old(State()), key).Ok?
      ensures State() == if ok then PresetDeleted(old(State()), key).value else old(State())
    {
      ghost var s := State();
      var kept := WithoutKey(presets, key);
      var e, sel := eq, selectedPreset;
      ok := true;
      if StrictEquals(selectedPreset, key) {
        var found := FindPreset(kept, JStr("default"));
        if found.Some? {
          if kept[found.value].eq.None? {
            ok := false;
            return;
          }
          e := kept[found.value].eq.value;
        }
        sel := JStr("default");
      }
      assert PresetDeleted(s, key) == Ok(s.(presets := kept, eq := e, selectedPreset := sel));
      presets, eq, selectedPreset := kept, e, sel;
    }

    method InitializeFromStorage(p: InitPayload)
      modifies this
      ensures State() == Initialized(old(State()), p)
    {
      ghost var s := State();
      var ps, e, v, b, m, i, sel := presets, eq, volume, balance, isMono, isInvert, selectedPreset;
      if p.customPresets.Some? { ps := SystemPresets + p.customPresets.value; }
      if p.eq.Some? { e := p.eq.value; }
      if !p.volume.JUndefined? { v := p.volume; }
      if !p.balance.JUndefined? { b := p.balance; }
      if !p.isMono.JUndefined? { m := p.isMono; }
      if !p.isInvert.JUndefined? { i := p.isInvert; }
      if Truthy(p.selectedPreset) { sel := p.selectedPreset; }
      assert Initialized(s, p) == EqualizerState(e, v, ps, sel, s.hasManualChanges, b, m, i);
      presets, eq, volume, balance, isMono, isInvert, selectedPreset := ps, e, v, b, m, i, sel;
      assert State() == EqualizerState(e, v, ps, sel, s.hasManualChanges, b, m, i);
    }

    /**
     * `loadInitialData.fulfilled` with the stored `prefs`; `parse` is
     * `parseFloat`.  Each field is assigned what its validator accepts.
     */
    method LoadFulfilled(prefs: JsValue, parse: JsValue -> JsNumber)
      modifies this
      ensures State() == Loaded(old(State()), prefs, parse)
    {
      var from := Or(prefs, JObj(map[]));
      eq := StoredEq(eq, Get(from, "eq"));
      balance := StoredBalance(balance, Get(from, "balance"), parse);
      isMono := StoredFlag(isMono, Get(from, "isMono"));
      isInvert := StoredFlag(isInvert, Get(from, "isInvert"));
      volume := StoredVolume(volume, Get(from, "volume"), parse);
      selectedPreset := LoadedKey(Get(from, "selectedPreset"));
      presets := StoredPresets(presets, Get(from, "customPresets"));
    }
  }

  // ---------------------------------------------------------------------
  // Properties

  /** The built-in list starts with the flat `default` preset, which is not custom. */
  lemma DefaultPresetFirst()
    ensures SystemPresets[0] == EqPreset("default", "default", Some(FlatEq), false)
    ensures ValidEq(JArr(FlatEq))
  {
  }

  /** `updateEqValue` changes only `eq[index]` (padding with holes past the end). */
  lemma UpdateEqValueOnly(s: EqualizerState, index: nat, value: JsValue)
    requires index < |s.eq|
    ensures WithEqValue(s, index, value).eq[index] == value
    ensures |WithEqValue(s, index, value).eq| == |s.eq|
    ensures forall j :: 0 <= j < |s.eq| && j != index ==> WithEqValue(s, index, value).eq[j] == s.eq[j]
    ensures WithEqValue(s, index, value).(eq := s.eq) == s
  {
  }

  /** `loadPreset` succeeds exactly when a preset has the key and an eq; otherwise it changes nothing. */
  lemma LoadPresetEffect(s: EqualizerState, key: JsValue)
    ensures var r := PresetLoaded(s, key);
      (exists i :: 0 <= i < |s.presets| && HasKey(s.presets[i], key) && s.presets[i].eq.Some?
        && (forall j :: 0 <= j < i ==> !HasKey(s.presets[j], key))
        && r == s.(eq := s.presets[i].eq.value, selectedPreset := key, hasManualChanges := false))
      || ((forall i :: 0 <= i < |s.presets| && HasKey(s.presets[i], key) ==>
            s.presets[i].eq.None? || exists j :: 0 <= j < i && HasKey(s.presets[j], key))
          && r == s)
  {
    match FindPreset(s.presets, key)
    case Some(i) =>
      if s.presets[i].eq.None? {
        forall k | 0 <= k < |s.presets| && HasKey(s.presets[k], key)
          ensures s.presets[k].eq.None? || exists j :: 0 <= j < k && HasKey(s.presets[j], key)
        {
          if k > i { assert HasKey(s.presets[i], key); }
        }
      }
    case None =>
  }

  /** After a successful `loadPreset` the key names a preset and the slice holds its eq. */
  lemma LoadPresetSelects(s: EqualizerState, key: JsValue)
    requires PresetLoaded(s, key) != s
    ensures var r := PresetLoaded(s, key);
      r.selectedPreset == key && !r.hasManualChanges && r.presets == s.presets
      && exists i :: 0 <= i < |r.presets| && HasKey(r.presets[i], key) && r.presets[i].eq == Some(r.eq)
  {
    var i := FindPreset(s.presets, key).value;
    assert HasKey(s.presets[i], key);
  }

  /** `resetEqualizer` keeps the preset list, restores the rest, and is idempotent. */
  lemma ResetRestores(s: EqualizerState)
    ensures Reset(s).presets == s.presets
    ensures Reset(s).(presets := InitialState.presets) == InitialState
    ensures Reset(Reset(s)) == Reset(s)
    ensures Reset(s).eq == FlatEq && Reset(s).volume == Num(2.0) && Reset(s).selectedPreset == JStr("default")
  {
  }

  /** `updatePreset` rewrites only the first preset with the key, and only the fields it is given. */
  lemma UpdatePresetOnly(s: EqualizerState, key: JsValue, eq: Option<seq<JsValue>>, name: Option<string>)
    ensures var r := PresetUpdated(s, key, eq, name);
      |r.presets| == |s.presets| && r.(presets := s.presets) == s
      && forall j :: 0 <= j < |s.presets| ==>
        var p, q := s.presets[j], r.presets[j];
        if HasKey(p, key) && forall k :: 0 <= k < j ==> !HasKey(s.presets[k], key) then
          q.key == p.key && q.isCustom == p.isCustom
          && q.eq == (if eq.Some? then eq else p.eq)
          && q.name == (if name.Some? then name.value else p.name)
        else q == p
  {
    match FindPreset(s.presets, key)
    case Some(i) =>
      forall j | 0 <= j < |s.presets| && j != i && HasKey(s.presets[j], key)
        ensures exists k :: 0 <= k < j && HasKey(s.presets[k], key)
      {
        assert j > i;
        assert HasKey(s.presets[i], key);
      }
    case None =>
  }

  /** Filtering distributes over concatenation, so the kept presets keep their order. */
  lemma {:induction false} WithoutKeyAppend(a: seq<EqPreset>, b: seq<EqPreset>, key: JsValue)
    ensures WithoutKey(a + b, key) == WithoutKey(a, key) + WithoutKey(b, key)
  {
    if a == [] {
      assert a + b == b;
    } else {
      assert (a + b)[1..] == a[1..] + b;
      WithoutKeyAppend(a[1..], b, key);
    }
  }

  /** A preset list without the key is left as it is. */
  lemma {:induction false} WithoutKeyAbsent(ps: seq<EqPreset>, key: JsValue)
    requires forall i :: 0 <= i < |ps| ==> !HasKey(ps[i], key)
    ensures WithoutKey(ps, key) == ps
  {
    if ps != [] {
      WithoutKeyAbsent(ps[1..], key);
    }
  }

  /**
   * `deletePreset` drops every preset with the key; the selection falls back
   * to `default` only when the deleted key was selected.
   */
  lemma DeletePresetEffect(s: EqualizerState, key: JsValue)
    ensures var r := PresetDeleted(s, key);
      r.Ok? ==>
        r.value.presets == WithoutKey(s.presets, key)
        && (forall i :: 0 <= i < |r.value.presets| ==> !HasKey(r.value.presets[i], key))
        && r.value.selectedPreset == (if StrictEquals(s.selectedPreset, key) then JStr("default") else s.selectedPreset)
        && (!StrictEquals(s.selectedPreset, key) ==> r.value.eq == s.eq)
        && r.value.volume == s.volume && r.value.balance == s.balance
  {
  }

  /**
   * The delete throws exactly when the selected preset is deleted, it is not
   * `default` itself, and the first `default` preset has no eq; deleting a
   * selected `default` key leaves eq as it was.
   */
  lemma DeletePresetFails(s: EqualizerState, key: JsValue)
    ensures PresetDeleted(s, key).Err? <==>
      StrictEquals(s.selectedPreset, key) && key != JStr("default")
      && (var f := FindPreset(s.presets, JStr("default")); f.Some? && s.presets[f.value].eq.None?)
    ensures StrictEquals(s.selectedPreset, key) && key == JStr("default") ==>
      PresetDeleted(s, key) == Ok(s.(presets := WithoutKey(s.presets, key), selectedPreset := JStr("default")))
  {
    if key == JStr("default") {
      var kept := WithoutKey(s.presets, key);
      assert FindPreset(kept, JStr("default")).None?;
    } else {
      FirstDefaultKept(s.presets, key);
    }
  }

  /** `find` on a list with a known head: the head, or one past what `find` gives on the tail. */
  lemma FindAfterHead(p: EqPreset, rest: seq<EqPreset>, key: JsValue)
    ensures FindPreset([p] + rest, key)
         == if HasKey(p, key) then Some(0)
            else if FindPreset(rest, key).Some? then Some(FindPreset(rest, key).value + 1) else None
  {
    assert ([p] + rest)[0] == p && ([p] + rest)[1..] == rest;
  }

  /** `find` for `key` picks the same preset in `xs` and in `ys`, or nothing in both. */
  predicate SameFirst(xs: seq<EqPreset>, ys: seq<EqPreset>, key: JsValue)
  {
    var f, g := FindPreset(xs, key), FindPreset(ys, key);
    f.Some? == g.Some? && (f.Some? ==> xs[f.value] == ys[g.value])
  }

  /** The same head before both lists keeps `find`'s pick the same. */
  lemma ConsSame(p: EqPreset, xs: seq<EqPreset>, ys: seq<EqPreset>, key: JsValue)
    requires SameFirst(xs, ys, key)
    ensures SameFirst([p] + xs, [p] + ys, key)
  {
    FindAfterHead(p, xs, key);
    FindAfterHead(p, ys, key);
    if !HasKey(p, key) && FindPreset(xs, key).Some? {
      assert ([p] + xs)[FindPreset(xs, key).value + 1] == xs[FindPreset(xs, key).value];
      assert ([p] + ys)[FindPreset(ys, key).value + 1] == ys[FindPreset(ys, key).value];
    }
  }

  /** A head without the key does not change `find`'s pick. */
  lemma SkipSame(p: EqPreset, xs: seq<EqPreset>, ys: seq<EqPreset>, key: JsValue)
    requires SameFirst(xs, ys, key) && !HasKey(p, key)
    ensures SameFirst([p] + xs, ys, key)
  {
    FindAfterHead(p, xs, key);
    if FindPreset(xs, key).Some? {
      assert ([p] + xs)[FindPreset(xs, key).value + 1] == xs[FindPreset(xs, key).value];
    }
  }

  /** Filtering out another key keeps the first `default` preset. */
  lemma {:induction false} FirstDefaultKept(ps: seq<EqPreset>, key: JsValue)
    requires key != JStr("default")
    ensures SameFirst(ps, WithoutKey(ps, key), JStr("default"))
  {
    if ps != [] {
      var d := JStr("default");
      var tail := ps[1..];
      FirstDefaultKept(tail, key);
      assert ps == [ps[0]] + tail;
      if HasKey(ps[0], key) {
        assert WithoutKey(ps, key) == WithoutKey(tail, key);
        SkipSame(ps[0], tail, WithoutKey(tail, key), d);
      } else {
        assert WithoutKey(ps, key) == [ps[0]] + WithoutKey(tail, key);
        ConsSame(ps[0], tail, WithoutKey(tail, key), d);
      }
    }
  }

  /** The loaded eq is the stored one only when it is a valid ten-gain array; otherwise eq is unchanged. */
  lemma LoadedEq(s: EqualizerState, prefs: JsValue, parse: JsValue -> JsNumber)
    ensures var stored := Get(Or(prefs, JObj(map[])), "eq");
      Loaded(s, prefs, parse).eq == (if ValidEq(stored) then stored.items else s.eq)
    ensures var r := Loaded(s, prefs, parse).eq;
      r == s.eq || (|r| == 10 && forall i :: 0 <= i < 10 ==> ValidGain(r[i]))
  {
  }

  /** The loaded volume is unchanged or a finite number in [0, 4]. */
  lemma LoadedVolume(s: EqualizerState, prefs: JsValue, parse: JsValue -> JsNumber)
    ensures var v := Loaded(s, prefs, parse).volume;
      v == s.volume || (v.JNum? && v.n.Finite? && 0.0 <= v.n.r <= 4.0)
  {
  }

  /** After loading, the selected preset is always a non-blank string: the stored one when it is one, else `default`. */
  lemma {:induction false} LoadedSelection(s: EqualizerState, prefs: JsValue, parse: JsValue -> JsNumber)
    ensures var k := Loaded(s, prefs, parse).selectedPreset;
      k.JStr? && NotBlank(k.s)
    ensures var stored := Get(Or(prefs, JObj(map[])), "selectedPreset");
      Loaded(s, prefs, parse).selectedPreset == (if stored.JStr? && NotBlank(stored.s) then stored else JStr("default"))
  {
    assert !IsTrimmed("default"[0]);
  }

  /** Custom presets replace the list (after the built-in ones) only when at least one stored preset is valid. */
  lemma LoadedPresets(s: EqualizerState, prefs: JsValue, parse: JsValue -> JsNumber)
    ensures var customs := Get(Or(prefs, JObj(map[])), "customPresets");
      var r := Loaded(s, prefs, parse).presets;
      if customs.JArr? && exists i :: 0 <= i < |customs.items| && ValidCustom(customs.items[i])
      then r[..|SystemPresets|] == SystemPresets && |r| > |SystemPresets|
        && forall i :: |SystemPresets| <= i < |r| ==> r[i].eq.Some? && |r[i].eq.value| == 10
      else r == s.presets
  {
  }

  /** A state whose eq holds ten valid gains still does after a load. */
  lemma LoadKeepsValidEq(s: EqualizerState, prefs: JsValue, parse: JsValue -> JsNumber)
    requires ValidEq(JArr(s.eq))
    ensures ValidEq(JArr(Loaded(s, prefs, parse).eq))
  {
  }
}
