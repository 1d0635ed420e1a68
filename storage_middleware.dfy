/**
 * The popup store's storage middleware
 * (src/entrypoints/popup/store/middleware/chromeStorageMiddleware.js)
 * wrapped around the three slices: after each action it may load the newly
 * selected preset, may correct the `hasManualChanges` flag, and may write
 * the persisted fields to extension storage.  Both follow-up actions go
 * through the whole store again, this middleware included.
 */
module StorageMiddleware {
  import opened Wrappers
  import opened Json
  import E = EqualizerSlice
  import F = EffectsSlice
  import U = UiSlice
  import Hooks

  /** The actions whose handling the middleware distinguishes, with their payloads. */
  datatype Action =
    | SetEq(eq: seq<JsValue>)
    | UpdateEqValue(index: nat, value: JsValue)
    | SetVolume(value: JsValue)
    | SetBalance(value: JsValue)
    | SetMono(value: JsValue)
    | SetInvert(value: JsValue)
    | SetPresets(presets: seq<E.EqPreset>)
    | SetSelectedPreset(key: JsValue)
    | LoadPreset(key: JsValue)
    | SetHasManualChanges(flag: bool)
    | ResetEqualizer
    | AddPreset(preset: E.EqPreset)
    | UpdatePreset(key: JsValue, newEq: Option<seq<JsValue>>, newName: Option<string>)
    | DeletePreset(key: JsValue)
    | UpdateConvolver(name: string, value: JsValue)
    | UpdateCompressor(name: string, value: JsValue)
    | UpdateChorus(name: string, value: JsValue)
    | SetIsLoaded(flag: bool)

  /** The Redux `action.type` string. */
  function TypeName(a: Action): string
  {
    match a
    case SetEq(_) => "equalizer/setEq"
    case UpdateEqValue(_, _) => "equalizer/updateEqValue"
    case SetVolume(_) => "equalizer/setVolume"
    case SetBalance(_) => "equalizer/setBalance"
    case SetMono(_) => "equalizer/setMono"
    case SetInvert(_) => "equalizer/setInvert"
    case SetPresets(_) => "equalizer/setPresets"
    case SetSelectedPreset(_) => "equalizer/setSelectedPreset"
    case LoadPreset(_) => "equalizer/loadPreset"
    case SetHasManualChanges(_) => "equalizer/setHasManualChanges"
    case ResetEqualizer => "equalizer/resetEqualizer"
    case AddPreset(_) => "equalizer/addPreset"
    case UpdatePreset(_, _, _) => "equalizer/updatePreset"
    case DeletePreset(_) => "equalizer/deletePreset"
    case UpdateConvolver(_, _) => "effects/updateConvolver"
    case UpdateCompressor(_, _) => "effects/updateCompressor"
    case UpdateChorus(_, _) => "effects/updateChorus"
    case SetIsLoaded(_) => "ui/setIsLoaded"
  }

  /** The action types after which the manual-change flag is recomputed. */
  const CheckTypes: seq<string> := [
    "equalizer/updateEqValue", "equalizer/setEq", "equalizer/setSelectedPreset",
    "equalizer/loadPreset", "equalizer/resetEqualizer"]

  /** The action types after which the persisted fields are written. */
  const SyncTypes: seq<string> := [
    "equalizer/setEq", "equalizer/updateEqValue", "equalizer/setVolume", "equalizer/setBalance",
    "equalizer/setMono", "equalizer/setInvert", "equalizer/setSelectedPreset", "equalizer/loadPreset",
    "equalizer/addPreset", "equalizer/resetEqualizer", "equalizer/updatePreset", "equalizer/deletePreset",
    "effects/updateChorus", "effects/updateConvolver", "effects/updateCompressor"]

  datatype StoreState = StoreState(ui: U.UiState, equalizer: E.EqualizerState, effects: F.EffectsState)

  /** The object handed to `browser.storage.local.set`. */
  datatype StorageData = StorageData(
    eq: seq<JsValue>,
    volume: JsValue,
    balance: JsValue,
    isMono: JsValue,
    isInvert: JsValue,
    selectedPreset: JsValue,
    chorus: F.Params,
    convolver: F.Params,
    compressor: F.Params,
    customPresets: Option<seq<E.EqPreset>>)

  /** The state a dispatch ends in and the storage writes it made, in order. */
  datatype Outcome = Outcome(state: StoreState, writes: seq<StorageData>)

  /**
   * Which state the manual-change check and the storage write read.  The
   * middleware as written reads the state it fetched right after `next`
   * (`Stale`), even when it has since dispatched `loadPreset`; `Fresh`
   * fetches it again after that dispatch.
   */
  datatype Snapshot = Stale | Fresh

  /** The actions the effects slice handles. */
  predicate OnEffects(a: Action)
  {
    a.UpdateConvolver? || a.UpdateCompressor? || a.UpdateChorus?
  }

  /** The equalizer slice's reducers; only `deletePreset` can throw. */
  function EqualizerReduced(q: E.EqualizerState, a: Action): Result<E.EqualizerState>
    requires !OnEffects(a) && !a.SetIsLoaded?
  {
    match a
    case SetEq(v) => Ok(q.(eq := v))
    case UpdateEqValue(i, v) => Ok(E.WithEqValue(q, i, v))
    case SetVolume(v) => Ok(q.(volume := v))
    case SetBalance(v) => Ok(q.(balance := v))
    case SetMono(v) => Ok(q.(isMono := v))
    case SetInvert(v) => Ok(q.(isInvert := v))
    case SetPresets(ps) => Ok(q.(presets := ps))
    case SetSelectedPreset(k) => Ok(q.(selectedPreset := k))
    case LoadPreset(k) => Ok(E.PresetLoaded(q, k))
    case SetHasManualChanges(b) => Ok(q.(hasManualChanges := b))
    case ResetEqualizer => Ok(E.Reset(q))
    case AddPreset(p) => Ok(q.(presets := q.presets + [p]))
    case UpdatePreset(k, eq, name) => Ok(E.PresetUpdated(q, k, eq, name))
    case DeletePreset(k) => E.PresetDeleted(q, k)
  }

  /** The effects slice's reducers. */
  function EffectsReduced(x: F.EffectsState, a: Action, parse: JsValue -> JsNumber): F.EffectsState
    requires OnEffects(a)
  {
    match a
    case UpdateConvolver(n, v) => x.(convolver := x.convolver[n := F.ParsedOrZero(v, parse)])
    case UpdateCompressor(n, v) => x.(compressor := x.compressor[n := v])
    case UpdateChorus(n, v) => x.(chorus := x.chorus[n := v])
  }

  /** The root reducer: each action goes to its slice. */
  function Reduced(s: StoreState, a: Action, parse: JsValue -> JsNumber): Result<StoreState>
  {
    if a.SetIsLoaded? then Ok(s.(ui := s.ui.(isLoaded := a.flag)))
    else if OnEffects(a) then Ok(s.(effects := EffectsReduced(s.effects, a, parse)))
    else match EqualizerReduced(s.equalizer, a)
      case Ok(q) => Ok(s.(equalizer := q))
      case Err(e) => Err(e)
  }

  /**
   * The preset `setSelectedPreset` makes the middleware load: the new key,
   * when the popup is loaded, the list is non-empty, the key is truthy and
   * differs from the selection before the action, and its preset has an eq.
   */
  function AutoLoad(before: StoreState, state: StoreState, a: Action): (r: Option<JsValue>)
    ensures r.Some? <==>
      a.SetSelectedPreset? && !StrictEquals(a.key, before.equalizer.selectedPreset)
      && Hooks.SelectedCurve(state.ui.isLoaded, a.key, state.equalizer.presets).Some?
    ensures r.Some? ==> r.value == a.key && Truthy(a.key) && state.ui.isLoaded && |state.equalizer.presets| > 0
  {
    if a.SetSelectedPreset? && !StrictEquals(a.key, before.equalizer.selectedPreset)
       && Hooks.SelectedCurve(state.ui.isLoaded, a.key, state.equalizer.presets).Some?
    then Some(a.key)
    else None
  }

  /**
   * The flag the middleware dispatches after a check action: the
   * manual-change predicate of `view`, and only when it differs from the
   * stored flag and the selected preset has an eq to compare with.
   */
  function ManualCheck(view: StoreState, a: Action, coerce: JsValue -> JsNumber): (r: Option<bool>)
    ensures r.Some? ==> a.UpdateEqValue? || a.SetEq? || a.SetSelectedPreset? || a.LoadPreset? || a.ResetEqualizer?
    ensures r.Some? ==> r.value != view.equalizer.hasManualChanges
    ensures r.Some? ==> Hooks.SelectedCurve(view.ui.isLoaded, view.equalizer.selectedPreset, view.equalizer.presets).Some?
    ensures r.Some? ==>
      r.value == Hooks.ManualChanges(view.ui.isLoaded, view.equalizer.selectedPreset, view.equalizer.presets, view.equalizer.eq, coerce)
  {
    if TypeName(a) !in CheckTypes then None
    else match Hooks.SelectedCurve(view.ui.isLoaded, view.equalizer.selectedPreset, view.equalizer.presets)
      case None => None
      case Some(ref) =>
        var hasChanges := Hooks.SomeChanged(view.equalizer.eq, ref, coerce, 0);
        if view.equalizer.hasManualChanges != hasChanges then Some(hasChanges) else None
  }

  /** `presets.filter((p) => p.isCustom === true)`. */
  function Customs(ps: seq<E.EqPreset>): (r: seq<E.EqPreset>)
    ensures |r| <= |ps|
    ensures forall p :: p in r <==> p in ps && p.isCustom
  {
    if ps == [] then []
    else (if ps[0].isCustom then [ps[0]] else []) + Customs(ps[1..])
  }

  /** The persisted fields of `view`, with the custom presets when `withPresets`. */
  function Written(view: StoreState, withPresets: bool): StorageData
  {
    var q := view.equalizer;
    var x := view.effects;
    StorageData(q.eq, q.volume, q.balance, q.isMono, q.isInvert, q.selectedPreset,
      x.chorus, x.convolver, x.compressor,
      if withPresets then Some(Customs(q.presets)) else None)
  }

  /** The write a sync action makes; custom presets go along when the type names a preset. */
  function Stored(view: StoreState, a: Action): Option<StorageData>
  {
    if TypeName(a) in SyncTypes then Some(Written(view, Contains(TypeName(a), "Preset"))) else None
  }

  /** Nesting depth of the follow-up dispatches: `setSelectedPreset` → `loadPreset` → `setHasManualChanges`. */
  function Rank(a: Action): nat
  {
    if a.SetSelectedPreset? then 2 else if a.SetHasManualChanges? then 0 else 1
  }

  /** One write for a sync action, none otherwise. */
  function WriteList(w: Option<StorageData>): seq<StorageData>
  {
    if w.Some? then [w.value] else []
  }

  /** Lines 14-66: the follow-up `loadPreset` after `setSelectedPreset`, when the middleware dispatches one. */
  function Loading(s: StoreState, state: StoreState, a: Action, snap: Snapshot, parse: JsValue -> JsNumber, coerce: JsValue -> JsNumber): Outcome
    decreases Rank(a), 1
  {
    var load := AutoLoad(s, state, a);
    if load.Some? then Dispatched(state, LoadPreset(load.value), snap, parse, coerce).value else Outcome(state, [])
  }

  /** Lines 77-98: the follow-up `setHasManualChanges` computed from `view`, when the middleware dispatches one. */
  function Flagging(view: StoreState, current: StoreState, a: Action, snap: Snapshot, parse: JsValue -> JsNumber, coerce: JsValue -> JsNumber): Outcome
    decreases Rank(a), 1
  {
    var flag := ManualCheck(view, a, coerce);
    if flag.Some? then Dispatched(current, SetHasManualChanges(flag.value), snap, parse, coerce).value else Outcome(current, [])
  }

  /** What the middleware does once the reducers have produced `state` from `s`. */
  function Continued(s: StoreState, state: StoreState, a: Action, snap: Snapshot, parse: JsValue -> JsNumber, coerce: JsValue -> JsNumber): Outcome
    decreases Rank(a), 2
  {
    var o1 := Loading(s, state, a, snap, parse, coerce);
    var view := if snap == Fresh then o1.state else state;
    var o2 := Flagging(view, o1.state, a, snap, parse, coerce);
    Outcome(o2.state, o1.writes + o2.writes + WriteList(Stored(view, a)))
  }

  /**
   * `store.dispatch(a)` through the middleware, reading `snap`'s state for
   * the check and the write.  Only `deletePreset` can throw.
   */
  function Dispatched(s: StoreState, a: Action, snap: Snapshot, parse: JsValue -> JsNumber, coerce: JsValue -> JsNumber): (r: Result<Outcome>)
    decreases Rank(a), 3
    ensures r.Ok? <==> Reduced(s, a, parse).Ok?
    ensures !a.DeletePreset? ==> r.Ok?
  {
    match Reduced(s, a, parse)
    case Err(e) => Err(e)
    case Ok(state) => Ok(Continued(s, state, a, snap, parse, coerce))
  }

  lemma Concat4<T>(a: seq<T>, b: seq<T>, c: seq<T>, d: seq<T>)
    ensures a + b + c + d == a + (b + c + d)
  {
  }

  /** The store: the three slices plus the log of storage writes. */
  class Store {
    const ui: U.Ui
    const equalizer: E.Equalizer
    const effects: F.Effects
    var writes: seq<StorageData>

    function State(): StoreState
      reads ui, equalizer, effects
    {
      StoreState(ui.State(), equalizer.State(), effects.State())
    }

    predicate Valid()
      reads ui
    {
      ui.Valid()
    }

    constructor ()
      ensures Valid() && State() == StoreState(U.InitialUi, E.InitialState, F.InitialEffects) && writes == []
    {
      ui := new U.Ui();
      equalizer := new E.Equalizer();
      effects := new F.Effects();
      writes := [];
    }

    /** The equalizer slice's part of `next(action)`. */
    method ReduceEqualizer(a: Action) returns (ok: bool)
      requires !OnEffects(a) && !a.SetIsLoaded?
      modifies equalizer
      ensures ok == EqualizerReduced(old(equalizer.State()), a).Ok?
      ensures equalizer.State() == if ok then EqualizerReduced(old(equalizer.State()), a).value else old(equalizer.State())
    {
      ok := true;
      match a
      case SetEq(v) => equalizer.SetEq(v);
      case UpdateEqValue(i, v) => equalizer.UpdateEqValue(i, v);
      case SetVolume(v) => equalizer.SetVolume(v);
      case SetBalance(v) => equalizer.SetBalance(v);
      case SetMono(v) => equalizer.SetMono(v);
      case SetInvert(v) => equalizer.SetInvert(v);
      case SetPresets(ps) => equalizer.SetPresets(ps);
      case SetSelectedPreset(k) => equalizer.SetSelectedPreset(k);
      case LoadPreset(k) => equalizer.LoadPreset(k);
      case SetHasManualChanges(b) => equalizer.SetHasManualChanges(b);
      case ResetEqualizer => equalizer.ResetEqualizer();
      case AddPreset(p) => equalizer.AddPreset(p);
      case UpdatePreset(k, eq, name) => equalizer.UpdatePreset(k, eq, name);
      case DeletePreset(k) => ok := equalizer.DeletePreset(k);
    }

    /** The effects slice's part of `next(action)`. */
    method ReduceEffects(a: Action, parse: JsValue -> JsNumber)
      requires OnEffects(a)
      modifies effects
      ensures effects.State() == EffectsReduced(old(effects.State()), a, parse)
    {
      match a
      case UpdateConvolver(n, v) => effects.UpdateConvolver(n, v, parse);
      case UpdateCompressor(n, v) => effects.UpdateCompressor(n, v);
      case UpdateChorus(n, v) => effects.UpdateChorus(n, v);
    }

    /** `next(action)`: the slice reducers; a reducer that throws leaves the state as it was. */
    method Reduce(a: Action, parse: JsValue -> JsNumber) returns (ok: bool)
      requires Valid()
      modifies ui, equalizer, effects
      ensures Valid()
      ensures ok == Reduced(old(State()), a, parse).Ok?
      ensures State() == if ok then Reduced(old(State()), a, parse).value else old(State())
    {
      if a.SetIsLoaded? {
        ui.SetIsLoaded(a.flag);
        ok := true;
      } else if OnEffects(a) {
        ReduceEffects(a, parse);
        ok := true;
      } else {
        ok := ReduceEqualizer(a);
      }
    }

    /** The middleware's auto-load step. */
    method LoadStep(before: StoreState, a: Action, snap: Snapshot, parse: JsValue -> JsNumber, coerce: JsValue -> JsNumber)
      requires Valid()
      modifies this, ui, equalizer, effects
      decreases Rank(a), 1
      ensures Valid()
      ensures State() == Loading(before, old(State()), a, snap, parse, coerce).state
      ensures writes == old(writes) + Loading(before, old(State()), a, snap, parse, coerce).writes
    {
      var load := AutoLoad(before, State(), a);
      if load.Some? {
        var _ := Dispatch(LoadPreset(load.value), snap, parse, coerce);
      }
    }

    /** The middleware's manual-change step, reading `view`. */
    method FlagStep(view: StoreState, a: Action, snap: Snapshot, parse: JsValue -> JsNumber, coerce: JsValue -> JsNumber)
      requires Valid()
      modifies this, ui, equalizer, effects
      decreases Rank(a), 1
      ensures Valid()
      ensures State() == Flagging(view, old(State()), a, snap, parse, coerce).state
      ensures writes == old(writes) + Flagging(view, old(State()), a, snap, parse, coerce).writes
    {
      var flag := ManualCheck(view, a, coerce);
      if flag.Some? {
        var _ := Dispatch(SetHasManualChanges(flag.value), snap, parse, coerce);
      }
    }

    /** The middleware after `next(action)`, given the state before the action. */
    method Continue(before: StoreState, a: Action, snap: Snapshot, parse: JsValue -> JsNumber, coerce: JsValue -> JsNumber)
      requires Valid()
      modifies this, ui, equalizer, effects
      decreases Rank(a), 2
      ensures Valid()
      ensures State() == Continued(before, old(State()), a, snap, parse, coerce).state
      ensures writes == old(writes) + Continued(before, old(State()), a, snap, parse, coerce).writes
    {
      var state := State();
      ghost var start := writes;
      LoadStep(before, a, snap, parse, coerce);
      ghost var o1 := Loading(before, state, a, snap, parse, coerce);
      var view := if snap == Fresh then State() else state;
      FlagStep(view, a, snap, parse, coerce);
      ghost var o2 := Flagging(view, o1.state, a, snap, parse, coerce);
      var w := Stored(view, a);
      if w.Some? {
        writes := writes + [w.value];
      }
      assert writes == start + o1.writes + o2.writes + WriteList(w);
      Concat4(start, o1.writes, o2.writes, WriteList(w));
    }

    /** `store.dispatch(a)`: the reducers, then the middleware's three steps. */
    method Dispatch(a: Action, snap: Snapshot, parse: JsValue -> JsNumber, coerce: JsValue -> JsNumber) returns (ok: bool)
      requires Valid()
      modifies this, ui, equalizer, effects
      decreases Rank(a), 3
      ensures Valid()
      ensures ok == Dispatched(old(State()), a, snap, parse, coerce).Ok?
      ensures ok ==> State() == Dispatched(old(State()), a, snap, parse, coerce).value.state
      ensures ok ==> writes == old(writes) + Dispatched(old(State()), a, snap, parse, coerce).value.writes
      ensures !ok ==> State() == old(State()) && writes == old(writes)
    {
      var stateBefore := State();
      ok := Reduce(a, parse);
      if ok {
        Continue(stateBefore, a, snap, parse, coerce);
      }
    }
  }

  // ---------------------------------------------------------------------
  // Properties

  /** The flag a follow-up `setHasManualChanges` carries is stored and nothing else happens: no load, no check, no write. */
  lemma FlagDispatch(st: StoreState, h: bool, snap: Snapshot, parse: JsValue -> JsNumber, coerce: JsValue -> JsNumber)
    ensures Dispatched(st, SetHasManualChanges(h), snap, parse, coerce)
         == Ok(Outcome(st.(equalizer := st.equalizer.(hasManualChanges := h)), []))
  {
    var a := SetHasManualChanges(h);
    var st1 := st.(equalizer := st.equalizer.(hasManualChanges := h));
    assert Reduced(st, a, parse) == Ok(st1);
    assert Loading(st, st1, a, snap, parse, coerce) == Outcome(st1, []);
    assert Flagging(st1, st1, a, snap, parse, coerce) == Outcome(st1, []);
    NotSynced(a);
    assert Stored(st1, a).None?;
    assert Continued(st, st1, a, snap, parse, coerce) == Outcome(st1, []);
  }

  /** Only `setSelectedPreset` can trigger the auto-load, and only under the source's five conditions. */
  lemma AutoLoadConditions(before: StoreState, state: StoreState, a: Action)
    ensures AutoLoad(before, state, a).Some? <==>
      a.SetSelectedPreset? && state.ui.isLoaded && |state.equalizer.presets| > 0 && Truthy(a.key)
      && !StrictEquals(a.key, before.equalizer.selectedPreset)
      && E.FindPreset(state.equalizer.presets, a.key).Some?
      && state.equalizer.presets[E.FindPreset(state.equalizer.presets, a.key).value].eq.Some?
  {
  }

  /** The manual-change check runs only for the five listed action types. */
  lemma CheckedTypes(a: Action)
    ensures TypeName(a) in CheckTypes <==> a.UpdateEqValue? || a.SetEq? || a.SetSelectedPreset? || a.LoadPreset? || a.ResetEqualizer?
  {
  }

  /** The three unsynced types differ from every listed one in length or in one letter. */
  lemma {:induction false} NotSynced(a: Action)
    requires a.SetPresets? || a.SetHasManualChanges? || a.SetIsLoaded?
    ensures TypeName(a) !in SyncTypes
  {
    var t := TypeName(a);
    forall i | 0 <= i < |SyncTypes|
      ensures SyncTypes[i] != t
    {
      if a.SetPresets? {
        assert |SyncTypes[i]| != 20 || SyncTypes[i][13] != 'P';
      } else {
        assert |SyncTypes[i]| != |t|;
      }
    }
  }

  /** Where each synced type sits in the list. */
  lemma Synced(a: Action)
    requires !(a.SetPresets? || a.SetHasManualChanges? || a.SetIsLoaded?)
    ensures TypeName(a) in SyncTypes
  {
    var t := TypeName(a);
    match a
    case SetEq(_) => assert t == SyncTypes[0];
    case UpdateEqValue(_, _) => assert t == SyncTypes[1];
    case SetVolume(_) => assert t == SyncTypes[2];
    case SetBalance(_) => assert t == SyncTypes[3];
    case SetMono(_) => assert t == SyncTypes[4];
    case SetInvert(_) => assert t == SyncTypes[5];
    case SetSelectedPreset(_) => assert t == SyncTypes[6];
    case LoadPreset(_) => assert t == SyncTypes[7];
    case AddPreset(_) => assert t == SyncTypes[8];
    case ResetEqualizer => assert t == SyncTypes[9];
    case UpdatePreset(_, _, _) => assert t == SyncTypes[10];
    case DeletePreset(_) => assert t == SyncTypes[11];
    case UpdateChorus(_, _) => assert t == SyncTypes[12];
    case UpdateConvolver(_, _) => assert t == SyncTypes[13];
    case UpdateCompressor(_, _) => assert t == SyncTypes[14];
  }

  /** Every action but `setPresets`, `setHasManualChanges` and the ui one writes to storage. */
  lemma StoredTypes(view: StoreState, a: Action)
    ensures Stored(view, a).Some? <==> !(a.SetPresets? || a.SetHasManualChanges? || a.SetIsLoaded?)
  {
    if a.SetPresets? || a.SetHasManualChanges? || a.SetIsLoaded? {
      NotSynced(a);
    } else {
      Synced(a);
    }
  }

  /** The equalizer action types without a capital P name no preset. */
  lemma EqualizerTypesWithoutPreset(a: Action)
    requires a.SetEq? || a.UpdateEqValue? || a.SetVolume? || a.SetBalance? || a.SetMono? || a.SetInvert?
      || a.SetHasManualChanges? || a.ResetEqualizer?
    ensures !Contains(TypeName(a), "Preset")
  {
    MissingHead(TypeName(a), "Preset");
  }

  /** Neither do the effects and ui types. */
  lemma OtherTypesWithoutPreset(a: Action)
    requires a.UpdateConvolver? || a.UpdateCompressor? || a.UpdateChorus? || a.SetIsLoaded?
    ensures !Contains(TypeName(a), "Preset")
  {
    MissingHead(TypeName(a), "Preset");
  }

  /** The action types that name a preset. */
  lemma PresetTypes(a: Action)
    ensures Contains(TypeName(a), "Preset") <==>
      a.SetPresets? || a.SetSelectedPreset? || a.LoadPreset? || a.AddPreset? || a.UpdatePreset? || a.DeletePreset?
  {
    var t := TypeName(a);
    if a.SetPresets? {
      assert t == "equalizer/setPresets" && t[13..19] == "Preset";
      ContainsAt(t, "Preset", 13);
    } else if a.AddPreset? {
      assert t == "equalizer/addPreset" && t[13..19] == "Preset";
      ContainsAt(t, "Preset", 13);
    } else if a.SetSelectedPreset? {
      assert t == "equalizer/setSelectedPreset" && t[21..27] == "Preset";
      ContainsAt(t, "Preset", 21);
    } else if a.LoadPreset? {
      assert t == "equalizer/loadPreset" && t[14..20] == "Preset";
      ContainsAt(t, "Preset", 14);
    } else if a.UpdatePreset? {
      assert t == "equalizer/updatePreset" && t[16..22] == "Preset";
      ContainsAt(t, "Preset", 16);
    } else if a.DeletePreset? {
      assert t == "equalizer/deletePreset" && t[16..22] == "Preset";
      ContainsAt(t, "Preset", 16);
    } else if a.UpdateConvolver? || a.UpdateCompressor? || a.UpdateChorus? || a.SetIsLoaded? {
      OtherTypesWithoutPreset(a);
    } else {
      EqualizerTypesWithoutPreset(a);
    }
  }

  /** A write carries the custom presets exactly for the five preset actions, and then nothing but the custom ones. */
  lemma StoredPresets(view: StoreState, a: Action)
    requires Stored(view, a).Some?
    ensures Stored(view, a).value.customPresets.Some? <==>
      a.SetSelectedPreset? || a.LoadPreset? || a.AddPreset? || a.UpdatePreset? || a.DeletePreset?
    ensures Stored(view, a).value.customPresets.Some? ==>
      forall p :: p in Stored(view, a).value.customPresets.value <==> p in view.equalizer.presets && p.isCustom
  {
    PresetTypes(a);
    StoredTypes(view, a);
  }

  /** `y` is `x` with at most the manual-change flag changed. */
  predicate SameButFlag(x: StoreState, y: StoreState)
  {
    x.(equalizer := x.equalizer.(hasManualChanges := y.equalizer.hasManualChanges)) == y
  }

  /** The manual-change step changes only the flag and writes nothing. */
  lemma FlaggingOnlyFlags(view: StoreState, current: StoreState, a: Action, snap: Snapshot, parse: JsValue -> JsNumber, coerce: JsValue -> JsNumber)
    ensures SameButFlag(current, Flagging(view, current, a, snap, parse, coerce).state)
    ensures Flagging(view, current, a, snap, parse, coerce).writes == []
  {
    var flag := ManualCheck(view, a, coerce);
    if flag.Some? {
      FlagDispatch(current, flag.value, snap, parse, coerce);
    }
  }

  /** Without an auto-load both snapshots are the same state, so the two readings agree. */
  lemma SnapshotsAgreeWithoutAutoLoad(s: StoreState, state: StoreState, a: Action, parse: JsValue -> JsNumber, coerce: JsValue -> JsNumber)
    requires AutoLoad(s, state, a).None?
    ensures Continued(s, state, a, Stale, parse, coerce) == Continued(s, state, a, Fresh, parse, coerce)
  {
    ContinuedWithoutLoad(s, state, a, Stale, parse, coerce);
    ContinuedWithoutLoad(s, state, a, Fresh, parse, coerce);
    var flag := ManualCheck(state, a, coerce);
    if flag.Some? {
      FlagDispatch(state, flag.value, Stale, parse, coerce);
      FlagDispatch(state, flag.value, Fresh, parse, coerce);
    }
  }

  /** Without an auto-load the check and the write read the reduced state, whichever the snapshot. */
  lemma ContinuedWithoutLoad(s: StoreState, state: StoreState, a: Action, snap: Snapshot, parse: JsValue -> JsNumber, coerce: JsValue -> JsNumber)
    requires AutoLoad(s, state, a).None?
    ensures var o := Flagging(state, state, a, snap, parse, coerce);
      Continued(s, state, a, snap, parse, coerce) == Outcome(o.state, o.writes + WriteList(Stored(state, a)))
  {
    NoLoading(s, state, a, snap, parse, coerce);
    ContinuedUnfold(s, state, a, snap, parse, coerce);
    var o := Flagging(state, state, a, snap, parse, coerce);
    assert [] + o.writes == o.writes;
  }

  lemma NoLoading(s: StoreState, state: StoreState, a: Action, snap: Snapshot, parse: JsValue -> JsNumber, coerce: JsValue -> JsNumber)
    requires AutoLoad(s, state, a).None?
    ensures Loading(s, state, a, snap, parse, coerce) == Outcome(state, [])
  {
  }

  /** `Continued` spelled out for any snapshot. */
  lemma ContinuedUnfold(s: StoreState, state: StoreState, a: Action, snap: Snapshot, parse: JsValue -> JsNumber, coerce: JsValue -> JsNumber)
    ensures var o1 := Loading(s, state, a, snap, parse, coerce);
      var view := if snap == Fresh then o1.state else state;
      var o2 := Flagging(view, o1.state, a, snap, parse, coerce);
      Continued(s, state, a, snap, parse, coerce) == Outcome(o2.state, o1.writes + o2.writes + WriteList(Stored(view, a)))
  {
  }

  /** A follow-up `loadPreset` loads the preset, may set the flag, and writes the loaded state with its custom presets. */
  lemma LoadDispatch(st: StoreState, k: JsValue, snap: Snapshot, parse: JsValue -> JsNumber, coerce: JsValue -> JsNumber)
    ensures var o := Dispatched(st, LoadPreset(k), snap, parse, coerce).value;
      var loaded := st.(equalizer := E.PresetLoaded(st.equalizer, k));
      SameButFlag(loaded, o.state) && o.writes == [Written(loaded, true)]
  {
    var load := LoadPreset(k);
    var loaded := st.(equalizer := E.PresetLoaded(st.equalizer, k));
    assert Reduced(st, load, parse) == Ok(loaded);
    assert Loading(st, loaded, load, snap, parse, coerce) == Outcome(loaded, []);
    FlaggingOnlyFlags(loaded, loaded, load, snap, parse, coerce);
    StoredTypes(loaded, load);
    PresetTypes(load);
    assert Dispatched(st, load, snap, parse, coerce) == Ok(Continued(st, loaded, load, snap, parse, coerce));
  }

  /**
   * With either reading, selecting a different preset that has an eq loads
   * that eq and keeps the selection and the preset list.
   */
  lemma AutoLoadApplies(s: StoreState, state: StoreState, a: Action, snap: Snapshot, parse: JsValue -> JsNumber, coerce: JsValue -> JsNumber)
    requires AutoLoad(s, state, a).Some?
    ensures var o := Continued(s, state, a, snap, parse, coerce);
      var ps := state.equalizer.presets;
      o.state.equalizer.eq == ps[E.FindPreset(ps, a.key).value].eq.value
      && o.state.equalizer.selectedPreset == a.key
      && o.state.equalizer.presets == ps
  {
    LoadDispatch(state, a.key, snap, parse, coerce);
    var o1 := Loading(s, state, a, snap, parse, coerce);
    var view := if snap == Fresh then o1.state else state;
    FlaggingOnlyFlags(view, o1.state, a, snap, parse, coerce);
  }

  /** A check that reads the state it updates leaves the flag equal to the manual-change predicate of that state. */
  lemma FlaggingAgrees(v: StoreState, a: Action, snap: Snapshot, parse: JsValue -> JsNumber, coerce: JsValue -> JsNumber)
    requires TypeName(a) in CheckTypes
    ensures var q := Flagging(v, v, a, snap, parse, coerce).state.equalizer;
      Hooks.SelectedCurve(v.ui.isLoaded, v.equalizer.selectedPreset, v.equalizer.presets).Some?
      ==> q.hasManualChanges == Hooks.ManualChanges(v.ui.isLoaded, v.equalizer.selectedPreset, v.equalizer.presets, v.equalizer.eq, coerce)
  {
    var q := v.equalizer;
    var curve := Hooks.SelectedCurve(v.ui.isLoaded, q.selectedPreset, q.presets);
    if curve.Some? {
      var h := Hooks.SomeChanged(q.eq, curve.value, coerce, 0);
      assert Hooks.ManualChanges(v.ui.isLoaded, q.selectedPreset, q.presets, q.eq, coerce) == h;
      if h != q.hasManualChanges {
        assert ManualCheck(v, a, coerce) == Some(h);
        FlagDispatch(v, h, snap, parse, coerce);
      } else {
        assert ManualCheck(v, a, coerce).None?;
      }
    }
  }

  /** Reading the state again after the auto-load, the check leaves the flag equal to the manual-change predicate of the final state. */
  lemma FreshFlagAgrees(s: StoreState, state: StoreState, a: Action, parse: JsValue -> JsNumber, coerce: JsValue -> JsNumber)
    requires a.UpdateEqValue? || a.SetEq? || a.SetSelectedPreset? || a.LoadPreset? || a.ResetEqualizer?
    ensures var o := Continued(s, state, a, Fresh, parse, coerce);
      var q := o.state.equalizer;
      Hooks.SelectedCurve(o.state.ui.isLoaded, q.selectedPreset, q.presets).Some?
      ==> q.hasManualChanges == Hooks.ManualChanges(o.state.ui.isLoaded, q.selectedPreset, q.presets, q.eq, coerce)
  {
    var v := Loading(s, state, a, Fresh, parse, coerce).state;
    FlaggingOnlyFlags(v, v, a, Fresh, parse, coerce);
    CheckedTypes(a);
    FlaggingAgrees(v, a, Fresh, parse, coerce);
    var o := Flagging(v, v, a, Fresh, parse, coerce).state;
    assert o.ui == v.ui && o.equalizer.selectedPreset == v.equalizer.selectedPreset;
    assert o.equalizer.presets == v.equalizer.presets && o.equalizer.eq == v.equalizer.eq;
  }

  /** Reading the state again after the auto-load, the last storage write holds the final state's persisted fields. */
  lemma FreshWriteIsFinal(s: StoreState, state: StoreState, a: Action, parse: JsValue -> JsNumber, coerce: JsValue -> JsNumber)
    requires !(a.SetPresets? || a.SetHasManualChanges? || a.SetIsLoaded?)
    ensures var o := Continued(s, state, a, Fresh, parse, coerce);
      |o.writes| > 0 && o.writes[|o.writes| - 1] == Written(o.state, Contains(TypeName(a), "Preset"))
  {
    var o1 := Loading(s, state, a, Fresh, parse, coerce);
    var o2 := Flagging(o1.state, o1.state, a, Fresh, parse, coerce);
    ContinuedUnfold(s, state, a, Fresh, parse, coerce);
    FreshTail(o1.state, a, parse, coerce);
    var last := Written(o2.state, Contains(TypeName(a), "Preset"));
    LastOf(o1.writes, o2.writes, WriteList(Stored(o1.state, a)), last);
  }

  lemma LastOf<T>(a: seq<T>, b: seq<T>, c: seq<T>, x: T)
    requires b + c == [x]
    ensures |a + b + c| > 0 && (a + b + c)[|a + b + c| - 1] == x
  {
    assert a + b + c == a + [x];
  }

  /** After the check on a state `v`, the write is `v` with its final flag. */
  lemma FreshTail(v: StoreState, a: Action, parse: JsValue -> JsNumber, coerce: JsValue -> JsNumber)
    requires !(a.SetPresets? || a.SetHasManualChanges? || a.SetIsLoaded?)
    ensures var o2 := Flagging(v, v, a, Fresh, parse, coerce);
      o2.writes + WriteList(Stored(v, a)) == [Written(o2.state, Contains(TypeName(a), "Preset"))]
  {
    var o2 := Flagging(v, v, a, Fresh, parse, coerce);
    FlaggingOnlyFlags(v, v, a, Fresh, parse, coerce);
    StoredTypes(v, a);
    WrittenIgnoresFlag(v, o2.state, Contains(TypeName(a), "Preset"));
  }

  /** The storage record does not hold the manual-change flag. */
  lemma WrittenIgnoresFlag(x: StoreState, y: StoreState, withPresets: bool)
    requires SameButFlag(x, y)
    ensures Written(x, withPresets) == Written(y, withPresets)
  {
  }

  /** Ten bands at +6 dB. */
  const Loud: seq<JsValue> := [Num(6.0), Num(6.0), Num(6.0), Num(6.0), Num(6.0), Num(6.0), Num(6.0), Num(6.0), Num(6.0), Num(6.0)]

  /** A loaded popup with the flat default and one custom preset, the default selected and unchanged. */
  const Demo: StoreState := StoreState(
    U.InitialUi.(isLoaded := true),
    E.EqualizerState(E.FlatEq, Num(2.0),
      [E.EqPreset("default", "default", Some(E.FlatEq), false), E.EqPreset("custom_1", "Loud", Some(Loud), true)],
      JStr("default"), false, Num(0.0), JBool(false), JBool(false)),
    F.InitialEffects)

  /** The demo state once `setSelectedPreset("custom_1")` has been reduced. */
  const DemoSelected: StoreState := Demo.(equalizer := Demo.equalizer.(selectedPreset := JStr("custom_1")))

  /** In the demo state, `custom_1` is the second preset, and selecting it triggers the auto-load. */
  lemma DemoSelects(parse: JsValue -> JsNumber)
    ensures Reduced(Demo, SetSelectedPreset(JStr("custom_1")), parse) == Ok(DemoSelected)
    ensures E.FindPreset(Demo.equalizer.presets, JStr("custom_1")) == Some(1)
    ensures AutoLoad(Demo, DemoSelected, SetSelectedPreset(JStr("custom_1"))) == Some(JStr("custom_1"))
  {
    assert !E.HasKey(Demo.equalizer.presets[0], JStr("custom_1"));
  }

  /** The stale check compares the flat curve with the loud one and asks for the flag to be raised. */
  lemma DemoStaleCheck(coerce: JsValue -> JsNumber)
    ensures ManualCheck(DemoSelected, SetSelectedPreset(JStr("custom_1")), coerce) == Some(true)
  {
    DemoSelects(coerce);
    assert TypeName(SetSelectedPreset(JStr("custom_1"))) == CheckTypes[2];
    assert Hooks.SelectedCurve(true, JStr("custom_1"), Demo.equalizer.presets) == Some(Loud);
    assert Hooks.ChangedAt(E.FlatEq, Loud, 0, coerce);
    assert Hooks.SomeChanged(E.FlatEq, Loud, coerce, 0);
  }

  /**
   * As written: selecting the custom preset loads its curve, yet the stale
   * check compares the old flat curve with it and raises the manual-change
   * flag, and the last storage write pairs the new selection with the old
   * flat curve.
   */
  lemma StaleSnapshotMisflags(parse: JsValue -> JsNumber, coerce: JsValue -> JsNumber)
    ensures Dispatched(Demo, SetSelectedPreset(JStr("custom_1")), Stale, parse, coerce)
         == Ok(Continued(Demo, DemoSelected, SetSelectedPreset(JStr("custom_1")), Stale, parse, coerce))
    ensures var o := Continued(Demo, DemoSelected, SetSelectedPreset(JStr("custom_1")), Stale, parse, coerce);
      o.state.equalizer.eq == Loud
      && o.state.equalizer.hasManualChanges
      && !Hooks.ManualChanges(true, JStr("custom_1"), Demo.equalizer.presets, Loud, coerce)
      && |o.writes| == 2
      && o.writes[1].eq == E.FlatEq && o.writes[1].selectedPreset == JStr("custom_1")
  {
    var a := SetSelectedPreset(JStr("custom_1"));
    DemoSelects(parse);
    DemoStaleCheck(coerce);
    AutoLoadApplies(Demo, DemoSelected, a, Stale, parse, coerce);
    LoadDispatch(DemoSelected, JStr("custom_1"), Stale, parse, coerce);
    Hooks.SameCurveNoChanges(true, JStr("custom_1"), Demo.equalizer.presets, Loud, coerce);
    var o1 := Loading(Demo, DemoSelected, a, Stale, parse, coerce);
    FlagDispatch(o1.state, true, Stale, parse, coerce);
    StoredTypes(DemoSelected, a);
  }
}
