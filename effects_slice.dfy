/**
 * The popup's effects slice (src/entrypoints/popup/store/slices/effectsSlice.js):
 * the parameters of the convolver, compressor and chorus as plain objects,
 * with the per-key type check that `loadInitialData.fulfilled` applies to
 * stored values.
 */
module EffectsSlice {
  import opened Wrappers
  import opened Json

  /** An effect's parameters: a plain object from names to values. */
  type Params = map<string, JsValue>

  datatype EffectsState = EffectsState(
    pitch: JsValue,
    convolver: Params,
    compressor: Params,
    chorus: Params,
    advanced: JsValue,
    isChorus: JsValue,
    isConvolver: JsValue,
    isCompressor: JsValue,
    isMono: JsValue,
    isInvert: JsValue,
    balance: JsValue)

  const DefaultConvolver: Params := map[
    "highCut" := Num(22050.0), "lowCut" := Num(20.0), "dryLevel" := Num(1.0),
    "wetLevel" := Num(0.0), "level" := Num(1.0), "bypass" := JBool(false)]

  const DefaultCompressor: Params := map[
    "threshold" := Num(0.0), "release" := Num(0.2), "makeupGain" := Num(1.0), "attack" := Num(0.0),
    "ratio" := Num(4.0), "knee" := Num(10.0), "bypass" := JBool(false), "automakeup" := JBool(false)]

  const DefaultChorus: Params := map[
    "depth" := Num(0.7), "rate" := Num(0.0), "feedback" := Num(0.0), "delay" := Num(0.0), "bypass" := JBool(false)]

  const InitialEffects: EffectsState := EffectsState(
    JObj(map[]), DefaultConvolver, DefaultCompressor, DefaultChorus, JObj(map[]),
    JBool(false), JBool(false), JBool(false), JBool(false), JBool(false), Num(0.0))

  /** `parseFloat(value) || 0`: the parsed number, or 0 when it is NaN or zero. */
  function ParsedOrZero(value: JsValue, parse: JsValue -> JsNumber): (r: JsValue)
    ensures r.JNum? && !r.n.NaN?
    ensures r == Num(0.0) || (r == JNum(parse(value)) && parse(value) != Finite(0.0))
    ensures !parse(value).NaN? && parse(value) != Finite(0.0) ==> r == JNum(parse(value))
  {
    var n := parse(value);
    if Truthy(JNum(n)) then JNum(n) else Num(0.0)
  }

  /** A stored parameter value is taken when its `typeof` matches the default's and it is a boolean or a number that is not NaN. */
  predicate Accepts(value: JsValue, default: JsValue)
  {
    TypeOf(value) == TypeOf(default)
    && (TypeOf(value) == "boolean" || (TypeOf(value) == "number" && IsNumberNotNaN(value)))
  }

  /** The stored keys, among `done`, that name a default parameter and pass the check. */
  function AcceptedIn(stored: Params, defaults: Params, done: set<string>): Params
  {
    map k | k in stored.Keys && k in done && k in defaults.Keys && Accepts(stored[k], defaults[k]) :: stored[k]
  }

  function Accepted(stored: Params, defaults: Params): Params
  {
    AcceptedIn(stored, defaults, stored.Keys)
  }

  /**
   * The validation loop of the load: start from a copy of the current
   * parameters and take each stored key that names a default parameter and
   * passes the check.
   */
  method MergeChecked(current: Params, stored: Params, defaults: Params) returns (valid: Params)
    ensures valid == current + Accepted(stored, defaults)
  {
    valid := current;
    var todo := stored.Keys;
    ghost var done: set<string> := {};
    while todo != {}
      invariant todo !! done && todo + done == stored.Keys
      invariant valid == current + AcceptedIn(stored, defaults, done)
      decreases |todo|
    {
      var key :| key in todo;
      ghost var prev := valid;
      if key in defaults {
        var value, default := stored[key], defaults[key];
        if TypeOf(value) == TypeOf(default) {
          if TypeOf(value) == "boolean" {
            valid := valid[key := value];
          } else if TypeOf(value) == "number" && IsNumberNotNaN(value) {
            valid := valid[key := value];
          }
        }
      }
      assert valid == if key in defaults && Accepts(stored[key], defaults[key]) then prev[key := stored[key]] else prev;
      AcceptedStep(current, stored, defaults, done, key);
      assert (todo - {key}) + (done + {key}) == todo + done;
      todo, done := todo - {key}, done + {key};
    }
  }

  /** One more key of the loop adds exactly that key's accepted value. */
  lemma AcceptedStep(current: Params, stored: Params, defaults: Params, done: set<string>, key: string)
    requires key in stored && key !in done
    ensures current + AcceptedIn(stored, defaults, done + {key}) ==
      if key in defaults && Accepts(stored[key], defaults[key])
      then (current + AcceptedIn(stored, defaults, done))[key := stored[key]]
      else current + AcceptedIn(stored, defaults, done)
  {
    var before, after := AcceptedIn(stored, defaults, done), AcceptedIn(stored, defaults, done + {key});
    if key in defaults && Accepts(stored[key], defaults[key]) {
      assert after == before[key := stored[key]];
    } else {
      assert after == before;
    }
  }

  /** A stored `pitch` or `advanced` is taken only when it is a non-array object. */
  function StoredObject(cur: JsValue, v: JsValue): JsValue
  {
    if Truthy(v) && TypeOf(v) == "object" && !v.JNull? && !IsArray(v) then v else cur
  }

  /** The state `loadInitialData.fulfilled` leaves, given the stored `prefs`. */
  function Loaded(s: EffectsState, prefs: JsValue): EffectsState
  {
    var from := Or(prefs, JObj(map[]));
    var convolver, chorus := Get(from, "convolver"), Get(from, "chorus");
    s.(pitch := StoredObject(s.pitch, Get(from, "pitch")),
       convolver := if Truthy(convolver) && convolver.JObj? then s.convolver + Accepted(convolver.fields, DefaultConvolver) else s.convolver,
       chorus := if Truthy(chorus) && chorus.JObj? then s.chorus + Accepted(chorus.fields, DefaultChorus) else s.chorus,
       advanced := StoredObject(s.advanced, Get(from, "advanced")))
  }

  /** The fields of an `initializeFromStorage` payload; the effect parameters are objects or absent. */
  datatype InitPayload = InitPayload(pitch: JsValue, convolver: Option<Params>, chorus: Option<Params>, advanced: JsValue)

  /** `if (v && Object.keys(v).length > 0) cur = {...cur, ...v}`. */
  function Spread(cur: Params, v: Option<Params>): Params
  {
    if v.Some? && |v.value| > 0 then cur + v.value else cur
  }

  /** `if (v) cur = v`. */
  function IfTruthy(cur: JsValue, v: JsValue): JsValue
  {
    if Truthy(v) then v else cur
  }

  /** `initializeFromStorage`: a non-empty stored object is spread over the current parameters. */
  function Initialized(s: EffectsState, p: InitPayload): EffectsState
  {
    s.(pitch := IfTruthy(s.pitch, p.pitch),
       convolver := Spread(s.convolver, p.convolver),
       chorus := Spread(s.chorus, p.chorus),
       advanced := IfTruthy(s.advanced, p.advanced))
  }

  class Effects {
    var pitch: JsValue
    var convolver: Params
    var compressor: Params
    var chorus: Params
    var advanced: JsValue
    var isChorus: JsValue
    var isConvolver: JsValue
    var isCompressor: JsValue
    var isMono: JsValue
    var isInvert: JsValue
    var balance: JsValue

    function State(): EffectsState
      reads this
    {
      EffectsState(pitch, convolver, compressor, chorus, advanced, isChorus, isConvolver, isCompressor, isMono, isInvert, balance)
    }

    constructor ()
      ensures State() == InitialEffects
    {
      pitch, convolver, compressor, chorus, advanced := JObj(map[]), DefaultConvolver, DefaultCompressor, DefaultChorus, JObj(map[]);
      isChorus, isConvolver, isCompressor, isMono, isInvert, balance := JBool(false), JBool(false), JBool(false), JBool(false), JBool(false), Num(0.0);
    }

    method SetPitch(payload: JsValue)
      modifies this
      ensures State() == old(State()).(pitch := payload)
    {
      pitch := payload;
    }

    method SetConvolver(payload: Params)
      modifies this
      ensures State() == old(State()).(convolver := payload)
    {
      convolver := payload;
    }

    /** `updateConvolver({name, value})` with `parse` standing for `parseFloat`. */
    method UpdateConvolver(name: string, value: JsValue, parse: JsValue -> JsNumber)
      modifies this
      ensures State() == old(State()).(convolver := old(convolver)[name := ParsedOrZero(value, parse)])
    {
      convolver := convolver[name := ParsedOrZero(value, parse)];
    }

    method SetCompressor(payload: Params)
      modifies this
      ensures State() == old(State()).(compressor := payload)
    {
      compressor := payload;
    }

    method UpdateCompressor(name: string, value: JsValue)
      modifies this
      ensures State() == old(State()).(compressor := old(compressor)[name := value])
    {
      compressor := compressor[name := value];
    }

    method SetChorus(payload: Params)
      modifies this
      ensures State() == old(State()).(chorus := payload)
    {
      chorus := payload;
    }

    method UpdateChorus(name: string, value: JsValue)
      modifies this
      ensures State() == old(State()).(chorus := old(chorus)[name := value])
    {
      chorus := chorus[name := value];
    }

    method SetAdvanced(payload: JsValue)
      modifies this
      ensures State() == old(State()).(advanced := payload)
    {
      advanced := payload;
    }

    method SetIsChorus(payload: JsValue)
      modifies this
      ensures State() == old(State()).(isChorus := payload)
    {
      isChorus := payload;
    }

    method SetIsConvolver(payload: JsValue)
      modifies this
      ensures State() == old(State()).(isConvolver := payload)
    {
      isConvolver := payload;
    }

    method SetIsCompressor(payload: JsValue)
      modifies this
      ensures State() == old(State()).(isCompressor := payload)
    {
      isCompressor := payload;
    }

    method ResetCompressor()
      modifies this
      ensures State() == old(State()).(compressor := DefaultCompressor)
    {
      compressor := DefaultCompressor;
    }

    method ResetConvolver()
      modifies this
      ensures State() == old(State()).(convolver := DefaultConvolver)
    {
      convolver := DefaultConvolver;
    }

    method ResetChorus()
      modifies this
      ensures State() == old(State()).(chorus := DefaultChorus)
    {
      chorus := DefaultChorus;
    }

    method ResetPitch()
      modifies this
      ensures State() == old(State()).(pitch := JObj(map["feedback" := Num(0.4)]))
    {
      pitch := JObj(map["feedback" := Num(0.4)]);
    }

    method InitializeFromStorage(p: InitPayload)
      modifies this
      ensures State() == Initialized(old(State()), p)
    {
      pitch := IfTruthy(pitch, p.pitch);
      convolver := Spread(convolver, p.convolver);
      chorus := Spread(chorus, p.chorus);
      advanced := IfTruthy(advanced, p.advanced);
    }

    /** `loadInitialData.fulfilled` with the stored `prefs`. */
    method LoadFulfilled(prefs: JsValue)
      modifies this
      ensures State() == Loaded(old(State()), prefs)
    {
      ghost var s := State();
      var from := Or(prefs, JObj(map[]));
      var p := StoredObject(pitch, Get(from, "pitch"));
      var conv, chor := convolver, chorus;
      var c := Get(from, "convolver");
      if Truthy(c) {
        if TypeOf(c) == "object" && !c.JNull? && !IsArray(c) {
          conv := MergeChecked(convolver, c.fields, DefaultConvolver);
        }
      }
      var h := Get(from, "chorus");
      if Truthy(h) {
        if TypeOf(h) == "object" && !h.JNull? && !IsArray(h) {
          chor := MergeChecked(chorus, h.fields, DefaultChorus);
        }
      }
      var a := StoredObject(advanced, Get(from, "advanced"));
      ObjectCheck(c);
      ObjectCheck(h);
      assert Loaded(s, prefs) == s.(pitch := p, convolver := conv, chorus := chor, advanced := a);
      pitch, convolver, chorus, advanced := p, conv, chor, a;
    }
  }

  // ---------------------------------------------------------------------
  // Properties

  /** Every parameter is present in the defaults with the default's type, and no number is NaN. */
  predicate WellTyped(m: Params, defaults: Params)
  {
    forall k :: k in m ==> k in defaults && TypeOf(m[k]) == TypeOf(defaults[k]) && !(m[k].JNum? && m[k].n.NaN?)
  }

  /** The check keeps prior values for unknown or ill-typed keys and takes the stored value otherwise. */
  lemma MergeCheckedKeys(current: Params, stored: Params, defaults: Params, k: string)
    ensures var r := current + Accepted(stored, defaults);
      (k in stored && k in defaults && Accepts(stored[k], defaults[k]) ==> k in r && r[k] == stored[k])
      && (!(k in stored && k in defaults && Accepts(stored[k], defaults[k])) ==>
            (k in r <==> k in current) && (k in current ==> r[k] == current[k]))
  {
  }

  /** Loading never adds an unknown key, never changes a parameter's type and never stores NaN. */
  lemma LoadKeepsWellTyped(s: EffectsState, prefs: JsValue)
    requires WellTyped(s.convolver, DefaultConvolver) && WellTyped(s.chorus, DefaultChorus)
    ensures WellTyped(Loaded(s, prefs).convolver, DefaultConvolver)
    ensures WellTyped(Loaded(s, prefs).chorus, DefaultChorus)
  {
    var from := Or(prefs, JObj(map[]));
    var c, h := Get(from, "convolver"), Get(from, "chorus");
    if c.JObj? { AcceptedWellTyped(s.convolver, c.fields, DefaultConvolver); }
    if h.JObj? { AcceptedWellTyped(s.chorus, h.fields, DefaultChorus); }
  }

  lemma AcceptedWellTyped(current: Params, stored: Params, defaults: Params)
    requires WellTyped(current, defaults)
    ensures WellTyped(current + Accepted(stored, defaults), defaults)
  {
    var r := current + Accepted(stored, defaults);
    forall k | k in r
      ensures k in defaults && TypeOf(r[k]) == TypeOf(defaults[k]) && !(r[k].JNum? && r[k].n.NaN?)
    {
      if k in Accepted(stored, defaults) {
        assert Accepts(stored[k], defaults[k]);
      }
    }
  }

  /** The defaults are well typed, and a load over them keeps exactly their key sets. */
  lemma DefaultsWellTyped(prefs: JsValue)
    ensures WellTyped(DefaultConvolver, DefaultConvolver) && WellTyped(DefaultChorus, DefaultChorus)
    ensures Loaded(InitialEffects, prefs).convolver.Keys == DefaultConvolver.Keys
    ensures Loaded(InitialEffects, prefs).chorus.Keys == DefaultChorus.Keys
  {
  }

  /** A stored `pitch` or `advanced` is taken exactly when it is a non-array object; otherwise nothing changes. */
  lemma LoadedObjects(s: EffectsState, prefs: JsValue)
    ensures var p := Get(Or(prefs, JObj(map[])), "pitch");
      Loaded(s, prefs).pitch == (if p.JObj? then p else s.pitch)
    ensures var a := Get(Or(prefs, JObj(map[])), "advanced");
      Loaded(s, prefs).advanced == (if a.JObj? then a else s.advanced)
    ensures Loaded(s, prefs).compressor == s.compressor
    ensures Loaded(s, prefs).(pitch := s.pitch, convolver := s.convolver, chorus := s.chorus, advanced := s.advanced) == s
  {
  }

  /** Spreading an empty object is skipped, and spreading keeps every current key. */
  lemma InitializedMerge(s: EffectsState, p: InitPayload, k0: string)
    ensures Initialized(s, p).convolver.Keys == s.convolver.Keys + (if p.convolver.Some? then p.convolver.value.Keys else {})
    ensures forall k :: k in s.convolver && !(p.convolver.Some? && k in p.convolver.value) ==>
      Initialized(s, p).convolver[k] == s.convolver[k]
    ensures p.chorus.Some? && k0 in p.chorus.value ==> Initialized(s, p).chorus[k0] == p.chorus.value[k0]
  {
  }
}
