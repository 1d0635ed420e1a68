/**
 * The offscreen document of offscreen.ts: a record of AudioEngines keyed
 * by tab id and the message listener that creates, drives and disposes of
 * them.  A record key is the id converted to a property name, so a message
 * without a tabId reaches the entry stored under "undefined"; the model
 * keys the map by Option<int> for that reason.
 */
module Offscreen {
  import opened Wrappers
  import Engine

  /** The settings every engine of this document starts from, and reset_equalizer restores. */
  const DefaultSettings: Engine.Settings := Engine.Settings(
    false, false,
    Engine.CompressorSettings(-20.0, 0.0, 250.0, 1.0, 4.0, 5.0, false, false),
    Engine.ConvolverSettings(22050.0, 20.0, 1.0, 1.0, 1.0, false),
    Engine.ChorusSettings(0.0, 0.7, 0.4, 0.0045),
    false, false, false, 1.0, 0.0,
    [0.0, 0.0, 0.0, 0.0, 0.0, 0.0, 0.0, 0.0, 0.0, 0.0])

  /** The defaults: ten flat bands, unit volume, centred balance, mono, invert and the effects off. */
  lemma DefaultsAreNeutral()
    ensures |DefaultSettings.eq| == Engine.BandCount
    ensures forall i :: 0 <= i < Engine.BandCount ==> DefaultSettings.eq[i] == 0.0
    ensures DefaultSettings.volume == 1.0 && DefaultSettings.balance == 0.0
    ensures !DefaultSettings.isMono && !DefaultSettings.isInvert
    ensures !DefaultSettings.isPitch && !DefaultSettings.isChorus && !DefaultSettings.isConvolver
  {
  }

  /** The operations of the listener's switch. */
  datatype Op = Volume | Balance | Mono | Invert | Equalizer | Compressor | Pitch | Convolver | Chorus | ResetEqualizer | Close | UnknownOp

  /** The switch: which case a command name falls into. */
  function OpOf(command: string): (op: Op)
    ensures op == Volume <==> command == "setVolume" || command == "change_volume"
    ensures op == Close <==> command == "closeAudio" || command == "disposeTab"
  {
    if command == "setVolume" || command == "change_volume" then Volume
    else if command == "setBalance" || command == "change_balance" then Balance
    else if command == "setMono" || command == "change_mono" then Mono
    else if command == "setInvert" || command == "change_invert" then Invert
    else if command == "change_equalizer" then Equalizer
    else if command == "change_compressor" then Compressor
    else if command == "change_pitch" then Pitch
    else if command == "change_convolver" then Convolver
    else if command == "change_chorus" then Chorus
    else if command == "reset_equalizer" then ResetEqualizer
    else if command == "closeAudio" || command == "disposeTab" then Close
    else UnknownOp
  }

  /** The old and the new name of a command reach the same case. */
  lemma AliasesAgree()
    ensures OpOf("setVolume") == OpOf("change_volume") == Volume
    ensures OpOf("setBalance") == OpOf("change_balance") == Balance
    ensures OpOf("setMono") == OpOf("change_mono") == Mono
    ensures OpOf("setInvert") == OpOf("change_invert") == Invert
    ensures OpOf("closeAudio") == OpOf("disposeTab") == Close
  {
  }

  /** A message's `value`: `undefined`, `null`, a number, a flag, band gains, or any other value (an object, a string). */
  datatype Value = Missing | Null | Number(r: real) | Flag(b: bool) | Gains(g: seq<real>) | Other

  datatype Message = Message(
    target: string, name: Option<string>, kind: Option<string>,
    streamId: Option<string>, tabId: Option<int>, value: Value)

  predicate TruthyString(s: Option<string>)
  {
    s.Some? && s.value != ""
  }

  /** `name || type`. */
  function Command(m: Message): (c: Option<string>)
    ensures TruthyString(m.name) ==> c == m.name
    ensures !TruthyString(m.name) ==> c == m.kind
  {
    if TruthyString(m.name) then m.name else m.kind
  }

  /** The case a message reaches. */
  function OpOfMessage(m: Message): Op
  {
    match Command(m)
    case None => UnknownOp
    case Some(c) => OpOf(c)
  }

  /** The value has the type its operation reads: a number, a flag, or ten band gains. */
  predicate Fits(op: Op, v: Value)
  {
    match op
    case Volume => v.Number?
    case Balance => v.Number?
    case Pitch => v.Number?
    case Mono => v.Flag?
    case Invert => v.Flag?
    case Equalizer => v.Gains? && |v.g| == Engine.BandCount
    case _ => true
  }

  /** startRecording reads an optional volume: absent, a number or a flag. */
  predicate MessageOk(m: Message)
  {
    if m.name == Some("startRecording") then m.value.Missing? || m.value.Number? || m.value.Flag?
    else Fits(OpOfMessage(m), m.value)
  }

  /**
   * What `sendResponse` is called with; `NotHandled` is the listener returning
   * false without a reply, and `Threw` the listener throwing before it replies.
   */
  datatype Response = NotHandled | Threw | Status(status: bool, message: Option<string>, error: Option<string>)

  /**
   * The cases whose engine method throws before `sendResponse` is reached:
   * `changeCompressor` reads `compressorValues.threshold`, and every engine
   * has a compressor.  Pitch, chorus and convolver exist only when the
   * settings ask for them, and the defaults do not.
   */
  predicate Throws(op: Op, v: Value)
  {
    op.Compressor? && (v.Missing? || v.Null?)
  }

  /**
   * What the browser provides a new engine with: the error getUserMedia
   * rejects with, if any, and what the pitch shifter needs from the audio
   * context.
   */
  datatype Env = Env(mediaError: Option<string>, periodSamples: nat, now: real, sqrt: real -> real)

  /** The engine settings after a switch case that leaves the engine registered. */
  function Apply(s: Engine.Settings, op: Op, v: Value): (r: Engine.Settings)
  {
    match op
    case Volume => if v.Number? then s.(volume := v.r) else s
    case Balance => if v.Number? then s.(balance := v.r) else s
    case Mono => if v.Flag? then s.(isMono := v.b) else s
    case Invert => if v.Flag? then s.(isInvert := v.b) else s
    case Equalizer => if v.Gains? then s.(eq := v.g) else s
    case ResetEqualizer => DefaultSettings
    case _ => s
  }

  /** Only volume, balance, mono, invert, equalizer and reset_equalizer change an engine's settings. */
  lemma ApplyKeepsOthers(s: Engine.Settings, op: Op, v: Value)
    requires op.Compressor? || op.Pitch? || op.Convolver? || op.Chorus? || op.Close? || op.UnknownOp?
    ensures Apply(s, op, v) == s
  {
  }

  /** Setting a flag to its current value changes nothing. */
  lemma SameFlagKeeps(s: Engine.Settings, b: bool)
    ensures b == s.isMono ==> Apply(s, Mono, Flag(b)) == s
    ensures b == s.isInvert ==> Apply(s, Invert, Flag(b)) == s
  {
  }

  /** The number the AudioParam setter makes of startRecording's volume. */
  function VolumeNumber(v: Value): (r: real)
    requires v.Number? || v.Flag?
    ensures v.Number? ==> r == v.r
    ensures v.Flag? ==> r == if v.b then 1.0 else 0.0
  {
    if v.Number? then v.r else if v.b then 1.0 else 0.0
  }

  /** The objects that make up one engine. */
  ghost function Parts(e: Engine.AudioEngine): set<object>
  {
    {e, e.graph, e.leftGain, e.rightGain, e.monoGain, e.audioGain} + (if e.pitch != null then {e.pitch} else {})
  }

  /** An engine none of whose objects changed is still valid. */
  twostate lemma StillValid(e: Engine.AudioEngine)
    requires old(e.Valid()) && unchanged(e, e.graph)
    ensures e.Valid()
  {
  }

  /** `new AudioEngine(tabId, defaultSettings, ...)`; a missing id becomes 0 as the engine's numeric tab id. */
  method NewEngine(tabId: Option<int>, env: Env) returns (e: Engine.AudioEngine)
    ensures fresh(Parts(e)) && e.Valid()
    ensures e.settings == DefaultSettings && e.tabId == (if tabId.Some? then tabId.value else 0)
  {
    e := new Engine.AudioEngine(if tabId.Some? then tabId.value else 0, DefaultSettings, env.periodSamples, env.now, env.sqrt);
    ghost var core: set<object> := {e, e.graph, e.leftGain, e.rightGain, e.monoGain, e.audioGain};
    assert fresh(core);
  }

  /** The switch cases that call an engine method. */
  method Dispatch(e: Engine.AudioEngine, op: Op, v: Value)
    requires e.Valid() && Fits(op, v) && !op.UnknownOp? && !op.Close?
    modifies Parts(e)
    ensures e.Valid()
    ensures e.settings == Apply(old(e.settings), op, v)
    ensures op.Pitch? && e.pitch != null ==> e.pitch.value == v.r
  {
    match op {
      case Volume => e.SetVolume(v.r);
      case Balance => e.SetPan(v.r);
      case Mono => e.SetMono(v.b);
      case Invert => e.SetInvert(v.b);
      case Equalizer =>
        Engine.TunedIsBanded(e.filters, e.settings.eq);
        e.SetEq(v.g);
      case Pitch => e.ChangePitch(v.r);
      case ResetEqualizer => e.Reset(DefaultSettings);
      case _ =>
    }
  }

  class Document {
    var tabs: map<Option<int>, Engine.AudioEngine>
    /** The objects of the registered engines. */
    ghost var Repr: set<object>

    /** Every registered engine is working, and no two engines share an object. */
    ghost predicate Valid()
      reads this, Repr
    {
      this !in Repr
      && (forall k | k in tabs :: Parts(tabs[k]) <= Repr)
      && (forall k | k in tabs :: tabs[k].Valid())
      && (forall k, l | k in tabs && l in tabs && k != l :: Parts(tabs[k]) !! Parts(tabs[l]))
    }

    constructor()
      ensures Valid() && tabs == map[]
    {
      tabs := map[];
      Repr := {};
    }

    /**
     * cleanupTab: destroy the engine and delete the entry; nothing happens
     * without an entry.  The entry leaves the record before the engine is
     * closed, so that the record never holds a closed engine; the end state
     * is the one the source reaches.
     */
    method CleanupTab(tabId: Option<int>)
      requires Valid()
      modifies this, if tabId in tabs then {tabs[tabId], tabs[tabId].graph} else {}
      ensures Valid()
      ensures tabs == old(tabs) - {tabId}
      ensures tabId in old(tabs) ==> old(tabs[tabId]).closed
      ensures tabId !in old(tabs) ==> unchanged(this)
    {
      if tabId !in tabs {
        return;
      }
      var e := Unregister(tabId);
      e.Destroy();
      forall k | k in tabs
        ensures tabs[k].Valid()
      {
        StillValid(tabs[k]);
      }
    }

    /** `delete tabs[tabId]`: the engine leaves the record and shares no object with those that stay. */
    method Unregister(tabId: Option<int>) returns (e: Engine.AudioEngine)
      requires Valid() && tabId in tabs
      modifies this
      ensures tabs == old(tabs) - {tabId} && e == old(tabs[tabId]) && Repr == old(Repr)
      ensures Valid() && forall k | k in tabs :: Parts(tabs[k]) !! Parts(e)
    {
      e := tabs[tabId];
      tabs := tabs - {tabId};
      RemovalKeepsValid(tabId);
    }

    /** Removing an entry, and changing nothing else, keeps the document valid. */
    twostate lemma RemovalKeepsValid(tabId: Option<int>)
      requires old(Valid()) && tabId in old(tabs)
      requires tabs == old(tabs) - {tabId} && Repr == old(Repr) && unchanged(Repr)
      ensures Valid() && forall k | k in tabs :: Parts(tabs[k]) !! Parts(old(tabs[tabId]))
    {
      forall k | k in tabs
        ensures tabs[k] == old(tabs[k]) && tabs[k].Valid()
      {
        StillValid(tabs[k]);
      }
    }

    /** captureTab with an open stream: a new engine on the default settings replaces any entry. */
    method CaptureTab(tabId: Option<int>, env: Env)
      requires Valid()
      modifies this
      ensures Valid()
      ensures tabs.Keys == old(tabs.Keys) + {tabId}
      ensures forall k | k in old(tabs) && k != tabId :: tabs[k] == old(tabs[k])
      ensures fresh(Parts(tabs[tabId]))
      ensures tabs[tabId].settings == DefaultSettings && tabs[tabId].tabId == (if tabId.Some? then tabId.value else 0)
    {
      var e := NewEngine(tabId, env);
      tabs := tabs[tabId := e];
      Repr := Repr + Parts(e);
      EngineAdded(tabId);
    }

    /**
     * Storing a working engine whose objects are all new, and changing
     * nothing else, keeps the document valid.
     */
    twostate lemma EngineAdded(tabId: Option<int>)
      requires old(Valid()) && tabId in tabs && tabs == old(tabs)[tabId := tabs[tabId]]
      requires Repr == old(Repr) + Parts(tabs[tabId]) && Parts(tabs[tabId]) !! old(Repr)
      requires tabs[tabId].Valid() && unchanged(old(Repr))
      ensures Valid()
    {
      forall k | k in tabs && k != tabId
        ensures tabs[k] == old(tabs[k]) && tabs[k].Valid()
      {
        StillValid(tabs[k]);
      }
      forall k, l | k in tabs && l in tabs && k != l
        ensures Parts(tabs[k]) !! Parts(tabs[l])
      {
        if k != tabId && l != tabId {
          assert Parts(old(tabs[k])) !! Parts(old(tabs[l]));
        }
      }
    }

    /** The message listener. */
    method Handle(m: Message, env: Env) returns (r: Response)
      requires Valid() && MessageOk(m)
      modifies this, Repr
      ensures Valid()
      // messages for another context are ignored
      ensures m.target != "offscreen" ==> r == NotHandled && tabs == old(tabs) && unchanged(old(Repr))
      // startRecording: an empty streamId or a failed getUserMedia registers nothing
      ensures m.target == "offscreen" && m.name == Some("startRecording") ==>
                if !TruthyString(m.streamId) then
                  r == Status(false, None, Some("StreamId is required")) && tabs == old(tabs) && unchanged(old(Repr))
                else if env.mediaError.Some? then
                  r == Status(false, None, env.mediaError) && tabs == old(tabs) && unchanged(old(Repr))
                else
                  r == Status(true, None, None)
                  && tabs.Keys == old(tabs.Keys) + {m.tabId} && fresh(Parts(tabs[m.tabId]))
                  && tabs[m.tabId].settings == DefaultSettings
                  && (!m.value.Missing? ==> tabs[m.tabId].audioGain.gain == Engine.Value(VolumeNumber(m.value)))
                  && forall k | k in old(tabs) && k != m.tabId :: tabs[k] == old(tabs[k]) && unchanged(Parts(tabs[k]))
      // any other command for a tab without an engine
      ensures m.target == "offscreen" && m.name != Some("startRecording") && m.tabId !in old(tabs) ==>
                r == Status(false, Some("TAB_NOT_FOUND"), None) && tabs == old(tabs) && unchanged(old(Repr))
      // a command name outside the switch
      ensures m.target == "offscreen" && m.name != Some("startRecording") && m.tabId in old(tabs) && OpOfMessage(m).UnknownOp? ==>
                r == Status(false, Some("UNKNOWN_COMMAND"), None) && tabs == old(tabs) && unchanged(old(Repr))
      // closeAudio and disposeTab remove the entry
      ensures m.target == "offscreen" && m.name != Some("startRecording") && m.tabId in old(tabs) && OpOfMessage(m).Close? ==>
                r == Status(true, None, None) && tabs == old(tabs) - {m.tabId} && old(tabs[m.tabId]).closed
      // change_compressor without a value throws: no reply, and nothing changes
      ensures m.target == "offscreen" && m.name != Some("startRecording") && m.tabId in old(tabs) && Throws(OpOfMessage(m), m.value) ==>
                r == Threw && tabs == old(tabs) && unchanged(old(Repr))
      // every other case updates the tab's engine and nothing else
      ensures m.target == "offscreen" && m.name != Some("startRecording") && m.tabId in old(tabs)
              && !OpOfMessage(m).UnknownOp? && !OpOfMessage(m).Close? && !Throws(OpOfMessage(m), m.value) ==>
                r == Status(true, None, None) && tabs == old(tabs)
                && tabs[m.tabId].settings == Apply(old(tabs[m.tabId].settings), OpOfMessage(m), m.value)
                && forall k | k in tabs && k != m.tabId :: unchanged(Parts(tabs[k]))
    {
      if m.target != "offscreen" {
        return NotHandled;
      }
      if m.name == Some("startRecording") {
        r := StartRecording(m, env);
        return;
      }
      if m.tabId !in tabs {
        return Status(false, Some("TAB_NOT_FOUND"), None);
      }
      var op := OpOfMessage(m);
      if op.UnknownOp? {
        return Status(false, Some("UNKNOWN_COMMAND"), None);
      }
      if Throws(op, m.value) {
        return Threw;
      }
      if op.Close? {
        CleanupTab(m.tabId);
      } else {
        Drive(m.tabId, op, m.value);
      }
      r := Status(true, None, None);
    }

    /** startRecording: captureTab, then the optional volume written straight to the gain node. */
    method StartRecording(m: Message, env: Env) returns (r: Response)
      requires Valid() && (m.value.Missing? || m.value.Number? || m.value.Flag?)
      modifies this
      ensures Valid()
      ensures if !TruthyString(m.streamId) then
                r == Status(false, None, Some("StreamId is required")) && unchanged(this)
              else if env.mediaError.Some? then
                r == Status(false, None, env.mediaError) && unchanged(this)
              else
                r == Status(true, None, None)
                && tabs.Keys == old(tabs.Keys) + {m.tabId} && fresh(Parts(tabs[m.tabId]))
                && tabs[m.tabId].settings == DefaultSettings
                && (!m.value.Missing? ==> tabs[m.tabId].audioGain.gain == Engine.Value(VolumeNumber(m.value)))
                && forall k | k in old(tabs) && k != m.tabId :: tabs[k] == old(tabs[k])
    {
      if !TruthyString(m.streamId) {
        return Status(false, None, Some("StreamId is required"));
      }
      if env.mediaError.Some? {
        return Status(false, None, env.mediaError);
      }
      Register(m.tabId, env, m.value);
      r := Status(true, None, None);
    }

    /** The promise of captureTab fulfilled: the new engine, and the volume the message carries. */
    method Register(tabId: Option<int>, env: Env, v: Value)
      requires Valid() && (v.Missing? || v.Number? || v.Flag?)
      modifies this
      ensures Valid()
      ensures tabs.Keys == old(tabs.Keys) + {tabId} && fresh(Parts(tabs[tabId]))
      ensures tabs[tabId].settings == DefaultSettings
      ensures !v.Missing? ==> tabs[tabId].audioGain.gain == Engine.Value(VolumeNumber(v))
      ensures forall k | k in old(tabs) && k != tabId :: tabs[k] == old(tabs[k])
    {
      CaptureTab(tabId, env);
      if !v.Missing? {
        SetGain(tabId, VolumeNumber(v));
      }
    }

    /** `tabs[tabId].audioGain.gain.value = x`, past the engine's own setter. */
    method SetGain(tabId: Option<int>, x: real)
      requires Valid() && tabId in tabs
      modifies tabs[tabId].audioGain
      ensures Valid() && unchanged(this) && unchanged(tabs[tabId]) && tabs[tabId].audioGain.gain == Engine.Value(x)
    {
      tabs[tabId].audioGain.gain := Engine.Value(x);
      forall k | k in tabs
        ensures tabs[k].Valid()
      {
        StillValid(tabs[k]);
      }
    }

    /** One of the cases that drive a registered engine; the other engines stay as they were. */
    method Drive(tabId: Option<int>, op: Op, v: Value)
      requires Valid() && tabId in tabs && Fits(op, v) && !op.UnknownOp? && !op.Close?
      modifies Parts(tabs[tabId])
      ensures Valid()
      ensures tabs[tabId].settings == Apply(old(tabs[tabId].settings), op, v)
      ensures op.Pitch? && tabs[tabId].pitch != null ==> tabs[tabId].pitch.value == v.r
    {
      var e := tabs[tabId];
      Dispatch(e, op, v);
      forall k | k in tabs && k != tabId
        ensures tabs[k].Valid()
      {
        assert Parts(tabs[k]) !! Parts(e);
        StillValid(tabs[k]);
      }
    }
  }
}
