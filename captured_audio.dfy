/**
 * The offscreen document's per-tab pipeline in main.ts: one
 * CapturedAudioObject per captured tab, kept in a list, and the message
 * switch that drives them.  Each object owns an audio context wired as
 *
 *   stream -> invertSplitter -> leftInvertGain/rightInvertGain -> invertMerger
 *          -> panSplitter -> leftPanGain/rightPanGain -> panMerger
 *          -> [monoSplitter => monoMerger -> monoGain] -> ten EQ bands
 *          -> compressor -> volumeGain -> destination
 *
 * The model keeps each context's connections as a set of edges (the
 * functions of module Graph), and the parameter values the object writes.
 */
module Captured {
  import opened Graph
  import opened Wrappers
  import Json
  import Engine

  datatype Node =
    | Stream
    | InvertSplitter | LeftInvertGain | RightInvertGain | InvertMerger
    | PanSplitter | LeftPanGain | RightPanGain | PanMerger
    | MonoSplitter | MonoMerger | StereoMerger | MonoGain | StereoGain
    | Twenty | Fifty | OneHundred | TwoHundred | FiveHundred
    | OneThousand | TwoThousand | FiveThousand | TenThousand | TwentyThousand
    | Compressor | VolumeGain | Destination

  /** The five AudioParams of a DynamicsCompressorNode. */
  datatype CompressorParams = CompressorParams(threshold: real, knee: real, ratio: real, attack: real, release: real)

  /** A tab's settings as the worker stores them; `eq` holds the ten band gains in band order. */
  datatype Settings = Settings(compressor: CompressorParams, eq: seq<real>, mono: bool, invert: bool, pan: real, volume: real)

  /** A `Partial<AudioSettings>`: the fields loadSettings is given. */
  datatype Patch = Patch(
    compressor: Option<CompressorParams>, eq: Option<seq<real>>, pan: Option<real>,
    mono: Option<bool>, volume: Option<real>, invert: Option<bool>)

  /** The patch that sets every field. */
  function Whole(s: Settings): (p: Patch)
    ensures p.compressor.Some? && p.eq.Some? && p.pan.Some? && p.mono.Some? && p.volume.Some? && p.invert.Some?
  {
    Patch(Some(s.compressor), Some(s.eq), Some(s.pan), Some(s.mono), Some(s.volume), Some(s.invert))
  }

  /** loadPresetOFFSCREEN's patch `{ eq: preset }`. */
  function EqOnly(eq: seq<real>): (p: Patch)
    ensures p.eq == Some(eq) && p.compressor.None? && p.pan.None? && p.mono.None? && p.volume.None? && p.invert.None?
  {
    Patch(None, Some(eq), None, None, None, None)
  }

  /** A patch's eq, when present, names all ten bands. */
  predicate WellFormed(p: Patch)
  {
    p.eq.Some? ==> |p.eq.value| == BandCount
  }

  /** The settings after loadSettings(p): a defined field replaces, an absent one keeps. */
  function Merge(s: Settings, p: Patch): (r: Settings)
  {
    Settings(
      if p.compressor.Some? then p.compressor.value else s.compressor,
      if p.eq.Some? then p.eq.value else s.eq,
      if p.mono.Some? then p.mono.value else s.mono,
      if p.invert.Some? then p.invert.value else s.invert,
      if p.pan.Some? then Engine.Clamp(p.pan.value) else s.pan,
      if p.volume.Some? then p.volume.value else s.volume)
  }

  /** A patch with nothing defined changes nothing. */
  lemma MergeNothing(s: Settings)
    ensures Merge(s, Patch(None, None, None, None, None, None)) == s
  {
  }

  /** Loading a whole settings object whose pan is in range yields exactly that object. */
  lemma MergeWhole(s: Settings, t: Settings)
    requires -1.0 <= t.pan <= 1.0
    ensures Merge(s, Whole(t)) == t
  {
  }

  /** Loading the same patch twice is loading it once. */
  lemma MergeIdempotent(s: Settings, p: Patch)
    ensures Merge(Merge(s, p), p) == Merge(s, p)
  {
    if p.pan.Some? {
      assert Engine.Clamp(Engine.Clamp(p.pan.value)) == Engine.Clamp(p.pan.value);
    }
  }

  /** Loading only an eq changes only the eq. */
  lemma MergeEqOnly(s: Settings, eq: seq<real>)
    ensures Merge(s, EqOnly(eq)) == s.(eq := eq)
  {
  }

  const BandCount := 10

  /** The keys of the EQ settings record, band 0 first. */
  const BandKeys: seq<string> :=
    ["twenty", "fifty", "oneHundred", "twoHundred", "fiveHundred",
     "oneThousand", "twoThousand", "fiveThousand", "tenThousand", "twentyThousand"]

  /** The filter nodes, band 0 first. */
  const BandNodes: seq<Node> :=
    [Twenty, Fifty, OneHundred, TwoHundred, FiveHundred, OneThousand, TwoThousand, FiveThousand, TenThousand, TwentyThousand]

  /** The type column of setupEqualizer's table. */
  const BandKinds: seq<Engine.FilterKind> :=
    [Engine.LowShelf, Engine.Peaking, Engine.Peaking, Engine.Peaking, Engine.Peaking,
     Engine.Peaking, Engine.Peaking, Engine.Peaking, Engine.Peaking, Engine.HighShelf]

  /** The frequency column of setupEqualizer's table, in Hz. */
  const BandFrequencies: seq<real> :=
    [32.0, 64.0, 125.0, 250.0, 500.0, 1000.0, 2000.0, 4000.0, 8000.0, 16000.0]

  /** setupEqualizer sets Q = 5 on a band unless its key contains "twenty". */
  function BandQ(i: nat): Option<real>
    requires i < BandCount
  {
    if Json.Contains(BandKeys[i], "twenty") then None else Some(5.0)
  }

  /** Band `i` as setupEqualizer configures it, with gain `gain`. */
  function Band(i: nat, gain: real): (f: Engine.Filter)
    requires i < BandCount
    ensures f.gain == gain && f.frequency == BandFrequencies[i] && f.kind == BandKinds[i]
  {
    Engine.Filter(BandKinds[i], BandFrequencies[i], BandQ(i), gain)
  }

  /** A key that starts differently from `t` and lacks `t`'s first letter afterwards does not contain `t`. */
  lemma HeadOnly(s: string, t: string, k: nat)
    requires 0 < |t| <= |s| && k < |t| && s[k] != t[k] && t[0] !in s[1..]
    ensures !Json.Contains(s, t)
  {
    assert s[..|t|][k] != t[k];
    Json.MissingHead(s[1..], t);
  }

  /** The keys with a "twenty" in them are the two shelves. */
  lemma ShelfKeys(i: nat)
    requires i < BandCount
    ensures Json.Contains(BandKeys[i], "twenty") <==> i == 0 || i == BandCount - 1
  {
    var t := "twenty";
    var key := BandKeys[i];
    if i == 0 {
      assert key == t && key[..6] == t;
    } else if i == 1 {
      assert key == "fifty" && |key| < |t|;
    } else if i == 2 {
      assert key == "oneHundred";
      Json.MissingHead(key, t);
    } else if i == 3 {
      assert key == "twoHundred";
      HeadOnly(key, t, 2);
    } else if i == 4 {
      assert key == "fiveHundred";
      Json.MissingHead(key, t);
    } else if i == 5 {
      assert key == "oneThousand";
      Json.MissingHead(key, t);
    } else if i == 6 {
      assert key == "twoThousand";
      HeadOnly(key, t, 2);
    } else if i == 7 {
      assert key == "fiveThousand";
      Json.MissingHead(key, t);
    } else if i == 8 {
      assert key == "tenThousand";
      HeadOnly(key, t, 1);
    } else {
      assert key == "twentyThousand" && key[..6] == t;
    }
  }

  /** Only the two shelf bands are left without Q, since "twentyThousand" contains "twenty". */
  lemma OnlyShelvesLackQ(i: nat)
    requires i < BandCount
    ensures BandQ(i).None? <==> i == 0 || i == BandCount - 1
  {
    ShelfKeys(i);
  }

  /** The per-tab pipeline configures its bands exactly as the AudioEngine does. */
  lemma SameBandsAsEngine(i: nat, gain: real)
    requires i < BandCount
    ensures Band(i, gain) == Engine.BandFilter(i, gain)
  {
    ShelfKeys(i);
  }

  /** Every filter is its band's, whatever its gain. */
  ghost predicate Banded(eq: seq<Engine.Filter>)
  {
    |eq| == BandCount && forall i :: 0 <= i < BandCount ==> eq[i] == Band(i, eq[i].gain)
  }

  /** `Number(v.toFixed(1))` for a non-negative `v`: the nearest tenth, halves rounded up. */
  function RoundTenth(v: real): (r: real)
    ensures v >= 0.0 ==> -0.05 < r - v <= 0.05
    ensures (r * 10.0).Floor as real == r * 10.0
  {
    if v >= 0.0 then (v * 10.0 + 0.5).Floor as real / 10.0
    else -((-v) * 10.0 + 0.5).Floor as real / 10.0
  }

  /** Rounding a rounded value again changes nothing. */
  lemma RoundTenthIdempotent(v: real)
    ensures RoundTenth(RoundTenth(v)) == RoundTenth(v)
  {
    var r := RoundTenth(v);
    var n := (r * 10.0).Floor;
    assert r == n as real / 10.0;
    if r >= 0.0 {
      assert (r * 10.0 + 0.5).Floor == n;
    } else {
      assert ((-r) * 10.0 + 0.5).Floor == -n;
    }
  }

  /** The nodes whose connections setMono rebuilds. */
  const RoutingNodes: set<Node> := {PanMerger, MonoSplitter, MonoMerger, StereoMerger, MonoGain, StereoGain}

  /** The invert chain of connectAudioNodes. */
  const InvertStage: set<Edge<Node>> :=
    {Wire(Stream, InvertSplitter),
     Edge(InvertSplitter, LeftInvertGain, 0, 0), Edge(InvertSplitter, RightInvertGain, 1, 0),
     Edge(LeftInvertGain, InvertMerger, 0, 0), Edge(RightInvertGain, InvertMerger, 0, 1)}

  /** The pan chain of connectAudioNodes. */
  const PanStage: set<Edge<Node>> :=
    {Wire(InvertMerger, PanSplitter),
     Edge(PanSplitter, LeftPanGain, 0, 0), Edge(PanSplitter, RightPanGain, 1, 0),
     Edge(LeftPanGain, PanMerger, 0, 0), Edge(RightPanGain, PanMerger, 0, 1)}

  /** The EQ chain, ending at the compressor. */
  const EqChain: set<Edge<Node>> :=
    {Wire(Twenty, Fifty), Wire(Fifty, OneHundred), Wire(OneHundred, TwoHundred),
     Wire(TwoHundred, FiveHundred), Wire(FiveHundred, OneThousand), Wire(OneThousand, TwoThousand),
     Wire(TwoThousand, FiveThousand), Wire(FiveThousand, TenThousand), Wire(TenThousand, TwentyThousand),
     Wire(TwentyThousand, Compressor)}

  /** The output chain. */
  const OutputStage: set<Edge<Node>> := {Wire(Compressor, VolumeGain), Wire(VolumeGain, Destination)}

  /** What setMono connects: through the one-channel merger and monoGain, or straight to the first band. */
  function MonoRoute(mono: bool): set<Edge<Node>>
  {
    if mono then
      {Wire(PanMerger, MonoSplitter), Edge(MonoSplitter, MonoMerger, 0, 0), Edge(MonoSplitter, MonoMerger, 1, 0),
       Wire(MonoMerger, MonoGain), Wire(MonoGain, Twenty)}
    else {Wire(PanMerger, Twenty)}
  }

  /** The connections no setter touches. */
  const Fixed: set<Edge<Node>> := InvertStage + PanStage + EqChain + OutputStage

  /** The graph of an object with the given mono flag. */
  function Topology(mono: bool): set<Edge<Node>>
  {
    Fixed + MonoRoute(mono)
  }

  /** The stages in the order connectAudioNodes adds them make up the topology. */
  lemma StagesMakeTopology(mono: bool)
    ensures InvertStage + PanStage + MonoRoute(mono) + EqChain + OutputStage == Topology(mono)
  {
  }

  /** Membership in RoutingNodes, by constructor. */
  predicate Routing(n: Node)
    ensures Routing(n) <==> n in RoutingNodes
  {
    n.PanMerger? || n.MonoSplitter? || n.MonoMerger? || n.StereoMerger? || n.MonoGain? || n.StereoGain?
  }

  /** No edge of `a` leaves a routing node or enters stereoMerger or stereoGain. */
  ghost predicate Apart(a: set<Edge<Node>>)
  {
    forall e :: e in a ==> !Routing(e.src) && !e.dst.StereoMerger? && !e.dst.StereoGain?
  }

  lemma InvertStageApart()
    ensures Apart(InvertStage)
  {
  }

  lemma PanStageApart()
    ensures Apart(PanStage)
  {
  }

  lemma EqChainApart()
    ensures Apart(EqChain)
  {
  }

  lemma OutputStageApart()
    ensures Apart(OutputStage)
  {
  }

  lemma ApartAvoids(a: set<Edge<Node>>)
    requires Apart(a)
    ensures NoneFrom(a, RoutingNodes)
  {
  }

  lemma FixedAvoidsRouting()
    ensures Apart(Fixed) && NoneFrom(Fixed, RoutingNodes)
  {
    InvertStageApart();
    PanStageApart();
    EqChainApart();
    OutputStageApart();
  }

  /** Rebuilding the routing nodes of a wired graph for a new flag gives that flag's graph. */
  lemma Rewire(m0: bool, m1: bool)
    ensures WithoutAll(Topology(m0), RoutingNodes) + MonoRoute(m1) == Topology(m1)
  {
    FixedAvoidsRouting();
    WithoutAllSplit(Fixed, MonoRoute(m0), RoutingNodes);
  }

  /** A routing node's connections are the ones setMono made. */
  lemma RoutedBySetMono(mono: bool, n: Node)
    requires n in RoutingNodes
    ensures From(Topology(mono), n) == From(MonoRoute(mono), n)
  {
    FixedAvoidsRouting();
    FromUnion(Fixed, MonoRoute(mono), n);
    FromNone(Fixed, RoutingNodes, n);
  }

  /**
   * Mono sends both channels into the one input of monoMerger and on
   * through monoGain to the first band.
   */
  lemma MonoRouting()
    ensures From(Topology(true), PanMerger) == {Wire(PanMerger, MonoSplitter)}
    ensures From(Topology(true), MonoSplitter) == {Edge(MonoSplitter, MonoMerger, 0, 0), Edge(MonoSplitter, MonoMerger, 1, 0)}
    ensures From(Topology(true), MonoMerger) == {Wire(MonoMerger, MonoGain)}
    ensures From(Topology(true), MonoGain) == {Wire(MonoGain, Twenty)}
  {
    RoutedBySetMono(true, PanMerger);
    RoutedBySetMono(true, MonoSplitter);
    RoutedBySetMono(true, MonoMerger);
    RoutedBySetMono(true, MonoGain);
  }

  /** Stereo goes straight from panMerger to the first band and leaves the mono nodes unconnected. */
  lemma StereoRouting()
    ensures From(Topology(false), PanMerger) == {Wire(PanMerger, Twenty)}
    ensures From(Topology(false), MonoSplitter) == {} && From(Topology(false), MonoMerger) == {}
    ensures From(Topology(false), MonoGain) == {}
  {
    RoutedBySetMono(false, PanMerger);
    RoutedBySetMono(false, MonoSplitter);
    RoutedBySetMono(false, MonoMerger);
    RoutedBySetMono(false, MonoGain);
  }

  /** stereoMerger and stereoGain are created but never connected. */
  lemma StereoNodesUnused(mono: bool)
    ensures From(Topology(mono), StereoMerger) == {} && From(Topology(mono), StereoGain) == {}
    ensures forall e :: e in Topology(mono) ==> !e.dst.StereoMerger? && !e.dst.StereoGain?
  {
    RoutedBySetMono(mono, StereoMerger);
    RoutedBySetMono(mono, StereoGain);
    FixedAvoidsRouting();
  }

  /** setPan's gains: full gain on the louder side, the other reduced by the clamped pan. */
  ghost predicate PanLaw(left: real, right: real, pan: real)
  {
    right - left == pan && (if left < right then right else left) == 1.0
  }

  /** The pan law bounds both gains to [0, 1]. */
  lemma PanLawBounds(left: real, right: real, pan: real)
    requires PanLaw(left, right, pan) && -1.0 <= pan <= 1.0
    ensures 0.0 <= left <= 1.0 && 0.0 <= right <= 1.0
  {
  }

  /** The pan law fixes both gains. */
  lemma PanLawUnique(l0: real, r0: real, l1: real, r1: real, pan: real)
    requires PanLaw(l0, r0, pan) && PanLaw(l1, r1, pan) && -1.0 <= pan <= 1.0
    ensures l0 == l1 && r0 == r1
  {
  }

  /** The compressor parameters a message can name. */
  datatype CompressorKey = Threshold | Attack | Release | Ratio | Knee

  function Param(c: CompressorParams, k: CompressorKey): real
  {
    match k
    case Threshold => c.threshold
    case Attack => c.attack
    case Release => c.release
    case Ratio => c.ratio
    case Knee => c.knee
  }

  /** `compressor[k].value = v`. */
  function WithParam(c: CompressorParams, k: CompressorKey, v: real): (r: CompressorParams)
    ensures Param(r, k) == v
    ensures forall k' :: k' != k ==> Param(r, k') == Param(c, k')
  {
    match k
    case Threshold => c.(threshold := v)
    case Attack => c.(attack := v)
    case Release => c.(release := v)
    case Ratio => c.(ratio := v)
    case Knee => c.(knee := v)
  }

  type BandIndex = i: nat | i < BandCount

  /** The `type` of an offscreen message; the band cases carry the band's position in BandKeys. */
  datatype Command =
    | CaptureTab | LoadCapturedTab | PowerOff | Reset | DeleteSavedSettings
    | LoadSavedSettings | LoadPreset | SaveSettings | Volume | GetVolume
    | CompressorParam(key: CompressorKey) | BandGain(band: BandIndex)
    | Pan | GetPan | SetMono | GetMono | SetInvert | GetInvert
    | TabRemoved | GetIndex | SaveWindowState | GetSavedWindowState
    | Unknown(name: string)

  /** A message's `value`, as structured cloning delivers it. */
  datatype Arg = Missing | Null | Num(r: real) | Bool(b: bool)

  /** The number an AudioParam, or `Number(val)`, makes of a value. */
  function ToNumber(a: Arg): (r: real)
    requires !a.Missing?
    ensures a.Num? ==> r == a.r
    ensures a.Null? || a == Bool(false) ==> r == 0.0
    ensures a == Bool(true) ==> r == 1.0
  {
    match a
    case Null => 0.0
    case Num(r) => r
    case Bool(b) => if b then 1.0 else 0.0
  }

  /** JavaScript truthiness of a value. */
  predicate Truthy(a: Arg)
  {
    match a
    case Missing => false
    case Null => false
    case Num(r) => r != 0.0
    case Bool(b) => b
  }

  /** A `number | undefined` or `string | undefined` is truthy: defined, and not 0 or "". */
  predicate TruthyId(id: Option<int>)
  {
    id.Some? && id.value != 0
  }

  predicate TruthyString(s: Option<string>)
  {
    s.Some? && s.value != ""
  }

  datatype Message = Message(
    target: string, kind: Command, value: Arg, tabId: Option<int>,
    streamId: Option<string>, preset: Option<seq<real>>, state: Option<string>)

  /** A preset, when present, names all ten bands. */
  predicate MessageOk(m: Message)
  {
    m.preset.Some? ==> |m.preset.value| == BandCount
  }

  /** What `sendResponse` is called with, if anything. */
  datatype Reply =
    | NoReply | Success | NumberReply(r: real) | FlagReply(b: bool)
    | IndexReply(index: int) | StateReply(state: Option<string>)

  /** A message sent to the popup or to the service worker. */
  datatype Post = ToPopup(settings: Patch, tabId: int) | ToWorker(kind: string, data: Option<Settings>)

  /**
   * What the service worker answers: its saved settings (getSavedSettings),
   * its default settings (getDefaultSettings), and whether getUserMedia
   * yields a stream.
   */
  datatype Worker = Worker(saved: Settings, defaults: Settings, streamOk: bool)

  predicate WorkerOk(w: Worker)
  {
    |w.saved.eq| == BandCount && |w.defaults.eq| == BandCount
  }

  /** The settings resetSettings leaves, from the worker's defaults. */
  function ResetTo(defaults: Settings): (r: Settings)
    ensures r.compressor == defaults.compressor && r.eq == defaults.eq
    ensures !r.mono && !r.invert && r.pan == 0.0 && r.volume == 1.0
  {
    defaults.(mono := false, invert := false, pan := 0.0, volume := 1.0)
  }

  /** The cases that read or load whole settings. */
  predicate IsLoad(c: Command)
  {
    c.LoadCapturedTab? || c.Reset? || c.LoadSavedSettings? || c.LoadPreset? || c.SaveSettings?
  }

  /** The cases that write one parameter from the message's value. */
  predicate IsWrite(c: Command)
  {
    c.Volume? || c.CompressorParam? || c.BandGain? || c.Pan? || c.SetMono? || c.SetInvert?
  }

  /** The settings after one of the IsWrite cases; an undefined value writes nothing. */
  function Write(s: Settings, c: Command, v: Arg): (r: Settings)
    requires |s.eq| == BandCount
  {
    if v.Missing? then s
    else match c
      case Volume => s.(volume := ToNumber(v))
      case CompressorParam(k) => s.(compressor := WithParam(s.compressor, k, ToNumber(v)))
      case BandGain(b) => s.(eq := s.eq[b := ToNumber(v)])
      case Pan => s.(pan := Engine.Clamp(ToNumber(v)))
      case SetMono => s.(mono := Truthy(v))
      case SetInvert => s.(invert := Truthy(v))
      case _ => s
  }

  /** The settings of the tab a per-tab command of the message switch is addressed to, afterwards. */
  function Effect(s: Settings, m: Message, w: Worker): (r: Settings)
    requires |s.eq| == BandCount && MessageOk(m) && WorkerOk(w)
  {
    match m.kind
    case Reset => ResetTo(w.defaults)
    case LoadSavedSettings => Merge(s, Whole(w.saved))
    case LoadPreset => if m.preset.Some? then Merge(s, EqOnly(m.preset.value)) else s
    case _ => Write(s, m.kind, m.value)
  }

  /** The tab's window state afterwards. */
  function NextWindowState(ws: Option<string>, m: Message): (r: Option<string>)
    ensures r != ws ==> m.kind.SaveWindowState? && r == m.state && TruthyString(r)
  {
    if m.kind.SaveWindowState? && TruthyString(m.state) then m.state else ws
  }

  /** The reply to a per-tab command whose tab was found. */
  function Answer(s: Settings, ws: Option<string>, m: Message): (r: Reply)
  {
    match m.kind
    case GetVolume => NumberReply(s.volume)
    case GetPan => NumberReply(s.pan)
    case GetMono => FlagReply(s.mono)
    case GetInvert => FlagReply(s.invert)
    case SetMono => if m.value.Missing? then NoReply else FlagReply(true)
    case SetInvert => if m.value.Missing? then NoReply else FlagReply(true)
    case GetSavedWindowState => StateReply(ws)
    case _ => NoReply
  }

  /** The messages a per-tab command whose tab was found sends, given the settings before and after. */
  function Sent(before: Settings, after: Settings, m: Message, w: Worker, tabId: int): (r: seq<Post>)
  {
    match m.kind
    case LoadCapturedTab => [ToPopup(Whole(before), tabId)]
    case Reset => [ToPopup(Whole(after), tabId)]
    case LoadSavedSettings => [ToPopup(Whole(w.saved), tabId)]
    case LoadPreset => if m.preset.Some? then [ToPopup(EqOnly(m.preset.value), tabId)] else []
    case SaveSettings => [ToWorker("saveToStorage", Some(before))]
    case _ => []
  }

  /** The reading cases and saveWindowState leave the settings alone. */
  lemma ReadsKeepSettings(s: Settings, m: Message, w: Worker)
    requires |s.eq| == BandCount && MessageOk(m) && WorkerOk(w)
    requires !IsLoad(m.kind) && !IsWrite(m.kind)
    ensures Effect(s, m, w) == s
  {
  }

  /** What the specification functions give for the write cases. */
  lemma WriteCase(s: Settings, ws: Option<string>, m: Message, w: Worker, tabId: int)
    requires |s.eq| == BandCount && MessageOk(m) && WorkerOk(w) && IsWrite(m.kind)
    ensures Effect(s, m, w) == Write(s, m.kind, m.value) && NextWindowState(ws, m) == ws
    ensures Answer(s, ws, m) == if (m.kind.SetMono? || m.kind.SetInvert?) && !m.value.Missing? then FlagReply(true) else NoReply
    ensures forall after :: Sent(s, after, m, w, tabId) == []
  {
  }

  /** What the specification functions give for the reading cases and saveWindowState. */
  lemma ReadCase(s: Settings, m: Message, w: Worker, tabId: int)
    requires |s.eq| == BandCount && MessageOk(m) && WorkerOk(w) && !IsLoad(m.kind) && !IsWrite(m.kind)
    ensures Effect(s, m, w) == s && Sent(s, s, m, w, tabId) == []
  {
  }

  /** Every per-tab command keeps the stored pan in [-1, 1]. */
  lemma EffectKeepsPanInRange(s: Settings, m: Message, w: Worker)
    requires |s.eq| == BandCount && MessageOk(m) && WorkerOk(w) && -1.0 <= s.pan <= 1.0
    ensures -1.0 <= Effect(s, m, w).pan <= 1.0
  {
  }

  /** Writing the same value twice is writing it once. */
  lemma WriteIdempotent(s: Settings, c: Command, v: Arg)
    requires |s.eq| == BandCount && IsWrite(c)
    ensures Write(Write(s, c, v), c, v) == Write(s, c, v)
  {
  }

  /** A band write changes that band only. */
  lemma BandWriteLocal(s: Settings, b: BandIndex, v: Arg)
    requires |s.eq| == BandCount && !v.Missing?
    ensures var r := Write(s, BandGain(b), v);
            r.eq[b] == ToNumber(v) && (forall j :: 0 <= j < BandCount && j != b ==> r.eq[j] == s.eq[j])
            && r == s.(eq := r.eq)
  {
  }

  /** The gains of the invert, pan, mono and stereo gain nodes. */
  datatype GainValues = GainValues(leftInvert: real, rightInvert: real, leftPan: real, rightPan: real, mono: real, stereo: real)

  /** One tab's audio pipeline. */
  class CapturedAudioObject {
    const tabId: int
    /** The connections of this object's audio context. */
    var edges: set<Edge<Node>>
    var pan: real
    var mono: bool
    var invert: bool
    /** The gain of volumeGainNode. */
    var volume: real
    var gains: GainValues
    var compressor: CompressorParams
    /** The ten biquad filters, band 0 first. */
    var eq: seq<Engine.Filter>
    var windowState: Option<string>
    var stopped: bool

    ghost predicate Valid()
      reads this
    {
      edges == Topology(mono)
      && Banded(eq)
      && gains.leftInvert == (if invert then -1.0 else 1.0) && gains.rightInvert == 1.0
      && 0.0 <= gains.leftPan <= 1.0 && 0.0 <= gains.rightPan <= 1.0
      && (gains.leftPan == 1.0 || gains.rightPan == 1.0)
      && gains.mono == 0.5 && gains.stereo == 1.0
      && !stopped
    }

    /** The band gains, band 0 first. */
    function Gains(): (g: seq<real>)
      reads this
      ensures |g| == |eq| && forall i :: 0 <= i < |eq| ==> g[i] == eq[i].gain
    {
      var f := eq;
      seq(|f|, i requires 0 <= i < |f| => f[i].gain)
    }

    /** The settings this object reports. */
    ghost function Current(): Settings
      reads this
    {
      Settings(compressor, Gains(), mono, invert, pan, volume)
    }

    /**
     * setupAudioNodes from the constructor.  The stored pan is not applied:
     * both pan gains keep the browser default 1.
     */
    constructor(tabId: int, s: Settings)
      requires |s.eq| == BandCount
      ensures Valid() && this.tabId == tabId
      ensures pan == s.pan && mono == s.mono && invert == s.invert && volume == s.volume
      ensures compressor == s.compressor.(attack := RoundTenth(s.compressor.attack))
      ensures Gains() == s.eq
      ensures gains.leftPan == 1.0 && gains.rightPan == 1.0
      ensures windowState.None?
    {
      this.tabId := tabId;
      edges := {};
      // setupVolume, setupPan, setupMono and setupInvert; a new gain node's gain is 1
      volume := s.volume;
      pan := s.pan;
      mono := s.mono;
      invert := s.invert;
      gains := GainValues(1.0, 1.0, 1.0, 1.0, 0.5, 1.0);
      compressor := s.compressor;
      eq := [];
      windowState := None;
      stopped := false;
      new;
      SetupCompressor(s.compressor);
      SetupEqualizer(s.eq);
      ConnectAudioNodes();
    }

    /** setupCompressor: each parameter written, then attack rounded to a tenth. */
    method SetupCompressor(c: CompressorParams)
      modifies this
      ensures compressor == c.(attack := RoundTenth(c.attack))
      ensures edges == old(edges) && eq == old(eq) && gains == old(gains)
      ensures mono == old(mono) && invert == old(invert) && pan == old(pan) && volume == old(volume)
      ensures stopped == old(stopped) && windowState == old(windowState)
    {
      compressor := c;
      compressor := compressor.(attack := RoundTenth(compressor.attack));
    }

    /** setupEqualizer: one filter per band, type and frequency from the table, Q where due. */
    method SetupEqualizer(values: seq<real>)
      requires |values| == BandCount
      modifies this
      ensures Banded(eq) && Gains() == values
      ensures edges == old(edges) && compressor == old(compressor) && gains == old(gains)
      ensures mono == old(mono) && invert == old(invert) && pan == old(pan) && volume == old(volume)
      ensures stopped == old(stopped) && windowState == old(windowState)
    {
      var filters: seq<Engine.Filter> := [];
      for i := 0 to BandCount
        invariant |filters| == i
        invariant forall j :: 0 <= j < i ==> filters[j] == Band(j, values[j])
      {
        var q: Option<real> := None;
        if !Json.Contains(BandKeys[i], "twenty") {
          q := Some(5.0);
        }
        filters := filters + [Engine.Filter(BandKinds[i], BandFrequencies[i], q, values[i])];
      }
      eq := filters;
    }

    /** connectAudioNodes on a fresh context. */
    method ConnectAudioNodes()
      requires edges == {} && gains.leftInvert == 1.0
      modifies this
      ensures edges == Topology(mono)
      ensures gains == old(gains).(leftInvert := if invert then -1.0 else 1.0)
      ensures compressor == old(compressor) && eq == old(eq)
      ensures mono == old(mono) && invert == old(invert) && pan == old(pan) && volume == old(volume)
      ensures stopped == old(stopped) && windowState == old(windowState)
    {
      // the invert chain
      edges := edges + InvertStage;
      if invert {
        SetInvert(true);
      }
      // the pan chain
      edges := edges + PanStage;
      InvertStageApart();
      PanStageApart();
      ApartAvoids(InvertStage + PanStage);
      WithoutAllNone(InvertStage + PanStage, RoutingNodes);
      SetMono(mono);
      assert edges == InvertStage + PanStage + MonoRoute(mono);
      // the EQ chain, then the output chain
      edges := edges + EqChain;
      edges := edges + OutputStage;
      StagesMakeTopology(mono);
    }

    /**
     * setMono: unlike the AudioEngine it records the flag and rebuilds the
     * routing nodes even when the flag does not change.
     */
    method SetMono(isMono: bool)
      modifies this
      ensures mono == isMono
      ensures edges == WithoutAll(old(edges), RoutingNodes) + MonoRoute(isMono)
      ensures compressor == old(compressor) && eq == old(eq) && gains == old(gains)
      ensures invert == old(invert) && pan == old(pan) && volume == old(volume)
      ensures stopped == old(stopped) && windowState == old(windowState)
    {
      mono := isMono;
      ghost var base := WithoutAll(edges, RoutingNodes);
      edges := Without(edges, PanMerger);
      edges := Without(edges, MonoSplitter);
      edges := Without(edges, MonoMerger);
      edges := Without(edges, StereoMerger);
      edges := Without(edges, MonoGain);
      edges := Without(edges, StereoGain);
      assert edges == base;
      if isMono {
        edges := edges + {Wire(PanMerger, MonoSplitter)};
        edges := edges + {Edge(MonoSplitter, MonoMerger, 0, 0)};
        edges := edges + {Edge(MonoSplitter, MonoMerger, 1, 0)};
        edges := edges + {Wire(MonoMerger, MonoGain)};
        edges := edges + {Wire(MonoGain, Twenty)};
      } else {
        edges := edges + {Wire(PanMerger, Twenty)};
      }
    }

    /** setInvert: only the left invert gain changes, to -1 or 1. */
    method SetInvert(enabled: bool)
      modifies this
      ensures invert == enabled && gains == old(gains).(leftInvert := if enabled then -1.0 else 1.0)
      ensures edges == old(edges) && compressor == old(compressor) && eq == old(eq)
      ensures mono == old(mono) && pan == old(pan) && volume == old(volume)
      ensures stopped == old(stopped) && windowState == old(windowState)
    {
      gains := gains.(leftInvert := if enabled then -1.0 else 1.0);
      invert := enabled;
    }

    /** setPan: store the clamped value and apply the pan law to the two pan gains. */
    method SetPan(val: real)
      modifies this
      ensures pan == Engine.Clamp(val) && PanLaw(gains.leftPan, gains.rightPan, pan)
      ensures 0.0 <= gains.leftPan <= 1.0 && 0.0 <= gains.rightPan <= 1.0
      ensures gains == old(gains).(leftPan := gains.leftPan, rightPan := gains.rightPan)
      ensures edges == old(edges) && compressor == old(compressor) && eq == old(eq)
      ensures mono == old(mono) && invert == old(invert) && volume == old(volume)
      ensures stopped == old(stopped) && windowState == old(windowState)
    {
      var clampedPan := Engine.Clamp(val);
      pan := clampedPan;
      if val > 0.0 {
        gains := gains.(leftPan := 1.0 - clampedPan, rightPan := 1.0);
      } else {
        gains := gains.(leftPan := 1.0, rightPan := 1.0 + clampedPan);
      }
    }

    /** The gain writes of one `Object.entries(eq).forEach`. */
    method SetEqGains(values: seq<real>)
      requires Banded(eq) && |values| == BandCount
      modifies this
      ensures Banded(eq) && Gains() == values
      ensures edges == old(edges) && compressor == old(compressor) && gains == old(gains)
      ensures mono == old(mono) && invert == old(invert) && pan == old(pan) && volume == old(volume)
      ensures stopped == old(stopped) && windowState == old(windowState)
    {
      var f := eq;
      for i := 0 to BandCount
        invariant Banded(f)
        invariant forall j :: 0 <= j < i ==> f[j].gain == values[j]
      {
        f := f[i := f[i].(gain := values[i])];
      }
      eq := f;
    }

    /** The `eq[key].gain.value = value` write for one band. */
    method SetBandGain(i: nat, value: real)
      requires Banded(eq) && i < BandCount
      modifies this
      ensures Banded(eq) && Gains() == old(Gains())[i := value]
      ensures edges == old(edges) && compressor == old(compressor) && gains == old(gains)
      ensures mono == old(mono) && invert == old(invert) && pan == old(pan) && volume == old(volume)
      ensures stopped == old(stopped) && windowState == old(windowState)
    {
      eq := eq[i := eq[i].(gain := value)];
    }

    /** resetSettings with the worker's defaults. */
    method ResetSettings(defaults: Settings)
      requires Valid() && |defaults.eq| == BandCount
      modifies this
      ensures Valid()
      ensures Current() == ResetTo(defaults)
      ensures gains.leftPan == 1.0 && gains.rightPan == 1.0
      ensures windowState == old(windowState)
    {
      compressor := defaults.compressor;
      SetEqGains(defaults.eq);
      SetPan(0.0);
      Rewire(mono, false);
      SetMono(false);
      SetInvert(false);
      volume := 1.0;
    }

    /** loadSettings: apply the defined fields, each through its setter. */
    method LoadSettings(p: Patch)
      requires Valid() && WellFormed(p)
      modifies this
      ensures Valid()
      ensures Current() == Merge(old(Current()), p)
      ensures p.pan.Some? ==> PanLaw(gains.leftPan, gains.rightPan, pan)
      ensures p.pan.None? ==> gains.leftPan == old(gains.leftPan) && gains.rightPan == old(gains.rightPan)
      ensures windowState == old(windowState)
    {
      LoadCompressor(p.compressor);
      LoadEq(p.eq);
      LoadPan(p.pan);
      LoadMono(p.mono);
      LoadInvert(p.invert);
      LoadVolume(p.volume);
    }

    /** loadSettings' `if (compressor)` block. */
    method LoadCompressor(c: Option<CompressorParams>)
      requires Valid()
      modifies this
      ensures Valid()
      ensures Current() == old(Current()).(compressor := if c.Some? then c.value else old(compressor))
      ensures gains == old(gains) && windowState == old(windowState)
    {
      if c.Some? {
        compressor := c.value;
      }
    }

    /** loadSettings' `if (eq)` block. */
    method LoadEq(eq: Option<seq<real>>)
      requires Valid() && (eq.Some? ==> |eq.value| == BandCount)
      modifies this
      ensures Valid()
      ensures Current() == old(Current()).(eq := if eq.Some? then eq.value else old(Gains()))
      ensures gains == old(gains) && windowState == old(windowState)
    {
      if eq.Some? {
        SetEqGains(eq.value);
      }
    }

    /** loadSettings' `if (pan !== undefined)` block. */
    method LoadPan(pan: Option<real>)
      requires Valid()
      modifies this
      ensures Valid()
      ensures Current() == old(Current()).(pan := if pan.Some? then Engine.Clamp(pan.value) else old(this.pan))
      ensures pan.Some? ==> PanLaw(gains.leftPan, gains.rightPan, this.pan)
      ensures pan.None? ==> gains == old(gains)
      ensures gains.leftInvert == old(gains.leftInvert) && windowState == old(windowState)
    {
      if pan.Some? {
        this.pan := pan.value;
        SetPan(pan.value);
      }
    }

    /** loadSettings' `if (mono !== undefined)` block. */
    method LoadMono(mono: Option<bool>)
      requires Valid()
      modifies this
      ensures Valid()
      ensures Current() == old(Current()).(mono := if mono.Some? then mono.value else old(this.mono))
      ensures gains == old(gains) && windowState == old(windowState)
    {
      if mono.Some? {
        this.mono := mono.value;
        Rewire(old(this.mono), mono.value);
        SetMono(mono.value);
      }
    }

    /** loadSettings' `if (invert !== undefined)` block. */
    method LoadInvert(invert: Option<bool>)
      requires Valid()
      modifies this
      ensures Valid()
      ensures Current() == old(Current()).(invert := if invert.Some? then invert.value else old(this.invert))
      ensures gains.leftPan == old(gains.leftPan) && gains.rightPan == old(gains.rightPan)
      ensures windowState == old(windowState)
    {
      if invert.Some? {
        this.invert := invert.value;
        SetInvert(invert.value);
      }
    }

    /** loadSettings' `if (volume !== undefined)` block. */
    method LoadVolume(v: Option<real>)
      requires Valid()
      modifies this
      ensures Valid()
      ensures Current() == old(Current()).(volume := if v.Some? then v.value else old(volume))
      ensures gains == old(gains) && windowState == old(windowState)
    {
      if v.Some? {
        volume := v.value;
      }
    }

    /** The `compressor[type].value = value` write of the message switch. */
    method ChangeCompressor(k: CompressorKey, v: real)
      requires Valid()
      modifies this
      ensures Valid()
      ensures Current() == old(Current()).(compressor := WithParam(old(compressor), k, v))
      ensures windowState == old(windowState)
    {
      compressor := WithParam(compressor, k, v);
    }

    /** The `eq[type].gain.value = value` write of the message switch. */
    method ChangeBand(i: BandIndex, v: real)
      requires Valid()
      modifies this
      ensures Valid()
      ensures Current() == old(Current()).(eq := old(Gains())[i := v])
      ensures windowState == old(windowState)
    {
      SetBandGain(i, v);
    }

    /** The message switch's `setPan(value)`. */
    method ChangePan(v: real)
      requires Valid()
      modifies this
      ensures Valid()
      ensures Current() == old(Current()).(pan := Engine.Clamp(v))
      ensures windowState == old(windowState)
    {
      SetPan(v);
    }

    /** The message switch's `setMono(value)`. */
    method ChangeMono(b: bool)
      requires Valid()
      modifies this
      ensures Valid()
      ensures Current() == old(Current()).(mono := b)
      ensures windowState == old(windowState)
    {
      Rewire(mono, b);
      SetMono(b);
    }

    /** The message switch's `setInvert(value)`. */
    method ChangeInvert(b: bool)
      requires Valid()
      modifies this
      ensures Valid()
      ensures Current() == old(Current()).(invert := b)
      ensures windowState == old(windowState)
    {
      SetInvert(b);
    }

    /** One per-tab case of the message switch, for the tab it found. */
    method Perform(m: Message, w: Worker) returns (reply: Reply, posts: seq<Post>)
      requires Valid() && MessageOk(m) && WorkerOk(w)
      modifies this
      ensures Valid()
      ensures Current() == Effect(old(Current()), m, w)
      ensures windowState == NextWindowState(old(windowState), m)
      ensures reply == Answer(old(Current()), old(windowState), m)
      ensures posts == Sent(old(Current()), Current(), m, w, tabId)
    {
      reply := NoReply;
      posts := [];
      if IsLoad(m.kind) {
        reply, posts := PerformLoad(m, w);
      } else if IsWrite(m.kind) {
        WriteCase(Current(), windowState, m, w, tabId);
        PerformWrite(m);
        if (m.kind.SetMono? || m.kind.SetInvert?) && !m.value.Missing? {
          reply := FlagReply(true);
        }
      } else {
        ReadCase(Current(), m, w, tabId);
        reply := PerformRead(m);
      }
    }

    /** The cases that only read, and saveWindowState. */
    method PerformRead(m: Message) returns (reply: Reply)
      requires Valid() && !IsLoad(m.kind) && !IsWrite(m.kind)
      modifies this
      ensures Valid() && Current() == old(Current())
      ensures windowState == NextWindowState(old(windowState), m)
      ensures reply == Answer(old(Current()), old(windowState), m)
    {
      reply := NoReply;
      match m.kind {
        case GetVolume =>
          reply := NumberReply(volume);
        case GetPan =>
          reply := NumberReply(pan);
        case GetMono =>
          reply := FlagReply(mono);
        case GetInvert =>
          reply := FlagReply(invert);
        case SaveWindowState =>
          if TruthyString(m.state) {
            windowState := m.state;
          }
        case GetSavedWindowState =>
          reply := StateReply(windowState);
        case _ =>
      }
    }

    /** The cases that read or load whole settings: loadCapturedTab, reset, loadSavedSettings, loadPreset, saveSettings. */
    method PerformLoad(m: Message, w: Worker) returns (reply: Reply, posts: seq<Post>)
      requires IsLoad(m.kind)
      requires Valid() && MessageOk(m) && WorkerOk(w)
      modifies this
      ensures Valid()
      ensures Current() == Effect(old(Current()), m, w)
      ensures windowState == NextWindowState(old(windowState), m)
      ensures reply == Answer(old(Current()), old(windowState), m)
      ensures posts == Sent(old(Current()), Current(), m, w, tabId)
    {
      reply := NoReply;
      posts := [];
      if m.kind.LoadCapturedTab? {
        var s := GetSettings();
        posts := [ToPopup(Whole(s), tabId)];
      } else if m.kind.Reset? {
        ResetSettings(w.defaults);
        var s := GetSettings();
        posts := [ToPopup(Whole(s), tabId)];
      } else if m.kind.LoadSavedSettings? {
        LoadSettings(Whole(w.saved));
        posts := [ToPopup(Whole(w.saved), tabId)];
      } else if m.kind.LoadPreset? {
        if m.preset.Some? {
          LoadSettings(EqOnly(m.preset.value));
          posts := [ToPopup(EqOnly(m.preset.value), tabId)];
        }
      } else {
        var s := GetSettings();
        posts := [ToWorker("saveToStorage", Some(s))];
      }
    }

    /** The cases that write one parameter from `value`: volume, the compressor and band keys, pan, setMono, setInvert. */
    method PerformWrite(m: Message)
      requires Valid()
      requires IsWrite(m.kind)
      modifies this
      ensures Valid()
      ensures Current() == Write(old(Current()), m.kind, m.value)
      ensures windowState == old(windowState)
    {
      if !m.value.Missing? {
        var v := m.value;
        match m.kind {
          case Volume => LoadVolume(Some(ToNumber(v)));
          case CompressorParam(k) => ChangeCompressor(k, ToNumber(v));
          case BandGain(b) => ChangeBand(b, ToNumber(v));
          case Pan => ChangePan(ToNumber(v));
          case SetMono => ChangeMono(Truthy(v));
          case SetInvert => ChangeInvert(Truthy(v));
        }
      }
    }

    /** getSettings: the live flags, pan, volume, compressor parameters and band gains. */
    method GetSettings() returns (r: Settings)
      ensures r == Current()
    {
      var values: seq<real> := [];
      for i := 0 to |eq|
        invariant values == Gains()[..i]
      {
        values := values + [eq[i].gain];
      }
      assert values == Gains();
      r := Settings(compressor, values, mono, invert, pan, volume);
    }

    /** stopAudio: the source, volume, compressor and bands are disconnected and the context closed. */
    method StopAudio() returns (ok: bool)
      modifies this
      ensures ok && stopped
      ensures edges == WithoutAll(old(edges), {Stream, VolumeGain, Compressor} + set i | 0 <= i < BandCount :: BandNodes[i])
    {
      edges := Without(edges, Stream);
      edges := Without(edges, VolumeGain);
      edges := Without(edges, Compressor);
      ghost var before := edges;
      for i := 0 to BandCount
        invariant edges == WithoutAll(before, set j | 0 <= j < i :: BandNodes[j])
      {
        edges := Without(edges, BandNodes[i]);
      }
      stopped := true;
      ok := true;
    }
  }
}
