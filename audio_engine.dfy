/**
 * The offscreen AudioEngine: one per captured tab.  Its audio graph is
 *
 *   source -> panSplitter -> leftGain/rightGain -> panMerger
 *          -> [monoGain] -> monoSplitter => monoMerger
 *          -> [pitch] -> [chorus] -> [convolver] -> ten EQ bands
 *          -> compressor -> audioGain -> destination
 *
 * The model keeps the set of connections and the gain values the engine
 * writes.  A pan gain is kept as the term it is computed from, cos or sin of
 * pi/4 times a real, since the model does not evaluate trigonometry.
 */
module Engine {
  import opened Graph
  import Pitch
  import Wrappers
  import Json

  datatype Node =
    | Source
    | PanSplitter | LeftGain | RightGain | PanMerger
    | MonoSplitter | MonoGain | MonoMerger
    | PitchInput | PitchOutput | Chorus | Convolver
    | Twenty | Fifty | OneHundred | TwoHundred | FiveHundred
    | OneThousand | TwoThousand | FiveThousand | TenThousand | TwentyThousand
    | Compressor | AudioGain | Destination

  datatype FilterKind = LowShelf | Peaking | HighShelf

  /** A biquad filter's settings; `q` is None where the engine leaves the browser default. */
  datatype Filter = Filter(kind: FilterKind, frequency: real, q: Wrappers.Option<real>, gain: real)

  datatype CompressorSettings = CompressorSettings(
    threshold: real, attack: real, release: real, makeupGain: real,
    ratio: real, knee: real, bypass: bool, automakeup: bool)

  datatype ConvolverSettings = ConvolverSettings(
    highCut: real, lowCut: real, dryLevel: real, wetLevel: real, level: real, bypass: bool)

  datatype ChorusSettings = ChorusSettings(rate: real, depth: real, feedback: real, delay: real)

  datatype Settings = Settings(
    isChorus: bool, isConvolver: bool,
    compressor: CompressorSettings, convolver: ConvolverSettings, chorus: ChorusSettings,
    isMono: bool, isInvert: bool, isPitch: bool,
    volume: real, balance: real, eq: seq<real>)

  const BandCount := 10

  /** Centre or corner frequency of each band, in Hz. */
  const BandFrequencies: seq<real> :=
    [32.0, 64.0, 125.0, 250.0, 500.0, 1000.0, 2000.0, 4000.0, 8000.0, 16000.0]

  /** setupEQ: shelf at both ends, peaking with Q = 5 in between. */
  function BandFilter(i: nat, gain: real): (f: Filter)
    requires i < BandCount
    ensures f.frequency == BandFrequencies[i] && f.gain == gain
    ensures f.kind == LowShelf <==> i == 0
    ensures f.kind == HighShelf <==> i == BandCount - 1
    ensures f.q.Some? <==> f.kind == Peaking
    ensures f.q.Some? ==> f.q.value == 5.0
  {
    if i == 0 then Filter(LowShelf, BandFrequencies[i], Wrappers.None, gain)
    else if i == BandCount - 1 then Filter(HighShelf, BandFrequencies[i], Wrappers.None, gain)
    else Filter(Peaking, BandFrequencies[i], Wrappers.Some(5.0), gain)
  }

  /** The bands are in increasing frequency order. */
  lemma {:induction false} BandsAscending(i: nat, j: nat)
    requires i < j < BandCount
    ensures BandFrequencies[i] < BandFrequencies[j]
    decreases j - i
  {
    if j > i + 1 {
      BandsAscending(i, j - 1);
    }
  }

  /** The filters are setupEQ's ten bands with the given gains. */
  ghost predicate Tuned(filters: seq<Filter>, gains: seq<real>)
  {
    |filters| == BandCount && |gains| == BandCount
    && forall i :: 0 <= i < BandCount ==> filters[i] == BandFilter(i, gains[i])
  }

  /** Each filter is setupEQ's band, whatever its gain. */
  ghost predicate Banded(filters: seq<Filter>)
  {
    |filters| == BandCount && forall i :: 0 <= i < BandCount ==> filters[i] == BandFilter(i, filters[i].gain)
  }

  lemma TunedIsBanded(filters: seq<Filter>, gains: seq<real>)
    requires Tuned(filters, gains)
    ensures Banded(filters)
  {
  }

  /** Changing only the gains of banded filters tunes them to the new gains. */
  lemma Retune(filters: seq<Filter>, values: seq<real>)
    requires Banded(filters) && |values| == BandCount
    ensures Tuned(seq(BandCount, i requires 0 <= i < BandCount => filters[i].(gain := values[i])), values)
  {
  }

  function Clamp(b: real): (c: real)
    ensures -1.0 <= c <= 1.0
    ensures -1.0 <= b <= 1.0 ==> c == b
    ensures b > 1.0 ==> c == 1.0
    ensures b < -1.0 ==> c == -1.0
  {
    if b > 1.0 then 1.0 else if b < -1.0 then -1.0 else b
  }

  lemma ClampOdd(b: real)
    ensures Clamp(-b) == -Clamp(b)
  {
  }

  function Abs(x: real): real
  {
    if x < 0.0 then -x else x
  }

  /** applyMonoPan's gain: 0.6 * (1 - |clamp(b)| / 2). */
  function MonoPanGain(b: real): (g: real)
    ensures 0.3 <= g <= 0.6
    ensures g == 0.6 <==> Clamp(b) == 0.0
    ensures g == 0.3 <==> (b >= 1.0 || b <= -1.0)
  {
    0.6 * (1.0 - Abs(Clamp(b)) / 2.0)
  }

  /** A gain value: a plain number, or cos / sin of pi/4 * `turn`. */
  datatype Level = Value(v: real) | CosQuarterPi(turn: real) | SinQuarterPi(turn: real)

  /** applyPan's angle, in units of pi/4: 1 + clamp(balance). */
  function PanTurn(b: real): (t: real)
    ensures 0.0 <= t <= 2.0
    ensures t == 1.0 <==> Clamp(b) == 0.0
  {
    1.0 + Clamp(b)
  }

  /**
   * Panning the other way mirrors the angle about pi/4, so (as cos(pi/2 - x)
   * == sin x) the left gain for -b equals the right gain for b.
   */
  lemma PanMirror(b: real)
    ensures PanTurn(-b) == 2.0 - PanTurn(b)
  {
    ClampOdd(b);
  }

  /** The effects an engine was created with; they never change afterwards. */
  datatype Effects = Effects(pitch: bool, chorus: bool, convolver: bool)

  /** connectInitialGraph, less its panMerger -> monoSplitter link. */
  const PanStage: set<Edge<Node>> :=
    {Wire(Source, PanSplitter),
     Edge(PanSplitter, LeftGain, 0, 0), Edge(PanSplitter, RightGain, 1, 0),
     Edge(LeftGain, PanMerger, 0, 0), Edge(RightGain, PanMerger, 0, 1)}

  /** The nodes whose outgoing connections applyMono rebuilds. */
  const RoutingNodes: set<Node> := {MonoSplitter, PanMerger, MonoGain}

  /** How panMerger reaches monoSplitter. */
  function MonoRoute(mono: bool): set<Edge<Node>>
  {
    if mono then {Wire(PanMerger, MonoGain), Wire(MonoGain, MonoSplitter)}
    else {Wire(PanMerger, MonoSplitter)}
  }

  /** All four monoSplitter -> monoMerger channel pairs. */
  const AllChannels: set<Edge<Node>> :=
    {Edge(MonoSplitter, MonoMerger, 0, 0), Edge(MonoSplitter, MonoMerger, 1, 0),
     Edge(MonoSplitter, MonoMerger, 0, 1), Edge(MonoSplitter, MonoMerger, 1, 1)}

  /** The monoSplitter -> monoMerger wiring that applyInvert leaves behind. */
  function SplitterEdges(mono: bool, invert: bool): set<Edge<Node>>
  {
    if mono then AllChannels
    else if invert then {Edge(MonoSplitter, MonoMerger, 1, 0), Edge(MonoSplitter, MonoMerger, 0, 1)}
    else {Edge(MonoSplitter, MonoMerger, 0, 0), Edge(MonoSplitter, MonoMerger, 1, 1)}
  }

  /** connectEffectsChain's `currentNode` after the pitch, chorus and convolver steps. */
  function AfterPitch(fx: Effects): Node
  {
    if fx.pitch then PitchOutput else MonoMerger
  }

  function AfterChorus(fx: Effects): Node
  {
    if fx.chorus then Chorus else AfterPitch(fx)
  }

  function AfterConvolver(fx: Effects): Node
  {
    if fx.convolver then Convolver else AfterChorus(fx)
  }

  /** The connections connectEffectsChain makes. */
  function EffectsChain(fx: Effects): set<Edge<Node>>
  {
    (if fx.pitch then {Wire(MonoMerger, PitchInput)} else {})
    + (if fx.chorus then {Wire(AfterPitch(fx), Chorus)} else {})
    + (if fx.convolver then {Wire(AfterChorus(fx), Convolver)} else {})
    + {Wire(AfterConvolver(fx), Twenty)}
  }

  /** The ten filters, band 0 to band 9. */
  const Bands: seq<Node> :=
    [Twenty, Fifty, OneHundred, TwoHundred, FiveHundred, OneThousand, TwoThousand, FiveThousand, TenThousand, TwentyThousand]

  /** The connections connectEQChain makes. */
  const EqChain: set<Edge<Node>> :=
    {Wire(Twenty, Fifty), Wire(Fifty, OneHundred), Wire(OneHundred, TwoHundred),
     Wire(TwoHundred, FiveHundred), Wire(FiveHundred, OneThousand), Wire(OneThousand, TwoThousand),
     Wire(TwoThousand, FiveThousand), Wire(FiveThousand, TenThousand), Wire(TenThousand, TwentyThousand),
     Wire(TwentyThousand, Compressor), Wire(Compressor, AudioGain), Wire(AudioGain, Destination)}

  /** The part of the graph that no setter touches. */
  function Fixed(fx: Effects): set<Edge<Node>>
  {
    PanStage + EffectsChain(fx) + EqChain
  }

  /** The whole graph of an engine with the given flags and effects. */
  function Topology(mono: bool, invert: bool, fx: Effects): set<Edge<Node>>
  {
    Fixed(fx) + MonoRoute(mono) + SplitterEdges(mono, invert)
  }

  lemma FixedAvoidsRouting(fx: Effects)
    ensures NoneFrom(Fixed(fx), RoutingNodes)
  {
  }

  lemma RoutingSources(mono: bool, invert: bool)
    ensures AllFrom(MonoRoute(mono) + SplitterEdges(mono, invert), RoutingNodes)
    ensures NoneFrom(MonoRoute(mono), {MonoSplitter})
    ensures AllFrom(SplitterEdges(mono, invert), {MonoSplitter})
  {
  }

  /**
   * Only the routing nodes' connections depend on the flags: disconnecting
   * the routing nodes leaves exactly the rest of the graph.
   */
  lemma RoutingFree(rest: set<Edge<Node>>, mono: bool, invert: bool)
    requires NoneFrom(rest, RoutingNodes)
    ensures WithoutAll(rest + MonoRoute(mono) + SplitterEdges(mono, invert), RoutingNodes) == rest
  {
    RoutingSources(mono, invert);
    assert rest + MonoRoute(mono) + SplitterEdges(mono, invert) == rest + (MonoRoute(mono) + SplitterEdges(mono, invert));
    WithoutAllSplit(rest, MonoRoute(mono) + SplitterEdges(mono, invert), RoutingNodes);
  }

  /** Rewiring the splitter alone turns the graph for invert i0 into the graph for i1. */
  lemma SplitterRewire(rest: set<Edge<Node>>, mono: bool, i0: bool, i1: bool)
    requires NoneFrom(rest, RoutingNodes)
    ensures Without(rest + MonoRoute(mono) + SplitterEdges(mono, i0), MonoSplitter) + SplitterEdges(mono, i1)
            == rest + MonoRoute(mono) + SplitterEdges(mono, i1)
  {
    RoutingSources(mono, i0);
    assert NoneFrom(rest + MonoRoute(mono), {MonoSplitter});
    WithoutSplit(rest + MonoRoute(mono), SplitterEdges(mono, i0), MonoSplitter);
  }

  /** The splitter's wiring is determined by the mono and invert flags alone. */
  lemma SplitterDependsOnlyOnFlags(mono: bool, invert: bool, fx: Effects)
    ensures From(Topology(mono, invert, fx), MonoSplitter) == SplitterEdges(mono, invert)
  {
    FixedAvoidsRouting(fx);
    RoutingSources(mono, invert);
    FromSplit(Fixed(fx) + MonoRoute(mono), SplitterEdges(mono, invert), MonoSplitter);
  }

  /** Stereo: straight channels, or swapped ones when inverted. */
  lemma StereoChannels(invert: bool)
    ensures Channels(SplitterEdges(false, invert), MonoSplitter, MonoMerger)
      == if invert then {(1, 0), (0, 1)} else {(0, 0), (1, 1)}
  {
    var r := Channels(SplitterEdges(false, invert), MonoSplitter, MonoMerger);
    if invert {
      assert (1, 0) in r && (0, 1) in r;
    } else {
      assert (0, 0) in r && (1, 1) in r;
    }
  }

  /** Mono: every input channel feeds every output channel, so invert has no effect. */
  lemma MonoIgnoresInvert(invert: bool)
    ensures Channels(SplitterEdges(true, invert), MonoSplitter, MonoMerger) == {(0, 0), (1, 0), (0, 1), (1, 1)}
    ensures SplitterEdges(true, invert) == SplitterEdges(true, !invert)
  {
    var r := Channels(SplitterEdges(true, invert), MonoSplitter, MonoMerger);
    assert (0, 0) in r && (1, 0) in r && (0, 1) in r && (1, 1) in r;
  }

  /** In mono the signal passes through monoGain; in stereo panMerger feeds the splitter directly. */
  lemma MonoRouting(mono: bool, invert: bool, fx: Effects)
    ensures From(Topology(mono, invert, fx), PanMerger) == if mono then {Wire(PanMerger, MonoGain)} else {Wire(PanMerger, MonoSplitter)}
    ensures From(Topology(mono, invert, fx), MonoGain) == if mono then {Wire(MonoGain, MonoSplitter)} else {}
  {
    var f, r, sp := Fixed(fx), MonoRoute(mono), SplitterEdges(mono, invert);
    FixedAvoidsRouting(fx);
    SplitterOnlyFromSplitter(mono, invert);
    MonoRouteFrom(mono);
    FromUnion(f + r, sp, PanMerger);
    FromUnion(f, r, PanMerger);
    FromNone(f, RoutingNodes, PanMerger);
    FromNone(sp, {PanMerger, MonoGain}, PanMerger);
    FromUnion(f + r, sp, MonoGain);
    FromUnion(f, r, MonoGain);
    FromNone(f, RoutingNodes, MonoGain);
    FromNone(sp, {PanMerger, MonoGain}, MonoGain);
  }

  lemma SplitterOnlyFromSplitter(mono: bool, invert: bool)
    ensures NoneFrom(SplitterEdges(mono, invert), {PanMerger, MonoGain})
  {
  }

  /** The edges of the mono route that leave panMerger and monoGain. */
  lemma MonoRouteFrom(mono: bool)
    ensures From(MonoRoute(mono), PanMerger) == if mono then {Wire(PanMerger, MonoGain)} else {Wire(PanMerger, MonoSplitter)}
    ensures From(MonoRoute(mono), MonoGain) == if mono then {Wire(MonoGain, MonoSplitter)} else {}
  {
    if mono {
      assert Wire(PanMerger, MonoGain) in From(MonoRoute(mono), PanMerger);
      assert Wire(MonoGain, MonoSplitter) in From(MonoRoute(mono), MonoGain);
    } else {
      assert Wire(PanMerger, MonoSplitter) in From(MonoRoute(mono), PanMerger);
    }
  }

  /** The node that band k feeds: the next band, or the compressor after the last. */
  function BandSuccessor(k: nat): Node
    requires k < BandCount
  {
    if k + 1 < BandCount then Bands[k + 1] else Compressor
  }

  /** The edges leaving any node other than a routing node do not depend on the flags. */
  lemma FromFixed(mono: bool, invert: bool, fx: Effects, n: Node)
    requires n !in RoutingNodes
    ensures From(Topology(mono, invert, fx), n) == From(Fixed(fx), n)
  {
    RoutingSources(mono, invert);
    assert Topology(mono, invert, fx) == Fixed(fx) + (MonoRoute(mono) + SplitterEdges(mono, invert));
  }

  /** Nodes that the pan stage and the effects chain connect from. */
  const ChainHeads: set<Node> :=
    {Source, PanSplitter, LeftGain, RightGain, MonoMerger, PitchOutput, Chorus, Convolver}

  lemma HeadSources(fx: Effects)
    ensures AllFrom(PanStage + EffectsChain(fx), ChainHeads)
  {
    assert AllFrom(PanStage, ChainHeads);
    assert AllFrom(EffectsChain(fx), ChainHeads);
  }

  /** Outside the pan stage and the effects chain, only the EQ chain connects a node. */
  lemma FromEqChain(mono: bool, invert: bool, fx: Effects, n: Node)
    requires n !in RoutingNodes && n !in ChainHeads
    ensures From(Topology(mono, invert, fx), n) == From(EqChain, n)
  {
    FromFixed(mono, invert, fx, n);
    HeadSources(fx);
    FromUnion(PanStage + EffectsChain(fx), EqChain, n);
    assert NoneFrom(PanStage + EffectsChain(fx), {n});
    FromNone(PanStage + EffectsChain(fx), {n}, n);
  }

  /** Within the EQ chain, band k connects to its successor only. */
  lemma EqChainFrom(k: nat)
    requires k < BandCount
    ensures From(EqChain, Bands[k]) == {Wire(Bands[k], BandSuccessor(k))}
  {
    var r := From(EqChain, Bands[k]);
    assert Wire(Bands[k], BandSuccessor(k)) in r;
  }

  /** The ten bands form a chain in frequency order, ending at the compressor. */
  lemma EqChainOrder(mono: bool, invert: bool, fx: Effects, k: nat)
    requires k < BandCount
    ensures From(Topology(mono, invert, fx), Bands[k]) == {Wire(Bands[k], BandSuccessor(k))}
  {
    FromEqChain(mono, invert, fx, Bands[k]);
    EqChainFrom(k);
  }

  /**
   * The node the signal reaches next after the effects stage `stage`
   * (0: monoMerger, 1: pitch, 2: chorus, 3: convolver), skipping
   * the effects the engine does not have.
   */
  function EffectSuccessor(fx: Effects, stage: nat): Node
    requires stage <= 3
  {
    if stage == 0 && fx.pitch then PitchInput
    else if stage <= 1 && fx.chorus then Chorus
    else if stage <= 2 && fx.convolver then Convolver
    else Twenty
  }

  /** The effects chain's edges, source by source. */
  lemma EffectsChainFrom(fx: Effects)
    ensures From(EffectsChain(fx), MonoMerger) == {Wire(MonoMerger, EffectSuccessor(fx, 0))}
    ensures From(EffectsChain(fx), PitchOutput) == if fx.pitch then {Wire(PitchOutput, EffectSuccessor(fx, 1))} else {}
    ensures From(EffectsChain(fx), Chorus) == if fx.chorus then {Wire(Chorus, EffectSuccessor(fx, 2))} else {}
    ensures From(EffectsChain(fx), Convolver) == if fx.convolver then {Wire(Convolver, Twenty)} else {}
  {
    assert Wire(MonoMerger, EffectSuccessor(fx, 0)) in EffectsChain(fx);
    assert fx.pitch ==> Wire(PitchOutput, EffectSuccessor(fx, 1)) in EffectsChain(fx);
    assert fx.chorus ==> Wire(Chorus, EffectSuccessor(fx, 2)) in EffectsChain(fx);
    assert fx.convolver ==> Wire(Convolver, Twenty) in EffectsChain(fx);
  }

  /** Nodes that connect from within the effects chain. */
  const EffectHeads: set<Node> := {MonoMerger, PitchOutput, Chorus, Convolver}

  lemma EffectHeadSources()
    ensures NoneFrom(PanStage, EffectHeads) && NoneFrom(EqChain, EffectHeads)
  {
  }

  /** The effects chain's nodes connect only within the effects chain. */
  lemma FromEffectsChain(mono: bool, invert: bool, fx: Effects, n: Node)
    requires n in EffectHeads
    ensures From(Topology(mono, invert, fx), n) == From(EffectsChain(fx), n)
  {
    FromFixed(mono, invert, fx, n);
    EffectHeadSources();
    FromUnion(PanStage, EffectsChain(fx), n);
    FromUnion(PanStage + EffectsChain(fx), EqChain, n);
    FromNone(PanStage, EffectHeads, n);
    FromNone(EqChain, EffectHeads, n);
  }

  /** connectEffectsChain chains the present effects in the order pitch, chorus, convolver. */
  lemma EffectsOrder(mono: bool, invert: bool, fx: Effects)
    ensures From(Topology(mono, invert, fx), MonoMerger) == {Wire(MonoMerger, EffectSuccessor(fx, 0))}
    ensures From(Topology(mono, invert, fx), PitchOutput)
            == if fx.pitch then {Wire(PitchOutput, EffectSuccessor(fx, 1))} else {}
    ensures From(Topology(mono, invert, fx), Chorus)
            == if fx.chorus then {Wire(Chorus, EffectSuccessor(fx, 2))} else {}
    ensures From(Topology(mono, invert, fx), Convolver)
            == if fx.convolver then {Wire(Convolver, Twenty)} else {}
  {
    EffectsChainFrom(fx);
    FromEffectsChain(mono, invert, fx, MonoMerger);
    FromEffectsChain(mono, invert, fx, PitchOutput);
    FromEffectsChain(mono, invert, fx, Chorus);
    FromEffectsChain(mono, invert, fx, Convolver);
  }

  /** changePitch's argument `pitchValue.value || pitchValue`. */
  function PitchArgument(arg: Json.JsValue): (r: Json.JsValue)
    ensures arg.JNum? ==> r == arg
    ensures arg.JObj? && "value" in arg.fields && Json.Truthy(arg.fields["value"]) ==> r == arg.fields["value"]
    ensures r == arg || r == Json.Get(arg, "value")
  {
    var inner := Json.Get(arg, "value");
    if Json.Truthy(inner) then inner else arg
  }

  /** A wrapped zero is not unwrapped: `{value: 0}` passes on the object itself. */
  lemma PitchArgumentWrappedZero()
    ensures PitchArgument(Json.JObj(map["value" := Json.Num(0.0)])) == Json.JObj(map["value" := Json.Num(0.0)])
  {
  }

  /** The constructor's pitch block as intended (see NewEngineAsWritten): a new Jungle, its value and offset set to 0. */
  method CreatePitch(periodSamples: nat, now: real, sqrt: real -> real) returns (j: Pitch.Jungle)
    ensures fresh(j) && j.Valid() && !j.ShiftingUp() && j.value == 0.0 && j.modGain1Target == 0.0
  {
    j := new Pitch.Jungle(periodSamples, now, sqrt);
    j.value := 0.0;
    j.SetPitchOffset(0.0);
  }

  /** A GainNode; the model keeps its `gain` parameter. */
  class GainNode {
    var gain: Level

    constructor()
      ensures gain == Value(1.0)
    {
      gain := Value(1.0);
    }
  }

  class AudioEngine {
    const tabId: int
    const hasChorus: bool
    const hasConvolver: bool
    /** The pitch shifter, present only when the engine was created with isPitch. */
    const pitch: Pitch.Jungle?
    /** The connections of the engine's audio context. */
    const graph: AudioGraph<Node>
    /** The connections that no setter touches: everything but the routing nodes'. */
    ghost const fixed: set<Edge<Node>>
    const leftGain: GainNode
    const rightGain: GainNode
    const monoGain: GainNode
    const audioGain: GainNode

    var settings: Settings
    var currentMono: bool
    var currentInvert: bool
    var currentPan: real
    /** The ten biquad filters, band 0 first. */
    var filters: seq<Filter>
    var closed: bool

    function Fx(): Effects
    {
      Effects(pitch != null, hasChorus, hasConvolver)
    }

    /** The four gain nodes are four different objects. */
    predicate Distinct()
    {
      leftGain != rightGain && leftGain != monoGain && rightGain != monoGain
      && audioGain != leftGain && audioGain != rightGain && audioGain != monoGain
    }

    ghost predicate Valid()
      reads this, graph
    {
      Distinct()
      && NoneFrom(fixed, RoutingNodes)
      && graph.edges == fixed + MonoRoute(currentMono) + SplitterEdges(currentMono, currentInvert)
      && settings.isMono == currentMono && settings.isInvert == currentInvert
      && settings.balance == currentPan
      && Tuned(filters, settings.eq)
      && !closed
    }

    /** A valid engine's graph is the topology for its flags and effects. */
    lemma WiredAsTopology()
      requires Valid() && fixed == Fixed(Fx())
      ensures graph.edges == Topology(currentMono, currentInvert, Fx())
    {
    }

    /** The live EQ gains, band by band. */
    function Gains(): (g: seq<real>)
      reads this, graph
      requires Valid()
      ensures g == settings.eq
    {
      var f := filters;
      seq(BandCount, i requires 0 <= i < BandCount => f[i].gain)
    }

    /**
     * `periodSamples`, `now` and `sqrt` are what the pitch shifter needs
     * from the audio context.
     */
    constructor(tabId: int, s: Settings, periodSamples: nat, now: real, sqrt: real -> real)
      requires |s.eq| == BandCount
      ensures Valid() && fresh(graph) && fresh({leftGain, rightGain, monoGain, audioGain})
      ensures this.tabId == tabId && fixed == Fixed(Fx())
      ensures settings == s && currentPan == s.balance
      ensures (pitch != null) == s.isPitch && hasChorus == s.isChorus && hasConvolver == s.isConvolver
      ensures pitch != null ==> fresh(pitch) && pitch.Valid() && !pitch.ShiftingUp() && pitch.value == 0.0
      ensures audioGain.gain == Value(s.volume)
      ensures var flip := s.isMono && s.isInvert && s.balance != 0.0;
        var b := if flip then -s.balance else s.balance;
        leftGain.gain == CosQuarterPi(PanTurn(b)) && rightGain.gain == SinQuarterPi(PanTurn(b))
      ensures monoGain.gain == Value(if s.isMono then MonoPanGain(s.balance) else 0.6)
    {
      this.tabId := tabId;
      settings := s;
      currentMono := s.isMono;
      currentInvert := s.isInvert;
      currentPan := s.balance;
      audioGain := new GainNode();
      hasChorus := s.isChorus;
      hasConvolver := s.isConvolver;
      if s.isPitch {
        var j := CreatePitch(periodSamples, now, sqrt);
        pitch := j;
      } else {
        pitch := null;
      }
      leftGain := new GainNode();
      rightGain := new GainNode();
      monoGain := new GainNode();
      graph := new AudioGraph();
      filters := [];
      closed := false;
      fixed := Fixed(Effects(s.isPitch, s.isChorus, s.isConvolver));
      new;
      Start(s);
    }

    /**
     * The constructor's second half: the EQ, the initial gain values, the
     * connections, then pan, mono and invert in that order.
     */
    method Start(s: Settings)
      requires |s.eq| == BandCount && Distinct() && graph.edges == {} && fixed == Fixed(Fx())
      requires settings == s && currentMono == s.isMono && currentInvert == s.isInvert && currentPan == s.balance
      requires !closed
      modifies this, graph, leftGain, rightGain, monoGain, audioGain
      ensures Valid() && settings == s && currentPan == s.balance
      ensures audioGain.gain == Value(s.volume)
      ensures var flip := s.isMono && s.isInvert && s.balance != 0.0;
        var b := if flip then -s.balance else s.balance;
        leftGain.gain == CosQuarterPi(PanTurn(b)) && rightGain.gain == SinQuarterPi(PanTurn(b))
      ensures monoGain.gain == Value(if s.isMono then MonoPanGain(s.balance) else 0.6)
    {
      SetupEq(s.eq);
      audioGain.gain := Value(s.volume);
      monoGain.gain := Value(0.6);
      ConnectAll();
      ApplyPanMonoInvert();
    }

    /** setupEQ: type, frequency, Q and gain of every band. */
    method SetupEq(values: seq<real>)
      requires |values| == BandCount
      modifies this
      ensures Tuned(filters, values)
      ensures settings == old(settings) && closed == old(closed)
      ensures currentMono == old(currentMono) && currentInvert == old(currentInvert) && currentPan == old(currentPan)
    {
      filters := [
        Filter(LowShelf, 32.0, Wrappers.None, values[0]),
        Filter(Peaking, 64.0, Wrappers.Some(5.0), values[1]),
        Filter(Peaking, 125.0, Wrappers.Some(5.0), values[2]),
        Filter(Peaking, 250.0, Wrappers.Some(5.0), values[3]),
        Filter(Peaking, 500.0, Wrappers.Some(5.0), values[4]),
        Filter(Peaking, 1000.0, Wrappers.Some(5.0), values[5]),
        Filter(Peaking, 2000.0, Wrappers.Some(5.0), values[6]),
        Filter(Peaking, 4000.0, Wrappers.Some(5.0), values[7]),
        Filter(Peaking, 8000.0, Wrappers.Some(5.0), values[8]),
        Filter(HighShelf, 16000.0, Wrappers.None, values[9])
      ];
    }

    /** The constructor's connection block: the three connect steps in order, on a fresh graph. */
    method ConnectAll()
      requires graph.edges == {} && fixed == Fixed(Fx())
      modifies graph
      ensures graph.edges == fixed + {Wire(PanMerger, MonoSplitter)}
      ensures NoneFrom(fixed, RoutingNodes) && WithoutAll(graph.edges, RoutingNodes) == fixed
    {
      ConnectInitialGraph();
      ConnectEffectsChain();
      ConnectEqChain();
      FixedAvoidsRouting(Fx());
      WithoutAllSplit(Fixed(Fx()), {Wire(PanMerger, MonoSplitter)}, RoutingNodes);
    }

    method ConnectInitialGraph()
      modifies graph
      ensures graph.edges == old(graph.edges) + PanStage + {Wire(PanMerger, MonoSplitter)}
    {
      graph.Connect(Wire(Source, PanSplitter));
      graph.Connect(Edge(PanSplitter, LeftGain, 0, 0));
      graph.Connect(Edge(PanSplitter, RightGain, 1, 0));
      graph.Connect(Edge(LeftGain, PanMerger, 0, 0));
      graph.Connect(Edge(RightGain, PanMerger, 0, 1));
      graph.Connect(Wire(PanMerger, MonoSplitter));
    }

    method ConnectEffectsChain()
      modifies graph
      ensures graph.edges == old(graph.edges) + EffectsChain(Fx())
    {
      var currentNode := MonoMerger;
      if pitch != null {
        graph.Connect(Wire(currentNode, PitchInput));
        currentNode := PitchOutput;
      }
      if hasChorus {
        graph.Connect(Wire(currentNode, Chorus));
        currentNode := Chorus;
      }
      if hasConvolver {
        graph.Connect(Wire(currentNode, Convolver));
        currentNode := Convolver;
      }
      graph.Connect(Wire(currentNode, Twenty));
    }

    method ConnectEqChain()
      modifies graph
      ensures graph.edges == old(graph.edges) + EqChain
    {
      graph.Connect(Wire(Twenty, Fifty));
      graph.Connect(Wire(Fifty, OneHundred));
      graph.Connect(Wire(OneHundred, TwoHundred));
      graph.Connect(Wire(TwoHundred, FiveHundred));
      // the first four links
      assert graph.edges == old(graph.edges) + {Wire(Twenty, Fifty), Wire(Fifty, OneHundred), Wire(OneHundred, TwoHundred),
        Wire(TwoHundred, FiveHundred)};
      graph.Connect(Wire(FiveHundred, OneThousand));
      graph.Connect(Wire(OneThousand, TwoThousand));
      graph.Connect(Wire(TwoThousand, FiveThousand));
      graph.Connect(Wire(FiveThousand, TenThousand));
      // the first eight links
      assert graph.edges == old(graph.edges) + {Wire(Twenty, Fifty), Wire(Fifty, OneHundred), Wire(OneHundred, TwoHundred),
        Wire(TwoHundred, FiveHundred), Wire(FiveHundred, OneThousand), Wire(OneThousand, TwoThousand),
        Wire(TwoThousand, FiveThousand), Wire(FiveThousand, TenThousand)};
      graph.Connect(Wire(TenThousand, TwentyThousand));
      graph.Connect(Wire(TwentyThousand, Compressor));
      graph.Connect(Wire(Compressor, AudioGain));
      graph.Connect(Wire(AudioGain, Destination));
    }

    method SetVolume(v: real)
      modifies this, audioGain
      ensures settings == old(settings).(volume := v) && audioGain.gain == Value(v)
      ensures filters == old(filters) && closed == old(closed)
      ensures currentMono == old(currentMono) && currentInvert == old(currentInvert) && currentPan == old(currentPan)
    {
      settings := settings.(volume := v);
      audioGain.gain := Value(v);
    }

    /**
     * setEQ with exactly ten values; with fewer the browser rejects the
     * NaN gain that `Number(undefined)` produces.
     */
    method SetEq(values: seq<real>)
      requires |values| == BandCount && Banded(filters)
      modifies this
      ensures settings == old(settings).(eq := values)
      ensures Tuned(filters, values)
      ensures closed == old(closed)
      ensures currentMono == old(currentMono) && currentInvert == old(currentInvert) && currentPan == old(currentPan)
    {
      var f := filters;
      Retune(f, values);
      settings := settings.(eq := values);
      filters := seq(BandCount, i requires 0 <= i < BandCount => f[i].(gain := values[i]));
    }

    method ApplyPan(balance: real)
      requires Distinct()
      modifies leftGain, rightGain
      ensures leftGain.gain == CosQuarterPi(PanTurn(balance)) && rightGain.gain == SinQuarterPi(PanTurn(balance))
    {
      var clamped := Clamp(balance);
      leftGain.gain := CosQuarterPi(1.0 + clamped);
      rightGain.gain := SinQuarterPi(1.0 + clamped);
    }

    method ApplyMonoPan(balance: real)
      requires Distinct()
      modifies monoGain, leftGain, rightGain
      ensures monoGain.gain == Value(MonoPanGain(balance))
      ensures leftGain.gain == (if currentInvert then CosQuarterPi(PanTurn(-balance)) else old(leftGain.gain))
      ensures rightGain.gain == (if currentInvert then SinQuarterPi(PanTurn(-balance)) else old(rightGain.gain))
    {
      var clamped := Clamp(balance);
      var monoPanFactor := 1.0 - Abs(clamped) / 2.0;
      monoGain.gain := Value(0.6 * monoPanFactor);
      if currentInvert {
        ApplyPan(-balance);
      }
    }

    method SetPan(balance: real)
      requires Valid()
      modifies this, leftGain, rightGain, monoGain
      ensures Valid()
      ensures settings == old(settings).(balance := balance) && currentPan == balance
      ensures var b := if currentMono && currentInvert then -balance else balance;
        leftGain.gain == CosQuarterPi(PanTurn(b)) && rightGain.gain == SinQuarterPi(PanTurn(b))
      ensures monoGain.gain == if currentMono then Value(MonoPanGain(balance)) else old(monoGain.gain)
      ensures filters == old(filters)
      ensures currentMono == old(currentMono) && currentInvert == old(currentInvert)
    {
      settings := settings.(balance := balance);
      currentPan := balance;
      ApplyPan(balance);
      if currentMono {
        ApplyMonoPan(balance);
      }
    }

    method ApplyInvert()
      modifies graph
      ensures graph.edges == Without(old(graph.edges), MonoSplitter) + SplitterEdges(currentMono, currentInvert)
    {
      graph.Disconnect(MonoSplitter);
      if currentInvert {
        if currentMono {
          graph.Connect(Edge(MonoSplitter, MonoMerger, 1, 0));
          graph.Connect(Edge(MonoSplitter, MonoMerger, 0, 0));
          graph.Connect(Edge(MonoSplitter, MonoMerger, 1, 1));
          graph.Connect(Edge(MonoSplitter, MonoMerger, 0, 1));
        } else {
          graph.Connect(Edge(MonoSplitter, MonoMerger, 1, 0));
          graph.Connect(Edge(MonoSplitter, MonoMerger, 0, 1));
        }
      } else {
        if currentMono {
          graph.Connect(Edge(MonoSplitter, MonoMerger, 0, 0));
          graph.Connect(Edge(MonoSplitter, MonoMerger, 1, 0));
          graph.Connect(Edge(MonoSplitter, MonoMerger, 0, 1));
          graph.Connect(Edge(MonoSplitter, MonoMerger, 1, 1));
        } else {
          graph.Connect(Edge(MonoSplitter, MonoMerger, 0, 0));
          graph.Connect(Edge(MonoSplitter, MonoMerger, 1, 1));
        }
      }
    }

    /**
     * applyMono rebuilds the routing nodes for `enabled`, then lets
     * applyInvert rewire the splitter.
     */
    method ApplyMono(enabled: bool)
      requires Distinct()
      modifies graph, monoGain, leftGain, rightGain
      ensures graph.edges == WithoutAll(old(graph.edges), RoutingNodes)
                             + MonoRoute(enabled) + SplitterEdges(currentMono, currentInvert)
      ensures monoGain.gain == if !enabled then Value(0.6)
                               else if currentPan != 0.0 then Value(MonoPanGain(currentPan))
                               else old(monoGain.gain)
      ensures var flip := enabled && currentPan != 0.0 && currentInvert;
        leftGain.gain == (if flip then CosQuarterPi(PanTurn(-currentPan)) else old(leftGain.gain))
        && rightGain.gain == (if flip then SinQuarterPi(PanTurn(-currentPan)) else old(rightGain.gain))
    {
      ghost var base := WithoutAll(graph.edges, RoutingNodes);
      WithoutThree(graph.edges, MonoSplitter, PanMerger, MonoGain);
      graph.Disconnect(MonoSplitter);
      graph.Disconnect(PanMerger);
      graph.Disconnect(MonoGain);
      assert graph.edges == base;
      ghost var stage: set<Edge<Node>>;
      if enabled {
        graph.Connect(Wire(PanMerger, MonoGain));
        graph.Connect(Wire(MonoGain, MonoSplitter));
        graph.Connect(Edge(MonoSplitter, MonoMerger, 0, 0));
        graph.Connect(Edge(MonoSplitter, MonoMerger, 1, 0));
        graph.Connect(Edge(MonoSplitter, MonoMerger, 0, 1));
        graph.Connect(Edge(MonoSplitter, MonoMerger, 1, 1));
        stage := AllChannels;
        assert graph.edges == base + MonoRoute(true) + stage;
        if currentPan != 0.0 {
          ApplyMonoPan(currentPan);
        }
      } else {
        graph.Connect(Wire(PanMerger, MonoSplitter));
        graph.Connect(Edge(MonoSplitter, MonoMerger, 0, 0));
        graph.Connect(Edge(MonoSplitter, MonoMerger, 1, 1));
        stage := SplitterEdges(false, false);
        assert graph.edges == base + MonoRoute(false) + stage;
        monoGain.gain := Value(0.6);
      }
      RoutingSources(enabled, false);
      WithoutSplit(base + MonoRoute(enabled), stage, MonoSplitter);
      ApplyInvert();
    }

    /**
     * The constructor and reset both end with applyPan(balance),
     * applyMono(isMono) and applyInvert(), once the flags and the balance
     * are stored; the routing nodes' connections are then rebuilt from
     * scratch.
     */
    method ApplyPanMonoInvert()
      requires Distinct() && NoneFrom(fixed, RoutingNodes) && WithoutAll(graph.edges, RoutingNodes) == fixed
      modifies graph, monoGain, leftGain, rightGain
      ensures graph.edges == fixed + MonoRoute(currentMono) + SplitterEdges(currentMono, currentInvert)
      ensures var b := if currentMono && currentInvert && currentPan != 0.0 then -currentPan else currentPan;
        leftGain.gain == CosQuarterPi(PanTurn(b)) && rightGain.gain == SinQuarterPi(PanTurn(b))
      ensures monoGain.gain == if !currentMono then Value(0.6)
                               else if currentPan != 0.0 then Value(MonoPanGain(currentPan))
                               else old(monoGain.gain)
    {
      ApplyPan(currentPan);
      ApplyMono(currentMono);
      ApplyInvert();
      SplitterRewire(fixed, currentMono, currentInvert, currentInvert);
    }

    method SetMono(enabled: bool)
      requires Valid()
      modifies this, graph, monoGain, leftGain, rightGain
      ensures Valid()
      ensures enabled == old(currentMono) ==> unchanged(this, graph, monoGain, leftGain, rightGain)
      ensures currentMono == enabled && settings == old(settings).(isMono := enabled)
      ensures enabled != old(currentMono) ==>
        monoGain.gain == if !enabled then Value(0.6)
                         else if currentPan != 0.0 then Value(MonoPanGain(currentPan))
                         else old(monoGain.gain)
      ensures var flip := enabled != old(currentMono) && enabled && currentPan != 0.0 && currentInvert;
        leftGain.gain == (if flip then CosQuarterPi(PanTurn(-currentPan)) else old(leftGain.gain))
        && rightGain.gain == (if flip then SinQuarterPi(PanTurn(-currentPan)) else old(rightGain.gain))
      ensures currentInvert == old(currentInvert) && currentPan == old(currentPan) && filters == old(filters)
    {
      if currentMono == enabled {
        return;
      }
      settings := settings.(isMono := enabled);
      currentMono := enabled;
      RoutingFree(fixed, old(currentMono), currentInvert);
      ApplyMono(enabled);
    }

    method SetInvert(enabled: bool)
      requires Valid()
      modifies this, graph
      ensures Valid()
      ensures enabled == old(currentInvert) ==> unchanged(this, graph)
      ensures currentInvert == enabled && settings == old(settings).(isInvert := enabled)
      ensures currentMono == old(currentMono) && currentPan == old(currentPan) && filters == old(filters)
    {
      if currentInvert == enabled {
        return;
      }
      settings := settings.(isInvert := enabled);
      currentInvert := enabled;
      ApplyInvert();
      SplitterRewire(fixed, currentMono, old(currentInvert), currentInvert);
    }

    /** reset: adopt new settings; the effects the engine was created with stay. */
    method Reset(s: Settings)
      requires Valid() && |s.eq| == BandCount
      modifies this, graph, leftGain, rightGain, monoGain, audioGain
      modifies pitch
      ensures Valid()
      ensures settings == s
      ensures audioGain.gain == Value(s.volume)
      ensures var flip := s.isMono && s.balance != 0.0 && s.isInvert;
        var b := if flip then -s.balance else s.balance;
        leftGain.gain == CosQuarterPi(PanTurn(b)) && rightGain.gain == SinQuarterPi(PanTurn(b))
      ensures monoGain.gain == if !s.isMono then Value(0.6)
                               else if s.balance != 0.0 then Value(MonoPanGain(s.balance))
                               else old(monoGain.gain)
      ensures pitch != null ==> pitch.Valid() && !pitch.ShiftingUp() && pitch.value == 0.0 && pitch.modGain1Target == 0.0
    {
      ghost var oldMono, oldInvert := currentMono, currentInvert;
      TunedIsBanded(filters, settings.eq);
      settings := s;
      currentMono := s.isMono;
      currentInvert := s.isInvert;
      currentPan := s.balance;
      SetVolume(s.volume);
      SetEq(s.eq);
      RoutingFree(fixed, oldMono, oldInvert);
      ApplyPanMonoInvert();
      if pitch != null {
        pitch.SetPitchOffset(0.0);
        pitch.value := 0.0;
      }
    }

    /** changePitch with a numeric argument. */
    method ChangePitch(v: real)
      modifies pitch
      ensures pitch != null ==> pitch.Valid() && (pitch.ShiftingUp() <==> v > 0.0) && pitch.value == v
    {
      if pitch != null {
        pitch.SetPitchOffset(v);
        pitch.value := v;
      }
    }

    /** getSettings: the reported settings are the live flags, balance and band gains. */
    function GetSettings(): (r: Settings)
      reads this, graph
      requires Valid()
      ensures r.isMono == currentMono && r.isInvert == currentInvert && r.balance == currentPan
      ensures r.eq == Gains()
    {
      settings
    }

    /** destroy: the source is disconnected and the context closed. */
    method Destroy()
      modifies this, graph
      ensures closed && graph.edges == Without(old(graph.edges), Source)
    {
      graph.Disconnect(Source);
      closed := true;
    }
  }

  /**
   * `new AudioEngine(settings)` as the source is written: AudioEngine.ts
   * imports Jungle.ts only for its side effects (line 1), so the name
   * `Jungle` at line 125 is unbound and the pitch block throws a
   * ReferenceError.  Settings asking for pitch give no engine; any other
   * settings give the engine the constructor builds, without a shifter,
   * so the pitch branches of changePitch and reset never run.
   */
  method NewEngineAsWritten(tabId: int, s: Settings, periodSamples: nat, now: real, sqrt: real -> real)
    returns (r: Wrappers.Option<AudioEngine>)
    requires |s.eq| == BandCount
    ensures r.None? <==> s.isPitch
    ensures r.Some? ==> fresh(r.value) && r.value.Valid() && r.value.settings == s && r.value.pitch == null
                        && r.value.tabId == tabId && r.value.fixed == Fixed(r.value.Fx())
  {
    if s.isPitch {
      return Wrappers.None;
    }
    var e := new AudioEngine(tabId, s, periodSamples, now, sqrt);
    return Wrappers.Some(e);
  }
}
