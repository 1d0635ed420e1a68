/**
 * The content script's AudioProcessor (src/utils/audioProcessor.ts): one
 * audio context per media element, with a chain of peaking filters, an
 * optional mono stage, an optional channel-swap stage, a gain and a stereo
 * panner.  Each rebuild of the graph creates new splitter and merger
 * nodes; the model names a created node by a creation counter, so a node
 * made by an earlier rebuild is never confused with the current one.
 */
module Processor {
  import opened Wrappers
  import opened Graph
  import opened Types

  datatype Node = Source | Filter(i: nat) | Splitter(k: nat) | Merger(k: nat) | Gain | Panner | Destination

  /** A biquad filter's fixed parameters. */
  datatype Biquad = Biquad(kind: string, frequency: real, q: real)

  /** A splitter and a merger made for one stage. */
  datatype Pair = Pair(splitter: nat, merger: nat)

  /** The stage a splitter field and a merger field hold, if both are set. */
  function StageOf(splitter: Option<nat>, merger: Option<nat>): Option<Pair>
  {
    if splitter.Some? && merger.Some? then Some(Pair(splitter.value, merger.value)) else None
  }

  /** The node the filter chain ends in: the source when there are no filters. */
  function LastFilter(n: nat): Node
  {
    if n == 0 then Source else Filter(n - 1)
  }

  /** source -> filter 0 -> filter 1 -> ... -> filter n-1. */
  function FilterChain(n: nat): (r: set<Edge<Node>>)
  {
    set j | 0 <= j < n :: Wire(LastFilter(j), Filter(j))
  }

  /** The mono stage: every input channel to every output channel. */
  function MonoStage(from: Node, p: Pair): (r: set<Edge<Node>>)
  {
    {Wire(from, Splitter(p.splitter)),
     Edge(Splitter(p.splitter), Merger(p.merger), 0, 0), Edge(Splitter(p.splitter), Merger(p.merger), 0, 1),
     Edge(Splitter(p.splitter), Merger(p.merger), 1, 0), Edge(Splitter(p.splitter), Merger(p.merger), 1, 1)}
  }

  /** The inversion stage: left to right and right to left. */
  function InvertStage(from: Node, p: Pair): (r: set<Edge<Node>>)
  {
    {Wire(from, Splitter(p.splitter)),
     Edge(Splitter(p.splitter), Merger(p.merger), 0, 1), Edge(Splitter(p.splitter), Merger(p.merger), 1, 0)}
  }

  /** gain -> panner -> destination, fed by `from`. */
  function Tail(from: Node): (r: set<Edge<Node>>)
  {
    {Wire(from, Gain), Wire(Gain, Panner), Wire(Panner, Destination)}
  }

  /** The node after the optional mono stage. */
  function AfterMono(n: nat, mono: Option<Pair>): Node
  {
    if mono.Some? then Merger(mono.value.merger) else LastFilter(n)
  }

  /** The node after the optional inversion stage: what feeds the gain. */
  function AfterInvert(n: nat, mono: Option<Pair>, invert: Option<Pair>): Node
  {
    if invert.Some? then Merger(invert.value.merger) else AfterMono(n, mono)
  }

  /** The mono stage after the filters, when there is one. */
  function MonoPart(n: nat, mono: Option<Pair>): set<Edge<Node>>
  {
    if mono.Some? then MonoStage(LastFilter(n), mono.value) else {}
  }

  /** The inversion stage after the mono stage, when there is one. */
  function InvertPart(n: nat, mono: Option<Pair>, invert: Option<Pair>): set<Edge<Node>>
  {
    if invert.Some? then InvertStage(AfterMono(n, mono), invert.value) else {}
  }

  /** The graph a rebuild wires: filters, [mono], [inversion], gain, panner, destination. */
  function Topology(n: nat, mono: Option<Pair>, invert: Option<Pair>): (r: set<Edge<Node>>)
  {
    FilterChain(n) + MonoPart(n, mono) + InvertPart(n, mono, invert) + Tail(AfterInvert(n, mono, invert))
  }

  /** Wiring the parts one after the other on top of `kept` gives the topology on top of `kept`. */
  lemma Assembled(kept: set<Edge<Node>>, n: nat, mono: Option<Pair>, invert: Option<Pair>)
    ensures kept + FilterChain(n) + MonoPart(n, mono) + InvertPart(n, mono, invert) + Tail(AfterInvert(n, mono, invert))
            == kept + Topology(n, mono, invert)
  {
  }

  /** A node of the topology other than the source and the destination. */
  predicate StageNode(x: Node, n: nat, mono: Option<Pair>, invert: Option<Pair>)
  {
    match x
    case Filter(i) => i < n
    case Splitter(k) => (mono.Some? && k == mono.value.splitter) || (invert.Some? && k == invert.value.splitter)
    case Merger(k) => (mono.Some? && k == mono.value.merger) || (invert.Some? && k == invert.value.merger)
    case Gain => true
    case Panner => true
    case _ => false
  }

  /** Every connection of the topology leaves the source or one of its stage nodes. */
  lemma TopologySources(n: nat, mono: Option<Pair>, invert: Option<Pair>)
    ensures forall e | e in Topology(n, mono, invert) :: e.src == Source || StageNode(e.src, n, mono, invert)
  {
    forall e | e in Topology(n, mono, invert)
      ensures e.src == Source || StageNode(e.src, n, mono, invert)
    {
      if e in FilterChain(n) {
        var j :| 0 <= j < n && e == Wire(LastFilter(j), Filter(j));
      } else if mono.Some? && e in MonoStage(LastFilter(n), mono.value) {
      } else if invert.Some? && e in InvertStage(AfterMono(n, mono), invert.value) {
      } else {
        assert e in Tail(AfterInvert(n, mono, invert));
      }
    }
  }

  /** The band gains written over the filters: band i reaches filter i only when there is a filter i. */
  function Overlay(g: seq<real>, bands: seq<Band>): (r: seq<real>)
  {
    seq(|g|, i requires 0 <= i < |g| => if i < |bands| then bands[i].gain else g[i])
  }

  /** The filters connectMedia makes of the bands: peaking, Q 1, at the band's frequency. */
  function FiltersOf(bands: seq<Band>): (r: seq<Biquad>)
    ensures |r| == |bands|
    ensures forall i :: 0 <= i < |bands| ==> r[i] == Biquad("peaking", bands[i].frequency, 1.0)
  {
    if bands == [] then [] else [Biquad("peaking", bands[0].frequency, 1.0)] + FiltersOf(bands[1..])
  }

  function GainsOf(bands: seq<Band>): (r: seq<real>)
    ensures |r| == |bands|
    ensures forall i :: 0 <= i < |bands| ==> r[i] == bands[i].gain
  {
    if bands == [] then [] else [bands[0].gain] + GainsOf(bands[1..])
  }

  /** The chain visits every filter in band order, starting at the source. */
  lemma FilterChainInOrder(n: nat, j: nat)
    requires j < n
    ensures Wire(LastFilter(j), Filter(j)) in Topology(n, None, None)
    ensures j + 1 < n ==> From(Topology(n, None, None), Filter(j)) == {Wire(Filter(j), Filter(j + 1))}
    ensures j + 1 == n ==> From(Topology(n, None, None), Filter(j)) == {Wire(Filter(j), Gain)}
  {
    var t := Topology(n, None, None);
    assert Wire(LastFilter(j), Filter(j)) in FilterChain(n);
    if j + 1 < n {
      assert Wire(LastFilter(j + 1), Filter(j + 1)) in FilterChain(n);
    }
    forall e | e in t && e.src == Filter(j)
      ensures e == if j + 1 < n then Wire(Filter(j), Filter(j + 1)) else Wire(Filter(j), Gain)
    {
      if e in FilterChain(n) {
        var k :| 0 <= k < n && e == Wire(LastFilter(k), Filter(k));
        assert k == j + 1;
      }
    }
  }

  /** The mono stage mixes all four channel pairs; the inversion stage only swaps the two. */
  lemma StageChannels(from: Node, p: Pair)
    ensures Channels(MonoStage(from, p), Splitter(p.splitter), Merger(p.merger)) == {(0, 0), (0, 1), (1, 0), (1, 1)}
    ensures Channels(InvertStage(from, p), Splitter(p.splitter), Merger(p.merger)) == {(0, 1), (1, 0)}
  {
    var sp, mg := Splitter(p.splitter), Merger(p.merger);
    assert Edge(sp, mg, 0, 0) in MonoStage(from, p) && Edge(sp, mg, 0, 1) in MonoStage(from, p);
    assert Edge(sp, mg, 1, 0) in MonoStage(from, p) && Edge(sp, mg, 1, 1) in MonoStage(from, p);
    assert Edge(sp, mg, 0, 1) in InvertStage(from, p) && Edge(sp, mg, 1, 0) in InvertStage(from, p);
  }

  /** A media element the processor can attach to; only its identity matters. */
  class MediaElement {
  }

  /** The nodes of one media element's audio context. */
  class AudioNodes {
    const filters: seq<Biquad>
    var filterGains: seq<real>
    /** gainNode.gain.value */
    var volume: real
    /** stereoPanner.pan.value */
    var pan: real
    var channelSplitter: Option<nat>
    var channelMerger: Option<nat>
    var invertSplitter: Option<nat>
    var invertMerger: Option<nat>
    /** The connections of this context. */
    var edges: set<Edge<Node>>
    /** How many splitters and mergers the context has created. */
    var made: nat
    var closed: bool

    /** The node fields agree with each other. */
    ghost predicate Shaped()
      reads this
    {
      |filterGains| == |filters|
      && channelSplitter.Some? == channelMerger.Some? && invertSplitter.Some? == invertMerger.Some?
      && (channelSplitter.Some? ==> channelSplitter.value < made && channelMerger.value < made
                                    && channelSplitter.value != channelMerger.value)
      && (invertSplitter.Some? ==> invertSplitter.value < made && invertMerger.value < made
                                   && invertSplitter.value != invertMerger.value)
    }

    /** A node the next rebuild disconnects. */
    ghost predicate Live(n: Node)
      reads this
    {
      StageNode(n, |filters|, MonoStagePair(), InvertStagePair())
    }

    /** Apart from the source's, every connection leaves a node the next rebuild disconnects. */
    ghost predicate Settled()
      reads this
    {
      Shaped() && forall e | e in edges :: e.src == Source || Live(e.src)
    }

    ghost function MonoStagePair(): Option<Pair>
      reads this
    {
      StageOf(channelSplitter, channelMerger)
    }

    ghost function InvertStagePair(): Option<Pair>
      reads this
    {
      StageOf(invertSplitter, invertMerger)
    }

    /** The context is wired as a rebuild leaves it, up to the source's own connections. */
    ghost predicate Valid()
      reads this
    {
      Shaped()
      && Topology(|filters|, MonoStagePair(), InvertStagePair()) <= edges
      && (forall e | e in edges :: e.src == Source || e in Topology(|filters|, MonoStagePair(), InvertStagePair()))
      && !closed
    }

    /** Every node disconnected and the context still open. */
    ghost predicate Idle()
      reads this
    {
      Shaped() && edges == {} && !closed
    }

    /** The stages present are the ones `s` asks for. */
    predicate Matches(s: AudioSettings)
      reads this
    {
      channelMerger.Some? == (s.stereoMode == Mono) && invertMerger.Some? == s.invertChannels
    }

    /** The nodes connectMedia creates, before the first rebuild. */
    constructor(bands: seq<Band>)
      ensures Settled() && !closed
      ensures filters == FiltersOf(bands) && filterGains == GainsOf(bands)
      ensures edges == {} && made == 0 && volume == 1.0 && pan == 0.0
      ensures channelMerger == None && invertMerger == None
    {
      filters := FiltersOf(bands);
      filterGains := GainsOf(bands);
      volume := 1.0;
      pan := 0.0;
      channelSplitter := None;
      channelMerger := None;
      invertSplitter := None;
      invertMerger := None;
      edges := {};
      made := 0;
      closed := false;
    }

    /** Every connection of a valid context either leaves the source or a node a rebuild disconnects. */
    lemma ValidIsSettled()
      requires Valid()
      ensures Settled()
    {
      TopologySources(|filters|, MonoStagePair(), InvertStagePair());
    }

    /** rebuildAudioGraph's first step: gain, filters, panner and the stage nodes disconnected. */
    method DisconnectStages()
      requires Settled()
      modifies this
      ensures edges == From(old(edges), Source)
      ensures Shaped() && filterGains == old(filterGains) && volume == old(volume) && pan == old(pan)
      ensures MonoStagePair() == old(MonoStagePair()) && InvertStagePair() == old(InvertStagePair()) && made == old(made) && closed == old(closed)
    {
      var es := Without(edges, Gain);
      for i := 0 to |filters|
        invariant es == set e | e in old(edges) && e.src != Gain && !(e.src.Filter? && e.src.i < i)
      {
        es := Without(es, Filter(i));
      }
      es := Without(es, Panner);
      if channelMerger.Some? {
        es := Without(es, Merger(channelMerger.value));
      }
      if channelSplitter.Some? {
        es := Without(es, Splitter(channelSplitter.value));
      }
      if invertSplitter.Some? {
        es := Without(es, Splitter(invertSplitter.value));
      }
      if invertMerger.Some? {
        es := Without(es, Merger(invertMerger.value));
      }
      edges := es;
    }

    /** The forEach that connects the filters in series. */
    method ConnectFilters() returns (current: Node)
      modifies this
      ensures edges == old(edges) + FilterChain(|filters|) && current == LastFilter(|filters|)
      ensures filterGains == old(filterGains) && volume == old(volume) && pan == old(pan) && made == old(made)
      ensures channelSplitter == old(channelSplitter) && channelMerger == old(channelMerger)
      ensures invertSplitter == old(invertSplitter) && invertMerger == old(invertMerger) && closed == old(closed)
    {
      current := Source;
      var es := edges;
      for i := 0 to |filters|
        invariant es == edges + FilterChain(i) && current == LastFilter(i)
      {
        es := es + {Wire(current, Filter(i))};
        current := Filter(i);
        assert FilterChain(i + 1) == FilterChain(i) + {Wire(LastFilter(i), Filter(i))};
      }
      edges := es;
    }

    /** createChannelSplitter then createChannelMerger: two new node names. */
    method MakePair() returns (p: Pair)
      modifies this
      ensures p == Pair(old(made), old(made) + 1) && made == old(made) + 2
      ensures edges == old(edges) && filterGains == old(filterGains) && volume == old(volume) && pan == old(pan)
      ensures channelSplitter == old(channelSplitter) && channelMerger == old(channelMerger)
      ensures invertSplitter == old(invertSplitter) && invertMerger == old(invertMerger) && closed == old(closed)
    {
      p := Pair(made, made + 1);
      made := made + 2;
    }

    /** The settings pass at the end of a rebuild and of an update without one. */
    method ApplyValues(s: AudioSettings)
      requires |filterGains| == |filters|
      modifies this
      ensures volume == s.volume && pan == s.balance && filterGains == Overlay(old(filterGains), s.bands)
      ensures edges == old(edges) && made == old(made) && closed == old(closed)
      ensures channelSplitter == old(channelSplitter) && channelMerger == old(channelMerger)
      ensures invertSplitter == old(invertSplitter) && invertMerger == old(invertMerger)
    {
      volume := s.volume;
      pan := s.balance;
      var g := filterGains;
      for i := 0 to |s.bands|
        invariant |g| == |filters|
        invariant forall j :: 0 <= j < |filters| ==> g[j] == if j < i then s.bands[j].gain else filterGains[j]
      {
        if i < |filters| {
          g := g[i := s.bands[i].gain];
        }
      }
      filterGains := g;
    }

    /** disconnectMedia once the entry is found: the source and every other node disconnected, the context closed. */
    method Close()
      requires Valid()
      modifies this
      ensures closed && edges == {}
    {
      DisconnectNodes();
      closed := true;
    }

    /** The disconnect calls of disconnectMedia, the source's included, before the context is closed. */
    method DisconnectNodes()
      requires Valid()
      modifies this
      ensures Shaped() && edges == {} && closed == old(closed)
      ensures filterGains == old(filterGains) && volume == old(volume) && pan == old(pan)
    {
      ValidIsSettled();
      edges := Without(edges, Source);
      DisconnectStages();
    }

    /** The mono branch of a rebuild: a new splitter and merger mixing both channels, or no stage. */
    method AddMono(s: AudioSettings, current: Node) returns (next: Node)
      requires Shaped()
      modifies this
      ensures Shaped() && made >= old(made)
      ensures MonoStagePair() == if s.stereoMode == Mono then Some(Pair(old(made), old(made) + 1)) else None
      ensures channelMerger.Some? == (s.stereoMode == Mono)
      ensures edges == old(edges) + (if s.stereoMode == Mono then MonoStage(current, MonoStagePair().value) else {})
      ensures next == if s.stereoMode == Mono then Merger(MonoStagePair().value.merger) else current
      ensures invertSplitter == old(invertSplitter) && invertMerger == old(invertMerger)
      ensures filterGains == old(filterGains) && volume == old(volume) && pan == old(pan) && closed == old(closed)
    {
      if s.stereoMode == Mono {
        var p := MakePair();
        edges := edges + MonoStage(current, p);
        channelSplitter, channelMerger := Some(p.splitter), Some(p.merger);
        next := Merger(p.merger);
      } else {
        channelSplitter, channelMerger := None, None;
        next := current;
      }
    }

    /** The inversion branch of a rebuild: a new splitter and merger swapping the channels, or no stage. */
    method AddInvert(s: AudioSettings, current: Node) returns (next: Node)
      requires Shaped()
      modifies this
      ensures Shaped() && made >= old(made)
      ensures InvertStagePair() == if s.invertChannels then Some(Pair(old(made), old(made) + 1)) else None
      ensures invertMerger.Some? == s.invertChannels
      ensures edges == old(edges) + (if s.invertChannels then InvertStage(current, InvertStagePair().value) else {})
      ensures next == if s.invertChannels then Merger(InvertStagePair().value.merger) else current
      ensures channelSplitter == old(channelSplitter) && channelMerger == old(channelMerger)
      ensures filterGains == old(filterGains) && volume == old(volume) && pan == old(pan) && closed == old(closed)
    {
      if s.invertChannels {
        var p := MakePair();
        edges := edges + InvertStage(current, p);
        invertSplitter, invertMerger := Some(p.splitter), Some(p.merger);
        next := Merger(p.merger);
      } else {
        invertSplitter, invertMerger := None, None;
        next := current;
      }
    }

    /** A shaped open context wired as the topology plus connections from the source is valid. */
    lemma WiredIsValid(kept: set<Edge<Node>>)
      requires Shaped() && !closed && AllFrom(kept, {Source})
      requires edges == kept + Topology(|filters|, MonoStagePair(), InvertStagePair())
      ensures Valid()
    {
    }

    /** rebuildAudioGraph once the entry is found. */
    method Rebuild(s: AudioSettings)
      requires Settled()
      modifies this
      ensures Shaped() && Matches(s) && (!closed ==> Valid())
      ensures edges == From(old(edges), Source) + Topology(|filters|, MonoStagePair(), InvertStagePair())
      ensures volume == s.volume && pan == s.balance && filterGains == Overlay(old(filterGains), s.bands)
      ensures closed == old(closed)
    {
      Rewire(s);
      ApplyValues(s);
      if !closed {
        WiredIsValid(From(old(edges), Source));
      }
    }

    /** The graph part of a rebuild: everything but the source disconnected, then the chain wired anew. */
    method Rewire(s: AudioSettings)
      requires Settled()
      modifies this
      ensures Shaped() && Matches(s)
      ensures edges == From(old(edges), Source) + Topology(|filters|, MonoStagePair(), InvertStagePair())
      ensures volume == old(volume) && pan == old(pan) && filterGains == old(filterGains) && closed == old(closed)
    {
      DisconnectStages();
      ghost var kept := edges;
      var current := ConnectFilters();
      ghost var chained := edges;
      current := AddMono(s, current);
      ghost var mono := MonoStagePair();
      assert edges == chained + MonoPart(|filters|, mono);
      assert current == AfterMono(|filters|, mono);
      ghost var mixed := edges;
      current := AddInvert(s, current);
      ghost var invert := InvertStagePair();
      assert edges == mixed + InvertPart(|filters|, mono, invert);
      assert current == AfterInvert(|filters|, mono, invert);
      ConnectTail(current);
      Assembled(kept, |filters|, mono, invert);
    }

    /** The last step of a rebuild: `current` into the gain, then the panner and the destination. */
    method ConnectTail(current: Node)
      requires Shaped()
      modifies this
      ensures Shaped() && edges == old(edges) + Tail(current)
      ensures MonoStagePair() == old(MonoStagePair()) && InvertStagePair() == old(InvertStagePair())
      ensures channelMerger == old(channelMerger) && invertMerger == old(invertMerger)
      ensures volume == old(volume) && pan == old(pan) && filterGains == old(filterGains) && closed == old(closed)
    {
      edges := edges + Tail(current);
    }
  }

  /** connectMedia's new context: the nodes made from the bands, then the first rebuild. */
  method NewNodes(s: AudioSettings) returns (n: AudioNodes)
    ensures fresh(n) && n.Valid() && n.Matches(s)
    ensures n.filters == FiltersOf(s.bands) && n.edges == Topology(|s.bands|, n.MonoStagePair(), n.InvertStagePair())
    ensures n.volume == s.volume && n.pan == s.balance && n.filterGains == GainsOf(s.bands)
  {
    n := new AudioNodes(s.bands);
    n.Rebuild(s);
    assert From({}, Source) == {};
    assert Overlay(GainsOf(s.bands), s.bands) == GainsOf(s.bands);
  }

  /** An entry none of whose fields changed is wired as it was. */
  /** Removing a key and putting its value back gives the map again. */
  lemma PutBack<K, V>(m: map<K, V>, k: K)
    requires k in m
    ensures (m - {k})[k := m[k]] == m
  {
  }

  /** Adding a new key and removing it again gives the map again. */
  lemma TakeBack<K, V>(m: map<K, V>, k: K, v: V)
    requires k !in m
    ensures m[k := v] - {k} == m
  {
  }

  twostate lemma StillIdle(n: AudioNodes)
    requires old(n.Idle()) && unchanged(n)
    ensures n.Idle()
  {
  }

  twostate lemma StillValid(n: AudioNodes)
    requires old(n.Valid()) && unchanged(n)
    ensures n.Valid()
  {
  }

  class AudioProcessor {
    var nodes: map<MediaElement, AudioNodes>
    /**
     * The elements `createMediaElementSource` has been called on.  The
     * browser binds an element to one source node for good, closing its
     * context included, and throws `InvalidStateError` on a second call.
     */
    var sourced: set<MediaElement>
    /** The corrected disable only: the idle contexts of disabled elements, kept for reconnection. */
    var parked: map<MediaElement, AudioNodes>
    /** The node records of the entries and of the parked contexts. */
    ghost var Repr: set<object>

    /**
     * Every entry is wired, every parked context idle, every element with
     * either has its source node, and no two share a context.
     */
    ghost predicate Valid()
      reads this, Repr
    {
      this !in Repr
      && (forall m | m in nodes :: nodes[m] in Repr && nodes[m].Valid() && m in sourced)
      && (forall m, l | m in nodes && l in nodes && m != l :: nodes[m] != nodes[l])
      && (forall m | m in parked :: parked[m] in Repr && parked[m].Idle() && m in sourced && m !in nodes)
      && (forall m, l | m in parked && l in parked && m != l :: parked[m] != parked[l])
      && (forall m, l | m in nodes && l in parked :: nodes[m] != parked[l])
    }

    constructor()
      ensures Valid() && nodes == map[] && sourced == {} && parked == map[]
    {
      nodes := map[];
      sourced := {};
      parked := map[];
      Repr := {};
    }

    /** needsGraphRebuild: only a change of stage calls for a rebuild; an unknown element never does. */
    function NeedsGraphRebuild(media: MediaElement, s: AudioSettings): (r: bool)
      reads this, if media in nodes then {nodes[media]} else {}
      ensures r <==> media in nodes && !nodes[media].Matches(s)
    {
      if media !in nodes then false
      else
        var n := nodes[media];
        if n.channelMerger.Some? != (s.stereoMode == Mono) then true
        else if n.invertMerger.Some? != s.invertChannels then true
        else false
    }

    /** rebuildAudioGraph: nothing happens for an unknown element. */
    method RebuildAudioGraph(media: MediaElement, s: AudioSettings)
      requires Valid()
      modifies if media in nodes then {nodes[media]} else {}
      ensures Valid() && nodes == old(nodes) && sourced == old(sourced) && parked == old(parked)
      ensures media in nodes ==>
                var n := nodes[media];
                n.Matches(s)
                && n.edges == From(old(n.edges), Source) + Topology(|n.filters|, n.MonoStagePair(), n.InvertStagePair())
                && n.volume == s.volume && n.pan == s.balance && n.filterGains == Overlay(old(n.filterGains), s.bands)
    {
      if media !in nodes {
        return;
      }
      var n := nodes[media];
      n.ValidIsSettled();
      n.Rebuild(s);
      OneEntryChanged(media);
    }

    /** updateSettings: a rebuild when a stage changes, otherwise the values alone. */
    method UpdateSettings(media: MediaElement, s: AudioSettings)
      requires Valid()
      modifies if media in nodes then {nodes[media]} else {}
      ensures Valid() && nodes == old(nodes) && sourced == old(sourced) && parked == old(parked)
      ensures media in nodes ==>
                var n := nodes[media];
                n.Matches(s)
                && n.volume == s.volume && n.pan == s.balance && n.filterGains == Overlay(old(n.filterGains), s.bands)
                && (if old(NeedsGraphRebuild(media, s)) then
                      n.edges == From(old(n.edges), Source) + Topology(|n.filters|, n.MonoStagePair(), n.InvertStagePair())
                    else
                      n.edges == old(n.edges) && n.MonoStagePair() == old(n.MonoStagePair()) && n.InvertStagePair() == old(n.InvertStagePair()))
    {
      if media !in nodes {
        return;
      }
      var n := nodes[media];
      if NeedsGraphRebuild(media, s) {
        RebuildAudioGraph(media, s);
      } else {
        n.ApplyValues(s);
        OneEntryChanged(media);
      }
    }

    /**
     * connectMedia: a known element only has its settings updated; a new one
     * gets a context of its own.  For an element that had a source node
     * before, `createMediaElementSource` throws, the `catch` logs, and
     * nothing is stored: the element stays unprocessed.
     */
    method ConnectMedia(media: MediaElement, s: AudioSettings)
      requires Valid()
      modifies this, Repr
      ensures Valid() && sourced == old(sourced) + {media} && parked == old(parked)
      ensures media in old(nodes) ==> nodes == old(nodes) && Repr == old(Repr) && nodes[media].Matches(s)
      ensures media in old(nodes) ==>
                var n := nodes[media];
                n.volume == s.volume && n.pan == s.balance && n.filterGains == Overlay(old(n.filterGains), s.bands)
                && (if old(NeedsGraphRebuild(media, s)) then
                      n.edges == From(old(n.edges), Source) + Topology(|n.filters|, n.MonoStagePair(), n.InvertStagePair())
                    else
                      n.edges == old(n.edges) && n.MonoStagePair() == old(n.MonoStagePair()) && n.InvertStagePair() == old(n.InvertStagePair()))
      ensures media !in old(nodes) && media in old(sourced) ==> unchanged(this) && unchanged(Repr)
      ensures media !in old(sourced) ==>
                media in nodes && nodes == old(nodes)[media := nodes[media]] && fresh(nodes[media])
                && nodes[media].Matches(s) && nodes[media].filters == FiltersOf(s.bands)
                && nodes[media].edges == Topology(|s.bands|, nodes[media].MonoStagePair(), nodes[media].InvertStagePair())
                && nodes[media].volume == s.volume && nodes[media].pan == s.balance
                && nodes[media].filterGains == GainsOf(s.bands)
    {
      if media in nodes {
        UpdateSettings(media, s);
      } else if media in sourced {
        return;
      } else {
        AddMedia(media, s);
      }
    }

    /** The new-element branch of connectMedia. */
    method AddMedia(media: MediaElement, s: AudioSettings)
      requires Valid() && media !in sourced
      modifies this
      ensures Valid() && media in nodes && nodes == old(nodes)[media := nodes[media]] && fresh(nodes[media])
      ensures sourced == old(sourced) + {media} && parked == old(parked)
      ensures var n := nodes[media];
        n.Matches(s) && n.filters == FiltersOf(s.bands)
        && n.edges == Topology(|s.bands|, n.MonoStagePair(), n.InvertStagePair())
        && n.volume == s.volume && n.pan == s.balance && n.filterGains == GainsOf(s.bands)
    {
      var n := NewNodes(s);
      nodes := nodes[media := n];
      sourced := sourced + {media};
      Repr := Repr + {n};
      EntryAdded(media);
    }

    /** A wired entry for a new element, with a record of its own, keeps the processor valid. */
    twostate lemma EntryAdded(media: MediaElement)
      requires old(Valid()) && media !in old(nodes) && media in nodes && media !in parked
      requires nodes == old(nodes)[media := nodes[media]] && Repr == old(Repr) + {nodes[media]}
      requires sourced == old(sourced) + {media} && parked == old(parked)
      requires nodes[media].Valid() && nodes[media] !in old(Repr)
      requires forall m | m in old(nodes) :: unchanged(old(nodes[m]))
      requires forall m | m in parked :: unchanged(parked[m])
      ensures Valid()
    {
      forall m | m in nodes && m != media
        ensures nodes[m].Valid()
      {
        StillValid(nodes[m]);
      }
      forall m | m in parked
        ensures parked[m].Idle()
      {
        StillIdle(parked[m]);
      }
    }

    /** A change confined to the entry of `media`, which stays wired, keeps the processor valid. */
    twostate lemma OneEntryChanged(media: MediaElement)
      requires old(Valid()) && media in nodes && nodes == old(nodes) && Repr == old(Repr)
      requires sourced == old(sourced) && parked == old(parked)
      requires nodes[media].Valid()
      requires forall m | m in nodes && m != media :: unchanged(nodes[m])
      requires forall m | m in parked :: unchanged(parked[m])
      ensures Valid()
    {
      forall m | m in nodes && m != media
        ensures nodes[m].Valid()
      {
        StillValid(nodes[m]);
      }
      forall m | m in parked
        ensures parked[m].Idle()
      {
        StillIdle(parked[m]);
      }
    }

    /** disconnectMedia: every node disconnected, the context closed and the entry removed. */
    method DisconnectMedia(media: MediaElement)
      requires Valid()
      modifies this, if media in nodes then {nodes[media]} else {}
      ensures Valid() && nodes == old(nodes) - {media} && Repr == old(Repr)
      ensures sourced == old(sourced) && parked == old(parked)
      ensures media in old(nodes) ==> old(nodes[media]).closed && old(nodes[media]).edges == {}
      ensures media !in old(nodes) ==> unchanged(this)
    {
      if media in nodes {
        CloseEntry(media);
      }
    }

    /** disconnectMedia for a registered element. */
    method CloseEntry(media: MediaElement)
      requires Valid() && media in nodes
      modifies this, nodes[media]
      ensures Valid() && nodes == old(nodes) - {media} && Repr == old(Repr)
      ensures sourced == old(sourced) && parked == old(parked)
      ensures old(nodes[media]).closed && old(nodes[media]).edges == {}
    {
      nodes[media].Close();
      nodes := nodes - {media};
      EntryDropped(media);
    }

    /** Dropping the entry of `media` while nothing else changes keeps the processor valid. */
    twostate lemma EntryDropped(media: MediaElement)
      requires old(Valid()) && media in old(nodes)
      requires nodes == old(nodes) - {media} && parked == old(parked) && Repr == old(Repr) && sourced == old(sourced)
      requires unchanged(Repr - {old(nodes[media])})
      ensures Valid()
    {
      forall m | m in nodes
        ensures nodes[m].Valid()
      {
        assert nodes[m] in Repr - {old(nodes[media])};
        StillValid(nodes[m]);
      }
      forall m | m in parked
        ensures parked[m].Idle()
      {
        assert parked[m] in Repr - {old(nodes[media])};
        StillIdle(parked[m]);
      }
    }

    /**
     * The content script's disable (src/entrypoints/content/index.ts, lines 81-82) followed by
     * a later connectMedia of the same element: the second connectMedia
     * finds the element's source node taken, so the element stays
     * unprocessed and its old context closed.
     */
    method DisableThenEnable(media: MediaElement, s: AudioSettings)
      requires Valid() && media in nodes
      modifies this, Repr
      ensures Valid() && media !in nodes && nodes == old(nodes) - {media}
      ensures old(nodes[media]).closed && old(nodes[media]).edges == {}
    {
      DisconnectMedia(media);
      ConnectMedia(media, s);
    }

    /**
     * The disable as intended: every node is disconnected as disconnectMedia
     * does, but the context stays open and is kept for the element, since
     * its source node cannot be made again.
     */
    method Suspend(media: MediaElement)
      requires Valid()
      modifies this, if media in nodes then {nodes[media]} else {}
      ensures Valid() && nodes == old(nodes) - {media} && Repr == old(Repr) && sourced == old(sourced)
      ensures media in old(nodes) ==> parked == old(parked)[media := old(nodes[media])] && parked[media].Idle()
      ensures media !in old(nodes) ==> unchanged(this)
    {
      if media in nodes {
        Park(media);
      }
    }

    /** Suspend for a registered element. */
    method Park(media: MediaElement)
      requires Valid() && media in nodes
      modifies this, nodes[media]
      ensures Valid() && nodes == old(nodes) - {media} && Repr == old(Repr) && sourced == old(sourced)
      ensures parked == old(parked)[media := old(nodes[media])] && parked[media].Idle()
    {
      var n := nodes[media];
      assert n in Repr && media !in parked;
      n.DisconnectNodes();
      nodes := nodes - {media};
      parked := parked[media := n];
      EntryParked(media);
    }

    /** Moving the entry of `media`, now idle, from the entries to the parked contexts keeps the processor valid. */
    twostate lemma EntryParked(media: MediaElement)
      requires old(Valid()) && media in old(nodes)
      requires nodes == old(nodes) - {media} && parked == old(parked)[media := old(nodes[media])]
      requires Repr == old(Repr) && sourced == old(sourced) && parked[media].Idle()
      requires unchanged(Repr - {parked[media]})
      ensures Valid()
    {
      forall m | m in nodes
        ensures nodes[m].Valid()
      {
        assert nodes[m] in Repr - {parked[media]};
        StillValid(nodes[m]);
      }
      forall m | m in parked && m != media
        ensures parked[m].Idle()
      {
        assert parked[m] == old(parked[m]) && parked[m] in Repr - {parked[media]};
        StillIdle(parked[m]);
      }
    }

    /** connectMedia as intended: a suspended element is rewired in its own context; any other goes to connectMedia. */
    method Reconnect(media: MediaElement, s: AudioSettings)
      requires Valid()
      modifies this, Repr
      ensures Valid() && sourced == old(sourced) + {media}
      ensures media in old(parked) ==>
                nodes == old(nodes)[media := old(parked[media])] && parked == old(parked) - {media}
                && var n := nodes[media];
                   n.Matches(s) && n.edges == Topology(|n.filters|, n.MonoStagePair(), n.InvertStagePair())
                   && n.volume == s.volume && n.pan == s.balance && n.filterGains == Overlay(old(n.filterGains), s.bands)
      ensures media !in old(parked) ==> parked == old(parked)
      ensures media in old(nodes) || media in old(parked) || media !in old(sourced) ==> media in nodes && nodes[media].Matches(s)
      ensures media in old(nodes) ==>
                nodes == old(nodes) && var n := nodes[media];
                n.volume == s.volume && n.pan == s.balance && n.filterGains == Overlay(old(n.filterGains), s.bands)
                && (if old(NeedsGraphRebuild(media, s)) then
                      n.edges == From(old(n.edges), Source) + Topology(|n.filters|, n.MonoStagePair(), n.InvertStagePair())
                    else
                      n.edges == old(n.edges) && n.MonoStagePair() == old(n.MonoStagePair()) && n.InvertStagePair() == old(n.InvertStagePair()))
      ensures media !in old(sourced) ==>
                media in nodes && nodes == old(nodes)[media := nodes[media]] && fresh(nodes[media])
                && nodes[media].filters == FiltersOf(s.bands)
                && nodes[media].edges == Topology(|s.bands|, nodes[media].MonoStagePair(), nodes[media].InvertStagePair())
                && nodes[media].volume == s.volume && nodes[media].pan == s.balance
                && nodes[media].filterGains == GainsOf(s.bands)
      ensures media !in old(nodes) && media !in old(parked) && media in old(sourced) ==> unchanged(this) && unchanged(Repr)
    {
      if media in parked {
        Resume(media, s);
      } else {
        ConnectMedia(media, s);
      }
    }

    /** The parked branch of the intended connectMedia: the idle context is rebuilt for `s`. */
    method Resume(media: MediaElement, s: AudioSettings)
      requires Valid() && media in parked
      modifies this, parked[media]
      ensures Valid() && sourced == old(sourced) && Repr == old(Repr)
      ensures nodes == old(nodes)[media := old(parked[media])] && parked == old(parked) - {media}
      ensures var n := nodes[media];
        n.Matches(s) && n.edges == Topology(|n.filters|, n.MonoStagePair(), n.InvertStagePair())
        && n.volume == s.volume && n.pan == s.balance && n.filterGains == Overlay(old(n.filterGains), s.bands)
    {
      var n := parked[media];
      assert From({}, Source) == {};
      n.Rebuild(s);
      assert n.Valid() && n.edges == Topology(|n.filters|, n.MonoStagePair(), n.InvertStagePair());
      parked := parked - {media};
      nodes := nodes[media := n];
      EntryResumed(media);
    }

    /** Moving the parked context of `media`, now wired, back to the entries keeps the processor valid. */
    twostate lemma EntryResumed(media: MediaElement)
      requires old(Valid()) && media in old(parked)
      requires nodes == old(nodes)[media := old(parked[media])] && parked == old(parked) - {media}
      requires Repr == old(Repr) && sourced == old(sourced) && nodes[media].Valid()
      requires unchanged(Repr - {nodes[media]})
      ensures Valid()
    {
      ghost var ctx := nodes[media];
      forall m | m in nodes && m != media
        ensures nodes[m].Valid()
      {
        assert nodes[m] == old(nodes[m]) && nodes[m] in Repr - {ctx};
        StillValid(nodes[m]);
      }
      forall m | m in parked
        ensures parked[m].Idle()
      {
        assert parked[m] in Repr - {ctx};
        StillIdle(parked[m]);
      }
    }

    /** The intended disable and re-enable: the element is processed again, in its own context, for the new settings. */
    method SuspendThenReconnect(media: MediaElement, s: AudioSettings)
      requires Valid() && media in nodes
      modifies this, Repr
      ensures Valid() && nodes == old(nodes) && parked == old(parked) && sourced == old(sourced)
      ensures var n := nodes[media];
        n.Matches(s) && n.edges == Topology(|n.filters|, n.MonoStagePair(), n.InvertStagePair())
        && n.volume == s.volume && n.pan == s.balance && !n.closed
    {
      ghost var n, before, idle := nodes[media], nodes, parked;
      Suspend(media);
      Resume(media, s);
      PutBack(before, media);
      TakeBack(idle, media, n);
    }

    /** disconnectAll: every element disconnected, in any order. */
    method DisconnectAll()
      requires Valid()
      modifies this, Repr
      ensures Valid() && nodes == map[]
      ensures forall m | m in old(nodes) :: old(nodes[m]).closed && old(nodes[m]).edges == {}
    {
      ghost var done: set<AudioNodes> := {};
      while nodes != map[]
        invariant Valid() && Repr == old(Repr)
        invariant Disconnected(old(nodes), done)
        decreases |nodes.Keys|
      {
        var media :| media in nodes;
        done := DisconnectNext(media, old(nodes), done);
      }
    }

    /** Part way through disconnectAll: every element of `start` is either still registered as it was or disconnected. */
    ghost predicate Disconnected(start: map<MediaElement, AudioNodes>, done: set<AudioNodes>)
      reads this, done
    {
      (forall m | m in start :: start[m] in done || (m in nodes && nodes[m] == start[m]))
      && (forall m | m in nodes :: nodes[m] !in done)
      && (forall n | n in done :: n.closed && n.edges == {})
    }

    /** One step of disconnectAll. */
    method DisconnectNext(media: MediaElement, ghost start: map<MediaElement, AudioNodes>, ghost done: set<AudioNodes>)
      returns (ghost done': set<AudioNodes>)
      requires Valid() && media in nodes && Disconnected(start, done)
      modifies this, nodes[media]
      ensures Valid() && Repr == old(Repr) && Disconnected(start, done')
      ensures |nodes.Keys| < |old(nodes.Keys)|
    {
      ghost var target := nodes[media];
      ghost var before := nodes;
      assert target !in done;
      CloseEntry(media);
      assert nodes.Keys < before.Keys;
      done' := done + {target};
      forall m | m in start
        ensures start[m] in done' || (m in nodes && nodes[m] == start[m])
      {
        if m != media && start[m] !in done {
          assert m in before && before[m] == start[m];
        }
      }
      forall n | n in done'
        ensures n.closed && n.edges == {}
      {
        if n != target {
          assert n in done;
        }
      }
    }
  }
}
