/**
 * The offscreen document's list of captured tabs (capturedTabsArr in
 * main.ts) and the message switch that drives it.  The list holds one
 * CapturedAudioObject per capture, in capture order; commands find their
 * tab with findIndex on the tab id.
 */
module CapturedTabs {
  import opened Wrappers
  import opened Captured

  /** `findIndex(({ tabId }) => tabId === id)` over the tab ids. */
  function FindIndex(ids: seq<int>, id: int): (r: int)
    ensures -1 <= r < |ids|
    ensures r == -1 <==> id !in ids
    ensures r >= 0 ==> ids[r] == id && id !in ids[..r]
  {
    if |ids| == 0 then -1
    else if ids[0] == id then 0
    else
      var k := FindIndex(ids[1..], id);
      assert ids[1..][..k + 1] == ids[1..k + 2] by {
        if k >= 0 { assert ids[..k + 1] == [ids[0]] + ids[1..][..k]; }
      }
      if k == -1 then -1 else k + 1
  }

  /** The list without position `i`: `splice(i, 1)`. */
  function Removed<T>(s: seq<T>, i: nat): (r: seq<T>)
    requires i < |s|
    ensures |r| == |s| - 1
    ensures forall j :: 0 <= j < i ==> r[j] == s[j]
    ensures forall j :: i <= j < |r| ==> r[j] == s[j + 1]
  {
    s[..i] + s[i + 1..]
  }

  /** The index of a message's tab: -1 unless its tabId is truthy and captured. */
  function Target(ids: seq<int>, m: Message): (r: int)
    ensures -1 <= r < |ids|
    ensures r >= 0 ==> m.tabId.Some? && ids[r] == m.tabId.value
  {
    if TruthyId(m.tabId) then FindIndex(ids, m.tabId.value) else -1
  }

  /** No id occurs twice. */
  predicate Unique(ids: seq<int>)
  {
    forall i, j :: 0 <= i < j < |ids| ==> ids[i] != ids[j]
  }

  /** Removing the entry found for `id` removes that one entry: the rest keep their order. */
  lemma RemoveFound(ids: seq<int>, id: int)
    requires FindIndex(ids, id) >= 0
    ensures multiset(Removed(ids, FindIndex(ids, id))) + multiset{id} == multiset(ids)
  {
    var i := FindIndex(ids, id);
    var a, b := ids[..i], ids[i + 1..];
    assert ids == a + [id] + b;
    assert multiset(ids) == multiset(a) + multiset{id} + multiset(b);
  }

  /** When ids are unique, a tab removed by powerOff or tabRemoved is no longer found. */
  lemma RemovedNotFound(ids: seq<int>, id: int)
    requires Unique(ids) && FindIndex(ids, id) >= 0
    ensures FindIndex(Removed(ids, FindIndex(ids, id)), id) == -1
  {
    var i := FindIndex(ids, id);
    var r := Removed(ids, i);
    forall j | 0 <= j < |r|
      ensures r[j] != id
    {
      if j >= i {
        assert r[j] == ids[j + 1];
      }
    }
  }

  /** A second capture of the same tab is never found: findIndex keeps answering the first. */
  lemma {:induction false} RecaptureShadowed(ids: seq<int>, id: int)
    requires id in ids
    ensures FindIndex(ids + [id], id) == FindIndex(ids, id)
  {
    if ids[0] != id {
      assert (ids + [id])[1..] == ids[1..] + [id];
      RecaptureShadowed(ids[1..], id);
    }
  }

  /** The commands that act on the tab the message names, through Perform. */
  predicate ForTab(c: Command)
  {
    !(c.CaptureTab? || c.DeleteSavedSettings? || c.PowerOff? || c.TabRemoved? || c.GetIndex? || c.Unknown?)
  }

  class Registry {
    var tabs: seq<CapturedAudioObject>

    ghost function Objects(): set<CapturedAudioObject>
      reads this
    {
      set i | 0 <= i < |tabs| :: tabs[i]
    }

    /** Every captured tab is a working pipeline, and no object is listed twice. */
    ghost predicate Valid()
      reads this, Objects()
    {
      (forall i :: 0 <= i < |tabs| ==> tabs[i].Valid())
      && (forall i, j :: 0 <= i < j < |tabs| ==> tabs[i] != tabs[j])
    }

    /** The tab ids, in list order. */
    function Ids(): (r: seq<int>)
      reads this
      ensures |r| == |tabs| && forall i :: 0 <= i < |tabs| ==> r[i] == tabs[i].tabId
    {
      var ts := tabs;
      seq(|ts|, i requires 0 <= i < |ts| => ts[i].tabId)
    }

    constructor()
      ensures Valid() && tabs == []
    {
      tabs := [];
    }

    /** captureTab once the stream is open: push a new object built from the saved settings. */
    method CaptureTab(tabId: int, s: Settings)
      requires Valid() && |s.eq| == BandCount
      modifies this
      ensures Valid()
      ensures |tabs| == |old(tabs)| + 1 && tabs[..|old(tabs)|] == old(tabs)
      ensures Ids() == old(Ids()) + [tabId]
      ensures fresh(tabs[|tabs| - 1])
      ensures tabs[|tabs| - 1].Current() == s.(compressor := s.compressor.(attack := RoundTenth(s.compressor.attack)))
      ensures tabs[|tabs| - 1].windowState.None?
    {
      var t := new CapturedAudioObject(tabId, s);
      tabs := tabs + [t];
    }

    /** powerOffODDSCREEN: stop the tab's audio and splice it out of the list. */
    method PowerOff(index: nat)
      requires Valid() && index < |tabs|
      modifies this, tabs[index]
      ensures Valid()
      ensures tabs == Removed(old(tabs), index) && Ids() == Removed(old(Ids()), index)
      ensures old(tabs[index]).stopped
      ensures forall t | t in old(Objects()) && t != old(tabs[index]) :: unchanged(t)
    {
      var t := tabs[index];
      var _ := t.StopAudio();
      tabs := Removed(tabs, index);
      assert forall j :: 0 <= j < |tabs| ==> tabs[j] != t;
    }

    /** The message listener. */
    method Handle(m: Message, w: Worker) returns (reply: Reply, posts: seq<Post>)
      requires Valid() && MessageOk(m) && WorkerOk(w)
      modifies this, Objects()
      ensures Valid()
      // messages for another context are ignored
      ensures m.target != "offscreen" ==> reply == NoReply && posts == [] && tabs == old(tabs) && unchanged(old(Objects()))
      // a per-tab command for a tab that is not captured does nothing
      ensures m.target == "offscreen" && ForTab(m.kind) && Target(old(Ids()), m) == -1 ==>
                reply == (if m.kind.GetSavedWindowState? then StateReply(m.state) else NoReply)
                && posts == [] && tabs == old(tabs) && unchanged(old(Objects()))
      // a per-tab command for a captured tab acts on that tab only
      ensures var i := Target(old(Ids()), m);
              m.target == "offscreen" && ForTab(m.kind) && i != -1 ==>
                tabs == old(tabs)
                && tabs[i].Current() == Effect(old(tabs[i].Current()), m, w)
                && tabs[i].windowState == NextWindowState(old(tabs[i].windowState), m)
                && reply == Answer(old(tabs[i].Current()), old(tabs[i].windowState), m)
                && posts == Sent(old(tabs[i].Current()), tabs[i].Current(), m, w, tabs[i].tabId)
                && forall t | t in old(Objects()) && t != tabs[i] :: unchanged(t)
      // powerOff and tabRemoved remove exactly the tab found; tabRemoved always answers true
      ensures var i := Target(old(Ids()), m);
              m.target == "offscreen" && (m.kind.PowerOff? || m.kind.TabRemoved?) ==>
                posts == []
                && (i == -1 ==> tabs == old(tabs) && unchanged(old(Objects())))
                && (i != -1 ==> tabs == Removed(old(tabs), i) && old(tabs[i]).stopped)
                && reply == (if m.kind.TabRemoved? then FlagReply(true) else if i == -1 then NoReply else Success)
      // getIndex answers the index; deleteSavedSettings forwards to the worker; an unknown type does nothing
      ensures m.target == "offscreen" && (m.kind.GetIndex? || m.kind.DeleteSavedSettings? || m.kind.Unknown?) ==>
                tabs == old(tabs) && unchanged(old(Objects()))
                && reply == (if m.kind.GetIndex? then IndexReply(Target(old(Ids()), m)) else NoReply)
                && posts == (if m.kind.DeleteSavedSettings? then [ToWorker("deleteSavedSettings", None)] else [])
      // captureTab adds a tab built from the saved settings, when streamId and tabId are truthy and a stream opens
      ensures m.target == "offscreen" && m.kind.CaptureTab? ==>
                reply == NoReply && unchanged(old(Objects()))
                && if TruthyString(m.streamId) && TruthyId(m.tabId) && w.streamOk then
                     Ids() == old(Ids()) + [m.tabId.value] && tabs[..|old(tabs)|] == old(tabs)
                     && tabs[|tabs| - 1].Current() == w.saved.(compressor := w.saved.compressor.(attack := RoundTenth(w.saved.compressor.attack)))
                     && posts == [ToPopup(Whole(w.saved), m.tabId.value)]
                   else tabs == old(tabs) && posts == []
    {
      reply := NoReply;
      posts := [];
      if m.target != "offscreen" {
        return;
      }
      if ForTab(m.kind) {
        reply, posts := HandleForTab(m, w);
      } else if m.kind.CaptureTab? {
        posts := HandleCapture(m, w);
      } else if m.kind.PowerOff? || m.kind.TabRemoved? {
        reply := HandleRemoval(m);
      } else if m.kind.GetIndex? {
        reply := IndexReply(Target(Ids(), m));
      } else if m.kind.DeleteSavedSettings? {
        posts := [ToWorker("deleteSavedSettings", None)];
      }
    }

    /** The cases of the switch addressed to one tab. */
    method HandleForTab(m: Message, w: Worker) returns (reply: Reply, posts: seq<Post>)
      requires ForTab(m.kind)
      requires Valid() && MessageOk(m) && WorkerOk(w) && m.target == "offscreen"
      modifies this, Objects()
      ensures Valid()
      // a per-tab command for a tab that is not captured does nothing
      ensures Target(old(Ids()), m) == -1 ==>
                reply == (if m.kind.GetSavedWindowState? then StateReply(m.state) else NoReply)
                && posts == [] && tabs == old(tabs) && unchanged(old(Objects()))
      // a per-tab command for a captured tab acts on that tab only
      ensures var i := Target(old(Ids()), m);
              i != -1 ==>
                tabs == old(tabs)
                && tabs[i].Current() == Effect(old(tabs[i].Current()), m, w)
                && tabs[i].windowState == NextWindowState(old(tabs[i].windowState), m)
                && reply == Answer(old(tabs[i].Current()), old(tabs[i].windowState), m)
                && posts == Sent(old(tabs[i].Current()), tabs[i].Current(), m, w, tabs[i].tabId)
                && forall t | t in old(Objects()) && t != tabs[i] :: unchanged(t)
    {
      reply := NoReply;
      posts := [];
      var index := Target(Ids(), m);
      if index != -1 {
        reply, posts := HandleTab(index, m, w);
      } else if m.kind.GetSavedWindowState? {
        reply := StateReply(m.state);
      }
    }

    /** The captureTab case. */
    method HandleCapture(m: Message, w: Worker) returns (posts: seq<Post>)
      requires m.kind.CaptureTab?
      requires Valid() && MessageOk(m) && WorkerOk(w)
      modifies this
      ensures Valid() && unchanged(old(Objects()))
      ensures if TruthyString(m.streamId) && TruthyId(m.tabId) && w.streamOk then
                Ids() == old(Ids()) + [m.tabId.value] && tabs[..|old(tabs)|] == old(tabs)
                && tabs[|tabs| - 1].Current() == w.saved.(compressor := w.saved.compressor.(attack := RoundTenth(w.saved.compressor.attack)))
                && posts == [ToPopup(Whole(w.saved), m.tabId.value)]
              else tabs == old(tabs) && posts == []
    {
      posts := [];
      if TruthyString(m.streamId) && TruthyId(m.tabId) && w.streamOk {
        CaptureTab(m.tabId.value, w.saved);
        posts := [ToPopup(Whole(w.saved), m.tabId.value)];
      }
    }

    /** The powerOff and tabRemoved cases. */
    method HandleRemoval(m: Message) returns (reply: Reply)
      requires m.kind.PowerOff? || m.kind.TabRemoved?
      requires Valid() && MessageOk(m)
      modifies this, Objects()
      ensures Valid()
      ensures var i := Target(old(Ids()), m);
              (i == -1 ==> tabs == old(tabs) && unchanged(old(Objects())))
              && (i != -1 ==> tabs == Removed(old(tabs), i) && old(tabs[i]).stopped)
              && reply == (if m.kind.TabRemoved? then FlagReply(true) else if i == -1 then NoReply else Success)
    {
      reply := NoReply;
      var index := Target(Ids(), m);
      if index != -1 {
        PowerOff(index);
        if m.kind.PowerOff? {
          reply := Success;
        }
      }
      if m.kind.TabRemoved? {
        reply := FlagReply(true);
      }
    }

    /** A per-tab case of the switch, for the tab at `i`. */
    method HandleTab(i: nat, m: Message, w: Worker) returns (reply: Reply, posts: seq<Post>)
      requires Valid() && i < |tabs| && MessageOk(m) && WorkerOk(w)
      modifies tabs[i]
      ensures Valid()
      ensures tabs[i].Current() == Effect(old(tabs[i].Current()), m, w)
      ensures tabs[i].windowState == NextWindowState(old(tabs[i].windowState), m)
      ensures reply == Answer(old(tabs[i].Current()), old(tabs[i].windowState), m)
      ensures posts == Sent(old(tabs[i].Current()), tabs[i].Current(), m, w, tabs[i].tabId)
    {
      var t := tabs[i];
      reply, posts := t.Perform(m, w);
      assert forall j :: 0 <= j < |tabs| && j != i ==> tabs[j] != t;
    }
  }
}
