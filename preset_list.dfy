/**
 * The preset-list operations that the storage helper (src/utils/chromeStorage.ts)
 * and the popup (src/entrypoints/popup/components/Home.tsx) both use:
 * `presets.filter((p) => p.id !== id)`, `presets.find((p) => p.id === id)`,
 * and "replace or append" as `addPreset` does it.
 */
module PresetList {
  import opened Wrappers
  import opened Types

  /** `presets.filter((p) => p.id !== id)`. */
  function Without(ps: seq<Preset>, id: string): (r: seq<Preset>)
    decreases |ps|
    ensures |r| <= |ps|
    ensures forall i :: 0 <= i < |r| ==> r[i].id != id
    ensures forall p :: p in r <==> p in ps && p.id != id
  {
    if |ps| == 0 then []
    else (if ps[0].id == id then [] else [ps[0]]) + Without(ps[1..], id)
  }

  /** How many presets carry `id`. */
  function Count(ps: seq<Preset>, id: string): nat
    decreases |ps|
  {
    if |ps| == 0 then 0 else (if ps[0].id == id then 1 else 0) + Count(ps[1..], id)
  }

  /** Filtering works piece by piece, so the kept presets stay in their order. */
  lemma {:induction false} WithoutDistributes(a: seq<Preset>, b: seq<Preset>, id: string)
    decreases |a|
    ensures Without(a + b, id) == Without(a, id) + Without(b, id)
  {
    if |a| > 0 {
      assert (a + b)[0] == a[0] && (a + b)[1..] == a[1..] + b;
      WithoutDistributes(a[1..], b, id);
    } else {
      assert a + b == b;
    }
  }

  /** Exactly the presets that carry `id` are dropped. */
  lemma {:induction false} WithoutCount(ps: seq<Preset>, id: string)
    decreases |ps|
    ensures |Without(ps, id)| == |ps| - Count(ps, id)
    ensures Count(Without(ps, id), id) == 0
  {
    if |ps| > 0 {
      WithoutCount(ps[1..], id);
      var head := if ps[0].id == id then [] else [ps[0]];
      CountDistributes(head, Without(ps[1..], id), id);
    }
  }

  lemma {:induction false} CountDistributes(a: seq<Preset>, b: seq<Preset>, id: string)
    decreases |a|
    ensures Count(a + b, id) == Count(a, id) + Count(b, id)
  {
    if |a| > 0 {
      assert (a + b)[0] == a[0] && (a + b)[1..] == a[1..] + b;
      CountDistributes(a[1..], b, id);
    } else {
      assert a + b == b;
    }
  }

  /** A list without `id` is left as it is. */
  lemma {:induction false} WithoutAbsent(ps: seq<Preset>, id: string)
    requires forall i :: 0 <= i < |ps| ==> ps[i].id != id
    decreases |ps|
    ensures Without(ps, id) == ps
  {
    if |ps| > 0 {
      WithoutAbsent(ps[1..], id);
      assert ps == [ps[0]] + ps[1..];
    }
  }

  /** `[...presets.filter((p) => p.id !== preset.id), preset]`. */
  function Added(ps: seq<Preset>, p: Preset): seq<Preset>
  {
    Without(ps, p.id) + [p]
  }

  /** After adding `p` exactly one preset has its id, it is `p` and it is last; the rest keep their order. */
  lemma AddedUnique(ps: seq<Preset>, p: Preset)
    ensures var r := Added(ps, p);
      |r| > 0 && r[|r| - 1] == p
      && (forall i :: 0 <= i < |r| - 1 ==> r[i].id != p.id)
      && Count(r, p.id) == 1
      && r[..|r| - 1] == Without(ps, p.id)
  {
    var r := Added(ps, p);
    WithoutCount(ps, p.id);
    CountDistributes(Without(ps, p.id), [p], p.id);
    assert [p][1..] == [];
    assert r[..|r| - 1] == Without(ps, p.id);
  }

  /** Adding twice is adding once. */
  lemma AddedIdempotent(ps: seq<Preset>, p: Preset)
    ensures Added(Added(ps, p), p) == Added(ps, p)
  {
    WithoutDistributes(Without(ps, p.id), [p], p.id);
    WithoutAbsent(Without(ps, p.id), p.id);
    assert Without([p], p.id) == [];
  }

  /** `presets.find((p) => p.id === id)`. */
  function Find(ps: seq<Preset>, id: string): (r: Option<Preset>)
    decreases |ps|
    ensures r.None? <==> forall i :: 0 <= i < |ps| ==> ps[i].id != id
    ensures r.Some? ==> r.value in ps && r.value.id == id
  {
    if |ps| == 0 then None
    else if ps[0].id == id then Some(ps[0])
    else Find(ps[1..], id)
  }

  /** What `find` returns is the first preset with the id. */
  lemma {:induction false} FindFirst(ps: seq<Preset>, id: string, i: nat)
    requires i < |ps| && ps[i].id == id && forall j :: 0 <= j < i ==> ps[j].id != id
    decreases |ps|
    ensures Find(ps, id) == Some(ps[i])
  {
    if i > 0 {
      FindFirst(ps[1..], id, i - 1);
    }
  }

  /** A preset just added is the one found under its id; a removed id is found no more. */
  lemma FindAfterUpdate(ps: seq<Preset>, p: Preset, id: string)
    ensures Find(Added(ps, p), p.id) == Some(p)
    ensures Find(Without(ps, id), id) == None
  {
    var r := Added(ps, p);
    AddedUnique(ps, p);
    FindFirst(r, p.id, |r| - 1);
  }
}
