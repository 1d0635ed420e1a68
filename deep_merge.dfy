/**
 * `deepMerge(...sources)` (src/utils/deepMerge.ts): a fresh object that
 * takes every own key of every truthy source, left to right.  Two plain
 * objects under one key merge recursively, an array is replaced by a copy,
 * a lone plain object is cloned and anything else is assigned.
 *
 * Values are immutable here, so "does not mutate its inputs" holds by
 * construction and a copy equals its original.
 */
module DeepMerge {
  import opened Json

  /** `Object.keys(source)` with the values read from `source`: the fields of a plain object, nothing otherwise. */
  function Fields(source: JsValue): map<string, JsValue>
  {
    if source.JObj? then source.fields else map[]
  }

  /** `result[key]` before the assignment: `undefined` for a key not yet written. */
  function Target(acc: map<string, JsValue>, key: string): JsValue
  {
    if key in acc then acc[key] else JUndefined
  }

  /** The copy `deepMerge(target, source)` makes of `target` before it reads `source`. */
  function CloneFields(t: map<string, JsValue>): map<string, JsValue>
    decreases JObj(t), 0
  {
    map k | k in t :: CloneValue(t[k])
  }

  /** What `result[key]` becomes when `key` is first copied out of the target. */
  function CloneValue(v: JsValue): JsValue
    decreases v, 1
  {
    match v
    case JObj(f) => JObj(CloneFields(f))
    case JArr(items) => JArr(items)
    case _ => v
  }

  /** Lines 22-37: the value `result[key]` gets from `sourceValue` over `targetValue`. */
  function Assign(targetValue: JsValue, sourceValue: JsValue): JsValue
    decreases sourceValue, 1
  {
    if IsPlainObject(sourceValue) && IsPlainObject(targetValue) then
      JObj(Pour(CloneFields(targetValue.fields), sourceValue.fields))
    else if IsArray(sourceValue) then JArr(sourceValue.items)
    else if IsPlainObject(sourceValue) then JObj(Pour(map[], sourceValue.fields))
    else sourceValue
  }

  /**
   * Lines 18-38: the loop over one source's keys.  Each key is handled
   * once and reads only its own entry, so the order of the keys does not
   * matter.
   */
  function Pour(acc: map<string, JsValue>, src: map<string, JsValue>): map<string, JsValue>
    decreases JObj(src), 0
  {
    map k | k in acc.Keys + src.Keys :: if k in src then Assign(Target(acc, k), src[k]) else acc[k]
  }

  /** `deepMerge(...sources)`: the sources poured left to right into `{}`, falsy ones skipped. */
  function Merged(sources: seq<JsValue>): map<string, JsValue>
  {
    if |sources| == 0 then map[]
    else
      var acc := Merged(sources[..|sources| - 1]);
      var source := sources[|sources| - 1];
      if Truthy(source) then Pour(acc, Fields(source)) else acc
  }

  // ---------------------------------------------------------------------
  // The loops of deepMerge

  /** Lines 12-42. */
  method DeepMerge(sources: seq<JsValue>) returns (result: map<string, JsValue>)
    ensures result == Merged(sources)
  {
    result := map[];
    var i := 0;
    while i < |sources|
      invariant 0 <= i <= |sources|
      invariant result == Merged(sources[..i])
    {
      assert sources[..i + 1][..i] == sources[..i];
      var source := sources[i];
      if Truthy(source) {
        result := PourInto(result, Fields(source));
      }
      i := i + 1;
    }
    assert sources[..i] == sources;
  }

  /** Lines 18-38: every key of one source, in the order `Object.keys` lists them, written into `acc`. */
  method PourInto(acc: map<string, JsValue>, src: map<string, JsValue>) returns (result: map<string, JsValue>)
    decreases JObj(src), 0
    ensures result == Pour(acc, src)
  {
    var keys := KeysOf(src);
    result := acc;
    var i := 0;
    while i < |keys|
      invariant 0 <= i <= |keys|
      invariant result == Prefix(acc, src, keys, i)
    {
      result := PourKey(result, keys[i], src[keys[i]]);
      i := i + 1;
    }
    PrefixIsPour(acc, src, keys);
  }

  /** `keys` lists the keys of `m`, each once. */
  ghost predicate Enumerates(keys: seq<string>, m: map<string, JsValue>)
  {
    (forall i, j :: 0 <= i < j < |keys| ==> keys[i] != keys[j]) && (forall k :: k in m <==> k in keys)
  }

  /** `Object.keys(source)`: the own keys in some order, each once. */
  method KeysOf(m: map<string, JsValue>) returns (keys: seq<string>)
    ensures Enumerates(keys, m)
  {
    keys := [];
    var todo := m.Keys;
    while todo != {}
      invariant todo <= m.Keys
      invariant forall i, j :: 0 <= i < j < |keys| ==> keys[i] != keys[j]
      invariant forall k :: k in m <==> k in keys || k in todo
      invariant forall k :: k in keys ==> k !in todo
      decreases |todo|
    {
      var key :| key in todo;
      keys := keys + [key];
      todo := todo - {key};
    }
  }

  /** The loop's state after the first `n` keys. */
  ghost function Prefix(acc: map<string, JsValue>, src: map<string, JsValue>, keys: seq<string>, n: nat): map<string, JsValue>
    requires n <= |keys| && forall k :: k in keys ==> k in src
  {
    if n == 0 then acc
    else
      var r := Prefix(acc, src, keys, n - 1);
      r[keys[n - 1] := Assign(Target(r, keys[n - 1]), src[keys[n - 1]])]
  }

  /** The same state, as the keys written so far. */
  ghost function PourSome(acc: map<string, JsValue>, src: map<string, JsValue>, done: set<string>): map<string, JsValue>
    requires done <= src.Keys
  {
    map k | k in acc.Keys + done :: if k in done then Assign(Target(acc, k), src[k]) else acc[k]
  }

  /** Writing the keys one by one, in any order without repeats, gives the map `Pour` describes. */
  lemma PrefixIsPour(acc: map<string, JsValue>, src: map<string, JsValue>, keys: seq<string>)
    requires Enumerates(keys, src)
    ensures Prefix(acc, src, keys, |keys|) == Pour(acc, src)
  {
    PrefixIsSome(acc, src, keys, |keys|);
    assert (set i | 0 <= i < |keys| :: keys[i]) == src.Keys;
  }

  lemma {:induction false} PrefixIsSome(acc: map<string, JsValue>, src: map<string, JsValue>, keys: seq<string>, n: nat)
    requires Enumerates(keys, src) && n <= |keys|
    ensures (set i | 0 <= i < n :: keys[i]) <= src.Keys
    ensures Prefix(acc, src, keys, n) == PourSome(acc, src, set i | 0 <= i < n :: keys[i])
  {
    if n > 0 {
      PrefixIsSome(acc, src, keys, n - 1);
      var done := set i | 0 <= i < n - 1 :: keys[i];
      assert (set i | 0 <= i < n :: keys[i]) == done + {keys[n - 1]};
      PourOneMore(acc, src, done, keys[n - 1]);
    }
  }

  lemma PourOneMore(acc: map<string, JsValue>, src: map<string, JsValue>, done: set<string>, key: string)
    requires done <= src.Keys && key in src && key !in done
    ensures Target(PourSome(acc, src, done), key) == Target(acc, key)
    ensures PourSome(acc, src, done + {key}) == PourSome(acc, src, done)[key := Assign(Target(acc, key), src[key])]
  {
  }

  /** One turn of the loop: `result[key]` from `sourceValue` and the value already there. */
  method PourKey(result: map<string, JsValue>, key: string, sourceValue: JsValue) returns (next: map<string, JsValue>)
    decreases sourceValue, 2
    ensures next == result[key := Assign(Target(result, key), sourceValue)]
  {
    var value := MergeValue(Target(result, key), sourceValue);
    next := result[key := value];
  }

  /** Lines 22-37: the four cases for one key. */
  method MergeValue(targetValue: JsValue, sourceValue: JsValue) returns (r: JsValue)
    decreases sourceValue, 1
    ensures r == Assign(targetValue, sourceValue)
  {
    if IsPlainObject(sourceValue) && IsPlainObject(targetValue) {
      var copy := CloneObject(targetValue.fields);
      var merged := PourInto(copy, sourceValue.fields);
      r := JObj(merged);
    } else if IsArray(sourceValue) {
      r := JArr(sourceValue.items);
    } else if IsPlainObject(sourceValue) {
      var cloned := PourInto(map[], sourceValue.fields);
      r := JObj(cloned);
    } else {
      r := sourceValue;
    }
  }

  /** The first pass of `deepMerge(targetValue, sourceValue)`: every key of the target copied into `{}`. */
  method CloneObject(t: map<string, JsValue>) returns (result: map<string, JsValue>)
    decreases JObj(t)
    ensures result == CloneFields(t)
  {
    result := map[];
    var todo := t.Keys;
    while todo != {}
      invariant todo <= t.Keys
      invariant result.Keys == t.Keys - todo
      invariant forall k :: k in result ==> result[k] == CloneValue(t[k])
      decreases |todo|
    {
      var key :| key in todo;
      var value := t[key];
      if value.JObj? {
        var inner := CloneObject(value.fields);
        value := JObj(inner);
      } else if value.JArr? {
        value := JArr(value.items);
      }
      result := result[key := value];
      todo := todo - {key};
    }
  }

  // ---------------------------------------------------------------------
  // Properties

  /** Copying leaves a value as it was: the clone of an object is structurally equal to it. */
  lemma {:induction false} CloneIsIdentity(v: JsValue)
    decreases v
    ensures CloneValue(v) == v
    ensures v.JObj? ==> CloneFields(v.fields) == v.fields
  {
    if v.JObj? {
      forall k | k in v.fields
        ensures CloneValue(v.fields[k]) == v.fields[k]
      {
        CloneIsIdentity(v.fields[k]);
      }
    }
  }

  /** Lines 22-37 case by case: objects merge, a lone object and every other value arrive unchanged. */
  lemma AssignCases(targetValue: JsValue, sourceValue: JsValue)
    ensures IsPlainObject(sourceValue) && IsPlainObject(targetValue) ==>
      Assign(targetValue, sourceValue) == JObj(Pour(targetValue.fields, sourceValue.fields))
    ensures !(IsPlainObject(sourceValue) && IsPlainObject(targetValue)) ==>
      Assign(targetValue, sourceValue) == sourceValue
  {
    CloneIsIdentity(targetValue);
    if IsPlainObject(sourceValue) {
      PourEmpty(sourceValue.fields);
    }
  }

  /** Pouring into `{}` copies: `deepMerge({}, x)` is `x`. */
  lemma {:induction false} PourEmpty(src: map<string, JsValue>)
    decreases JObj(src)
    ensures Pour(map[], src) == src
  {
    forall k | k in src
      ensures Assign(JUndefined, src[k]) == src[k]
    {
      if src[k].JObj? {
        PourEmpty(src[k].fields);
      }
    }
  }

  /** `deepMerge(x)` is structurally equal to `x`, and a falsy single source gives `{}`. */
  lemma MergeOne(x: JsValue)
    ensures Merged([x]) == Fields(x)
  {
    assert [x][..0] == [];
    PourEmpty(Fields(x));
  }

  /** The result's keys are the keys of the sources, every one of them. */
  lemma {:induction false} MergedKeys(sources: seq<JsValue>)
    ensures forall k :: k in Merged(sources) <==> exists j :: 0 <= j < |sources| && k in Fields(sources[j])
  {
    if |sources| > 0 {
      var init := sources[..|sources| - 1];
      MergedKeys(init);
      forall k
        ensures k in Merged(sources) <==> exists j :: 0 <= j < |sources| && k in Fields(sources[j])
      {
        if exists j :: 0 <= j < |init| && k in Fields(init[j]) {
          var j :| 0 <= j < |init| && k in Fields(init[j]);
          assert sources[j] == init[j];
        }
        if exists j :: 0 <= j < |sources| && k in Fields(sources[j]) {
          var j :| 0 <= j < |sources| && k in Fields(sources[j]);
          if j < |init| {
            assert init[j] == sources[j];
          }
        }
      }
    }
  }

  /**
   * The last source holding `key` decides it when it holds something other
   * than a plain object there: a primitive is assigned and an array copied.
   */
  lemma {:induction false} LastWins(sources: seq<JsValue>, j: nat, key: string)
    requires j < |sources| && key in Fields(sources[j])
    requires forall i :: j < i < |sources| ==> key !in Fields(sources[i])
    requires !IsPlainObject(Fields(sources[j])[key])
    ensures key in Merged(sources) && Merged(sources)[key] == Fields(sources[j])[key]
  {
    var init := sources[..|sources| - 1];
    if j < |sources| - 1 {
      forall i | j < i < |init|
        ensures key !in Fields(init[i])
      {
        assert init[i] == sources[i];
      }
      assert init[j] == sources[j];
      LastWins(init, j, key);
    } else {
      AssignCases(Target(Merged(init), key), Fields(sources[j])[key]);
    }
  }

  /** A key whose value is a plain object both in the merge so far and in the next source merges recursively. */
  lemma ObjectsMerge(sources: seq<JsValue>, source: map<string, JsValue>, key: string)
    requires key in Merged(sources) && IsPlainObject(Merged(sources)[key])
    requires key in source && IsPlainObject(source[key])
    ensures Merged(sources + [JObj(source)])[key] == JObj(Pour(Merged(sources)[key].fields, source[key].fields))
  {
    assert (sources + [JObj(source)])[..|sources|] == sources;
    AssignCases(Merged(sources)[key], source[key]);
  }

  /** A `null`, `undefined` or other falsy source changes nothing. */
  lemma {:induction false} FalsySkipped(a: seq<JsValue>, x: JsValue, b: seq<JsValue>)
    requires !Truthy(x)
    decreases |b|
    ensures Merged(a + [x] + b) == Merged(a + b)
  {
    if |b| == 0 {
      assert a + [x] + b == a + [x];
      assert (a + [x])[..|a|] == a;
      assert a + b == a;
    } else {
      var b' := b[..|b| - 1];
      FalsySkipped(a, x, b');
      assert (a + [x] + b)[..|a + [x] + b| - 1] == a + [x] + b';
      assert (a + b)[..|a + b| - 1] == a + b';
    }
  }
}
