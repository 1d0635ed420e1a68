/**
 * JavaScript values as they reach the popup store and the utilities:
 * what `JSON.parse`, `chrome.storage` and Redux payloads can hold, plus
 * `undefined`.  Numbers carry NaN and the two infinities because the
 * validators in the store test for them.
 */
module Json {
  datatype JsNumber = Finite(r: real) | NaN | Infinity(positive: bool)

  datatype JsValue =
    | JUndefined
    | JNull
    | JBool(b: bool)
    | JNum(n: JsNumber)
    | JStr(s: string)
    | JArr(items: seq<JsValue>)
    | JObj(fields: map<string, JsValue>)

  function Num(r: real): JsValue
  {
    JNum(Finite(r))
  }

  /** JavaScript truthiness (`if (v)`, `v && ...`, `v || ...`). */
  predicate Truthy(v: JsValue)
  {
    match v
    case JUndefined => false
    case JNull => false
    case JBool(b) => b
    case JNum(n) => n.Infinity? || (n.Finite? && n.r != 0.0)
    case JStr(s) => s != ""
    case JArr(_) => true
    case JObj(_) => true
  }

  /** `a || b`: the first operand when it is truthy, else the second. */
  function Or(a: JsValue, b: JsValue): JsValue
  {
    if Truthy(a) then a else b
  }

  /** `v !== undefined && v !== null`. */
  predicate Present(v: JsValue)
  {
    !v.JUndefined? && !v.JNull?
  }

  /** The `typeof` operator. */
  function TypeOf(v: JsValue): string
  {
    match v
    case JUndefined => "undefined"
    case JNull => "object"
    case JBool(_) => "boolean"
    case JNum(_) => "number"
    case JStr(_) => "string"
    case JArr(_) => "object"
    case JObj(_) => "object"
  }

  /** `Object.prototype.toString.call(v) === '[object Object]'`. */
  predicate IsPlainObject(v: JsValue)
  {
    v.JObj?
  }

  /** `Array.isArray(v)`. */
  predicate IsArray(v: JsValue)
  {
    v.JArr?
  }

  /** `typeof v === 'object' && v !== null && !Array.isArray(v)` holds of objects and only of them. */
  lemma ObjectCheck(v: JsValue)
    ensures (TypeOf(v) == "object" && !v.JNull? && !IsArray(v)) <==> v.JObj?
  {
    assert "undefined" != "object" && "boolean" != "object" && "number" != "object" && "string" != "object";
  }

  /** Property read `v.key` for an own data property; anything else reads `undefined`. */
  function Get(v: JsValue, key: string): JsValue
  {
    if v.JObj? && key in v.fields then v.fields[key] else JUndefined
  }

  /** `typeof v === 'number' && !isNaN(v)`. */
  predicate IsNumberNotNaN(v: JsValue)
  {
    v.JNum? && !v.n.NaN?
  }

  /** `a - b` on numbers, with IEEE special values. */
  function Sub(a: JsNumber, b: JsNumber): JsNumber
  {
    match (a, b)
    case (Finite(x), Finite(y)) => Finite(x - y)
    case (Infinity(p), Finite(_)) => Infinity(p)
    case (Finite(_), Infinity(q)) => Infinity(!q)
    case (Infinity(p), Infinity(q)) => if p == q then NaN else Infinity(p)
    case _ => NaN
  }

  /** `Math.abs`. */
  function Abs(a: JsNumber): JsNumber
  {
    match a
    case Finite(x) => Finite(if x < 0.0 then -x else x)
    case NaN => NaN
    case Infinity(_) => Infinity(true)
  }

  /** `a > c` for a real constant `c`; every comparison with NaN is false. */
  predicate Above(a: JsNumber, c: real)
  {
    match a
    case Finite(x) => x > c
    case NaN => false
    case Infinity(p) => p
  }

  /**
   * `Number(v)`, the coercion the `-` operator applies.  Strings, arrays
   * and objects go through their string form, which `coerce` stands for.
   */
  function ToNumber(v: JsValue, coerce: JsValue -> JsNumber): JsNumber
  {
    match v
    case JNum(n) => n
    case JBool(b) => Finite(if b then 1.0 else 0.0)
    case JNull => Finite(0.0)
    case JUndefined => NaN
    case _ => coerce(v)
  }

  /**
   * `a === b` on primitives.  Object and array operands are separate
   * allocations in every use the model makes, so they compare unequal.
   */
  predicate StrictEquals(a: JsValue, b: JsValue)
  {
    match (a, b)
    case (JUndefined, JUndefined) => true
    case (JNull, JNull) => true
    case (JBool(x), JBool(y)) => x == y
    case (JNum(Finite(x)), JNum(Finite(y))) => x == y
    case (JNum(Infinity(p)), JNum(Infinity(q))) => p == q
    case (JStr(x), JStr(y)) => x == y
    case _ => false
  }

  /** White space removed by `String.prototype.trim`. */
  predicate IsTrimmed(c: char)
  {
    c == ' ' || c == '\t' || c == '\n' || c == '\r' || c == '\U{000B}' || c == '\U{000C}'
    || c == '\U{00A0}' || c == '\U{1680}' || ('\U{2000}' <= c <= '\U{200A}')
    || c == '\U{2028}' || c == '\U{2029}' || c == '\U{202F}' || c == '\U{205F}'
    || c == '\U{3000}' || c == '\U{FEFF}'
  }

  /** `s.trim().length > 0`: some character is not white space. */
  predicate NotBlank(s: string)
  {
    exists i :: 0 <= i < |s| && !IsTrimmed(s[i])
  }

  /** `s.includes(t)`. */
  predicate Contains(s: string, t: string)
    decreases |s|
  {
    |t| <= |s| && (s[..|t|] == t || (|s| > 0 && Contains(s[1..], t)))
  }

  /** A string that lacks the first letter of `t` does not contain `t`. */
  lemma {:induction false} MissingHead(s: string, t: string)
    requires |t| > 0 && t[0] !in s
    ensures !Contains(s, t)
    decreases |s|
  {
    if |t| <= |s| {
      assert s[..|t|][0] == s[0];
      if |s| > 0 {
        assert t[0] !in s[1..] by {
          assert forall c :: c in s[1..] ==> c in s;
        }
        MissingHead(s[1..], t);
      }
    }
  }

  /** A string that has `t` at position `k` contains `t`. */
  lemma {:induction false} ContainsAt(s: string, t: string, k: nat)
    requires k + |t| <= |s| && s[k..k + |t|] == t
    ensures Contains(s, t)
    decreases k
  {
    if k == 0 {
      assert s[..|t|] == s[0..|t|];
    } else {
      assert s[1..][k - 1..k - 1 + |t|] == s[k..k + |t|];
      ContainsAt(s[1..], t, k - 1);
    }
  }
}
