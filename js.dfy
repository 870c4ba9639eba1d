/**
 * The part of JavaScript's value semantics the model needs: flat JSON-like values,
 * objects as maps from key to value (an absent key is `undefined`), truthiness,
 * `??`, `String(v)` and object spread.
 */
module Js {
  import opened Wrappers
  import Strings

  /** A flat JSON value. */
  datatype Value = Str(s: string) | Num(n: int) | Bool(b: bool) | Null

  /** A plain object; a key that is absent reads as `undefined`. */
  type Obj = map<string, Value>

  /** `o.k` (or `o?.k`): the value stored at `k`, or undefined. */
  function Get(o: Obj, k: string): (v: Option<Value>)
    ensures v.Some? <==> k in o
    ensures v.Some? ==> v.value == o[k]
  {
    if k in o then Some(o[k]) else None
  }

  /** Whether `if (v)` takes its branch: every value except the falsy ones (see `FalsyValues`). */
  predicate Truthy(v: Option<Value>)
  {
    match v
    case None => false
    case Some(Null) => false
    case Some(Bool(b)) => b
    case Some(Num(n)) => n != 0
    case Some(Str(s)) => s != ""
  }

  /** The falsy values are exactly undefined, null, false, 0 and the empty string. */
  lemma FalsyValues(v: Option<Value>)
    ensures !Truthy(v) <==> v in {None, Some(Null), Some(Bool(false)), Some(Num(0)), Some(Str(""))}
  {
  }

  /** `v ?? d`: `d` exactly when `v` is undefined or null. */
  function Coalesce(v: Option<Value>, d: Value): (r: Value)
    ensures (v.None? || v == Some(Null)) ==> r == d
    ensures v.Some? && v.value != Null ==> r == v.value
  {
    match v
    case Some(x) => if x == Null then d else x
    case None => d
  }

  /** `String(v)` */
  function ToString(v: Option<Value>): (r: string)
    ensures v.None? ==> r == "undefined"
    ensures v == Some(Null) ==> r == "null"
    ensures v.Some? && v.value.Str? ==> r == v.value.s
    ensures v.Some? && v.value.Num? ==> r == Strings.IntToString(v.value.n)
    ensures v.Some? && v.value.Num? && v.value.n >= 0 ==> r != [] && forall k :: 0 <= k < |r| ==> '0' <= r[k] <= '9'
  {
    match v
    case None => "undefined"
    case Some(Null) => "null"
    case Some(Bool(b)) => if b then "true" else "false"
    case Some(Num(n)) => Strings.IntToString(n)
    case Some(Str(s)) => s
  }

  /** A numeric id and its decimal text have the same `String(v)`, so they match each other. */
  lemma NumberMatchesItsText(n: int)
    ensures ToString(Some(Num(n))) == ToString(Some(Str(Strings.IntToString(n))))
  {
  }

  /** Two numeric ids have the same `String(v)` only when they are equal. */
  lemma DistinctNumbersDistinctKeys(a: int, b: int)
    requires a != b
    ensures ToString(Some(Num(a))) != ToString(Some(Num(b)))
  {
    if Strings.IntToString(a) == Strings.IntToString(b) {
      Strings.IntToStringInjective(a, b);
    }
  }

  /** `{...a, ...b}`: every key of `b` wins, the other keys of `a` stay. */
  function Spread(a: Obj, b: Obj): (r: Obj)
    ensures r.Keys == a.Keys + b.Keys
    ensures forall k :: k in b ==> r[k] == b[k]
    ensures forall k :: k in a && k !in b ==> r[k] == a[k]
  {
    a + b
  }
}
