/**
 * JavaScript values as the style layer sees them: the few primitive kinds the
 * resolver tests for, their truthiness, plain objects as key/value lists, and
 * the two theme lookup tables (colours and sizes).
 */
module Values {

  datatype Option<T> = None | Some(value: T)

  /** A JavaScript value. `Composite` stands for any object, array or function
      (always truthy); its payload only tells two of them apart. */
  datatype Value =
    | Undefined
    | Null
    | Bool(b: bool)
    | Num(n: real)
    | Str(s: string)
    | Composite(id: nat)

  /** JavaScript truthiness: `undefined`, `null`, `false`, `0` and `""` are falsy. */
  predicate Truthy(v: Value) {
    match v
    case Undefined => false
    case Null => false
    case Bool(b) => b
    case Num(n) => n != 0.0
    case Str(s) => s != ""
    case Composite(_) => true
  }

  /** The registered colours of a theme, name to colour value. */
  type Colors = map<string, Value>

  /** The registered sizes of a theme, name to number. */
  type Sizes = map<string, real>

  /** A resolved style object: property name to value. */
  type Style = map<string, Value>

  /** `colors[value]`: the registered colour named by a string value, else `undefined`. */
  function ColorOf(colors: Colors, value: Value): (r: Value)
    ensures r != Undefined <==> value.Str? && value.s in colors && colors[value.s] != Undefined
  {
    if value.Str? && value.s in colors then colors[value.s] else Undefined
  }

  /** `sizes[value]`: the registered size named by a string value, else `undefined`. */
  function SizeOf(sizes: Sizes, value: Value): (r: Value)
    ensures r.Num? || r == Undefined
    ensures r.Num? <==> value.Str? && value.s in sizes
  {
    if value.Str? && value.s in sizes then Num(sizes[value.s]) else Undefined
  }

  /** No key occurs twice: what every JavaScript object guarantees of its own keys. */
  predicate DistinctKeys<K(==), V>(s: seq<(K, V)>) {
    forall i, j :: 0 <= i < j < |s| ==> s[i].0 != s[j].0
  }

  /** A plain JavaScript object: its own keys in iteration order, each with its value. */
  type Props = s: seq<(string, Value)> | DistinctKeys(s) witness []

  /** The value stored under `k`, if any (the first pair with that key). */
  function Find<K(==), V>(s: seq<(K, V)>, k: K): (r: Option<V>)
    ensures r.None? <==> forall i :: 0 <= i < |s| ==> s[i].0 != k
  {
    if s == [] then None
    else if s[0].0 == k then Some(s[0].1)
    else Find(s[1..], k)
  }

  /** `object[key]` on a plain object: the stored value, or `undefined` when the key is absent. */
  function Get(props: seq<(string, Value)>, key: string): Value {
    match Find(props, key)
    case Some(v) => v
    case None => Undefined
  }

  /** In an object, looking up the key of its `i`-th entry yields that entry's value. */
  lemma {:induction false} FindAt<K, V>(s: seq<(K, V)>, i: nat)
    requires DistinctKeys(s)
    requires i < |s|
    ensures Find(s, s[i].0) == Some(s[i].1)
  {
    if i > 0 {
      assert s[0].0 != s[i].0;
      assert DistinctKeys(s[1..]) by {
        forall a, b | 0 <= a < b < |s[1..]| ensures s[1..][a].0 != s[1..][b].0 {
          assert s[1..][a] == s[a + 1] && s[1..][b] == s[b + 1];
        }
      }
      FindAt(s[1..], i - 1);
      assert s[1..][i - 1] == s[i];
    }
  }

  /** `Object.keys`: the keys of an object in iteration order. */
  function Keys<K, V>(s: seq<(K, V)>): (r: seq<K>)
    ensures |r| == |s|
    ensures forall i :: 0 <= i < |s| ==> r[i] == s[i].0
  {
    seq(|s|, i requires 0 <= i < |s| => s[i].0)
  }
}
