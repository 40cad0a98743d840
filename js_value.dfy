/** JavaScript values as the form builder sees them: what `JSON.parse` returns,
    JS truthiness, property reads, `a || b || c` chains, object spread and the
    string conversion used when a value becomes an object key. */
module JsValue {

  datatype Option<+T> = None | Some(value: T)

  /** A JSON value. Numbers are kept as integers: the core only ever asks
      whether a number is zero, or turns a label into its decimal text. */
  datatype Json =
    | Null
    | Bool(b: bool)
    | Num(n: int)
    | Str(s: string)
    | Arr(items: seq<Json>)
    | Obj(props: map<string, Json>)

  /** The completion of a JS expression that may throw: reading a property
      of `null` raises a TypeError. */
  datatype Completion<+T> = Normal(value: T) | TypeError

  /** JS truthiness: `null`, `false`, `0` and `""` are falsy, every array and
      every object (even an empty one) is truthy. */
  predicate Truthy(v: Json)
  {
    match v
    case Null => false
    case Bool(b) => b
    case Num(n) => n != 0
    case Str(s) => s != []
    case Arr(_) => true
    case Obj(_) => true
  }

  /** Truthiness of a value that may be `undefined` (None). */
  predicate Present(v: Option<Json>)
  {
    v.Some? && Truthy(v.value)
  }

  /** `v.key`. Reading from `null` throws, so callers rule that out first.
      Only objects carry the keys this core reads: none of them is a
      property of strings, arrays, numbers, booleans or Object.prototype. */
  function Get(v: Json, key: string): Option<Json>
    requires !v.Null?
  {
    if v.Obj? && key in v.props then Some(v.props[key]) else None
  }

  /** `v.key` is truthy. */
  predicate Holds(v: Json, key: string)
    requires !v.Null?
  {
    Present(Get(v, key))
  }

  /** The key at index `i` is the first of `keys` whose property is truthy. */
  predicate FirstHolds(v: Json, keys: seq<string>, i: int)
    requires !v.Null?
  {
    && 0 <= i < |keys|
    && Holds(v, keys[i])
    && forall j | 0 <= j < i :: !Holds(v, keys[j])
  }

  /** `v[keys[0]] || v[keys[1]] || ... || fallback`. */
  function Pick(v: Json, keys: seq<string>, fallback: Json): Json
    requires !v.Null?
    decreases |keys|
  {
    if keys == [] then fallback
    else if Holds(v, keys[0]) then Get(v, keys[0]).value
    else Pick(v, keys[1..], fallback)
  }

  /** A `||` chain yields the first truthy candidate, and the fallback
      exactly when no candidate is truthy. */
  lemma {:induction false} PickFirstTruthy(v: Json, keys: seq<string>, fallback: Json)
    requires !v.Null?
    ensures forall i | FirstHolds(v, keys, i) :: Pick(v, keys, fallback) == Get(v, keys[i]).value
    ensures (forall i | 0 <= i < |keys| :: !Holds(v, keys[i])) ==> Pick(v, keys, fallback) == fallback
    decreases |keys|
  {
    if keys != [] {
      PickFirstTruthy(v, keys[1..], fallback);
      forall i | FirstHolds(v, keys, i)
        ensures Pick(v, keys, fallback) == Get(v, keys[i]).value
      {
        if i > 0 {
          assert FirstHolds(v, keys[1..], i - 1);
        }
      }
      if forall i | 0 <= i < |keys| :: !Holds(v, keys[i]) {
        assert !Holds(v, keys[0]);
        assert forall i | 0 <= i < |keys[1..]| :: !Holds(v, keys[1..][i]) by {
          forall i | 0 <= i < |keys[1..]| ensures !Holds(v, keys[1..][i]) {
            assert keys[1..][i] == keys[i + 1];
          }
        }
      }
    }
  }

  /** `v.a || fallback` in closed form. */
  lemma PickOne(v: Json, a: string, fallback: Json)
    requires !v.Null?
    ensures Pick(v, [a], fallback) == if Holds(v, a) then Get(v, a).value else fallback
  {
    assert [a][1..] == [];
  }

  /** `v.a || v.b || fallback` in closed form. */
  lemma PickTwo(v: Json, a: string, b: string, fallback: Json)
    requires !v.Null?
    ensures Pick(v, [a, b], fallback) ==
              if Holds(v, a) then Get(v, a).value
              else if Holds(v, b) then Get(v, b).value
              else fallback
  {
    assert [a, b][1..] == [b];
    PickOne(v, b, fallback);
  }

  /** `v.a || v.b || v.c || fallback` in closed form. */
  lemma PickThree(v: Json, a: string, b: string, c: string, fallback: Json)
    requires !v.Null?
    ensures Pick(v, [a, b, c], fallback) ==
              if Holds(v, a) then Get(v, a).value
              else if Holds(v, b) then Get(v, b).value
              else if Holds(v, c) then Get(v, c).value
              else fallback
  {
    assert [a, b, c][1..] == [b, c];
    PickTwo(v, b, c, fallback);
  }

  /** Two chains over the same keys differ only in their fallback: both
      yield their fallback, or both yield the same truthy value. */
  lemma {:induction false} PickSameKeys(v: Json, keys: seq<string>, fallback: Json, fallback': Json)
    requires !v.Null?
    ensures if forall i | 0 <= i < |keys| :: !Holds(v, keys[i])
            then Pick(v, keys, fallback) == fallback && Pick(v, keys, fallback') == fallback'
            else Pick(v, keys, fallback) == Pick(v, keys, fallback') && Truthy(Pick(v, keys, fallback))
    decreases |keys|
  {
    if keys != [] && !Holds(v, keys[0]) {
      PickSameKeys(v, keys[1..], fallback, fallback');
      assert forall i | 0 <= i < |keys[1..]| :: keys[1..][i] == keys[i + 1];
      if exists i | 0 <= i < |keys| :: Holds(v, keys[i]) {
        var i :| 0 <= i < |keys| && Holds(v, keys[i]);
        assert i > 0 && Holds(v, keys[1..][i - 1]);
      }
    }
  }

  /** The own enumerable properties that `{...v}` copies. Spreading `null`,
      a boolean or a number copies nothing. */
  function OwnProps(v: Json): map<string, Json>
  {
    if v.Obj? then v.props else map[]
  }

  /** `{...a, ...b}`: the keys of both, with `b` winning on shared keys. */
  function Spread(a: Json, b: Json): (r: Json)
    ensures r.Obj?
    ensures r.props.Keys == OwnProps(a).Keys + OwnProps(b).Keys
    ensures forall k | k in OwnProps(b) :: r.props[k] == OwnProps(b)[k]
    ensures forall k | k in OwnProps(a) && k !in OwnProps(b) :: r.props[k] == OwnProps(a)[k]
  {
    Obj(OwnProps(a) + OwnProps(b))
  }

  function DigitChar(d: int): char
    requires 0 <= d < 10
  {
    "0123456789"[d]
  }

  function Digits(n: nat): string
    decreases n
  {
    if n < 10 then [DigitChar(n)] else Digits(n / 10) + [DigitChar(n % 10)]
  }

  /** The decimal text of an integer, as `String(n)` prints it. */
  function Decimal(n: int): string
  {
    if n < 0 then "-" + Digits(-n) else Digits(n)
  }

  /** `String(v)`, which is also the key `obj[v]` reads or writes. An array
      joins its elements with commas, writing `null` as nothing. */
  function ToJsString(v: Json): string
    decreases v, if v.Arr? then |v.items| + 1 else 0
  {
    match v
    case Null => "null"
    case Bool(b) => if b then "true" else "false"
    case Num(n) => Decimal(n)
    case Str(s) => s
    case Arr(items) => JoinFrom(items, 0)
    case Obj(_) => "[object Object]"
  }

  /** `items.slice(i).join(",")`. */
  function JoinFrom(items: seq<Json>, i: nat): string
    requires i <= |items|
    decreases Arr(items), |items| - i
  {
    if i == |items| then ""
    else
      var head := if items[i].Null? then "" else ToJsString(items[i]);
      if i + 1 == |items| then head else head + "," + JoinFrom(items, i + 1)
  }
}
