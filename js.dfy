/**
 * The JavaScript values the data layer passes around: parsed JSON payloads,
 * the property bags handed to model constructors, and cached data. An object
 * built by one of the model classes is represented by the record of its own
 * properties, which is also what the durable snapshot stores for it.
 */
module Js {
  import opened Text

  datatype Value =
    | Undefined
    | Null
    | Bool(b: bool)
    | Num(n: int)
    | Str(s: string)
    | Arr(items: seq<Value>)
    | Obj(fields: map<string, Value>)

  /** JavaScript truthiness (`NaN` is not modelled). */
  predicate Truthy(v: Value)
  {
    match v
    case Undefined => false
    case Null => false
    case Bool(b) => b
    case Num(n) => n != 0
    case Str(s) => s != ""
    case Arr(_) => true
    case Obj(_) => true
  }

  /** `null` or `undefined`: the values whose property access throws. */
  predicate Nullish(v: Value)
  {
    v.Undefined? || v.Null?
  }

  /** `a || b`. */
  function Or(a: Value, b: Value): Value
  {
    if Truthy(a) then a else b
  }

  /** A destructuring default `{ x = d }`: it applies only to `undefined`. */
  function Default(v: Value, d: Value): Value
  {
    if v.Undefined? then d else v
  }

  /** `v.key` for a named property of a non-nullish value. */
  function Prop(v: Value, key: string): Value
  {
    match v
    case Obj(fields) => if key in fields then fields[key] else Undefined
    case _ => Undefined
  }

  /** `v[i]` for a non-nullish value (on `null`/`undefined` the source throws). */
  function At(v: Value, i: nat): Value
    requires !Nullish(v)
  {
    match v
    case Arr(items) => if i < |items| then items[i] else Undefined
    case Str(s) => if i < |s| then Str([s[i]]) else Undefined
    case Obj(_) => Prop(v, NatToString(i))
    case _ => Undefined
  }

  /** `v.length > 0` for a non-nullish value; a non-numeric `length` property is not coerced. */
  predicate LengthPositive(v: Value)
    requires !Nullish(v)
  {
    match v
    case Arr(items) => |items| > 0
    case Str(s) => |s| > 0
    case Obj(_) => Prop(v, "length").Num? && Prop(v, "length").n > 0
    case _ => false
  }

  /** `String(v)`, as a template literal or a property key converts it. */
  function ToStr(v: Value): string
    decreases v, 1, 0
  {
    match v
    case Undefined => "undefined"
    case Null => "null"
    case Bool(b) => if b then "true" else "false"
    case Num(n) => IntToString(n)
    case Str(s) => s
    case Arr(items) => JoinFrom(items, 0)
    case Obj(_) => "[object Object]"
  }

  /** `items.slice(i).join(',')`, where `null` and `undefined` print as empty. */
  function JoinFrom(items: seq<Value>, i: nat): string
    requires i <= |items|
    decreases Arr(items), 0, |items| - i
  {
    if i == |items| then ""
    else
      var head := if Nullish(items[i]) then "" else ToStr(items[i]);
      if i + 1 == |items| then head else head + "," + JoinFrom(items, i + 1)
  }

  /** `items.filter(Boolean)`. */
  function Truthies(items: seq<Value>): (r: seq<Value>)
    ensures |r| <= |items|
    ensures forall k :: 0 <= k < |r| ==> Truthy(r[k]) && r[k] in items
    ensures forall v :: v in items && Truthy(v) ==> v in r
  {
    if items == [] then []
    else (if Truthy(items[0]) then [items[0]] else []) + Truthies(items[1..])
  }

  /** Filtering distributes over concatenation, so it keeps the order of what it keeps. */
  lemma {:induction false} TruthiesAppend(a: seq<Value>, b: seq<Value>)
    ensures Truthies(a + b) == Truthies(a) + Truthies(b)
  {
    if a == [] {
      assert a + b == b;
    } else {
      assert (a + b)[0] == a[0] && (a + b)[1..] == a[1..] + b;
      TruthiesAppend(a[1..], b);
    }
  }

  /** A list without falsy items passes the filter unchanged. */
  lemma {:induction false} AllTruthyKept(items: seq<Value>)
    requires forall k :: 0 <= k < |items| ==> Truthy(items[k])
    ensures Truthies(items) == items
  {
    if items != [] {
      AllTruthyKept(items[1..]);
      assert [items[0]] + items[1..] == items;
    }
  }

  /**
   * `items.map(x => build(x) if x is truthy else null).filter(Boolean)`, the
   * shape of every `fromAPIArray`: one built value per truthy item, in order.
   */
  function MapTruthy<T>(items: seq<Value>, build: Value -> T): (r: seq<T>)
    ensures |r| == |Truthies(items)|
    ensures forall k :: 0 <= k < |r| ==> r[k] == build(Truthies(items)[k])
  {
    if items == [] then []
    else (if Truthy(items[0]) then [build(items[0])] else []) + MapTruthy(items[1..], build)
  }
}
