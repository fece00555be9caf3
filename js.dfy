/**
 * The slice of JavaScript semantics the services rely on: numbers (integers and NaN),
 * JSON-shaped values with `undefined`, truthiness, optional chaining (`?.`),
 * nullish coalescing (`??`), `String(v)` and `Number(v)`, thrown errors and the
 * shape of an HTTP response.
 */
module Js {
  import opened Wrappers
  import opened Text

  /** A JavaScript number. Only integral values are modelled, plus NaN. */
  datatype Num = NaN | Int(i: int)

  /** `a + b` on numbers. */
  function Add(a: Num, b: Num): Num {
    if a.Int? && b.Int? then Int(a.i + b.i) else NaN
  }

  /** `a - b` on numbers. */
  function Sub(a: Num, b: Num): Num {
    if a.Int? && b.Int? then Int(a.i - b.i) else NaN
  }

  /** `a * k` for an integer constant `k`. */
  function Scale(a: Num, k: int): Num {
    if a.Int? then Int(a.i * k) else NaN
  }

  /** `a >= b`; every comparison with NaN is false. */
  predicate AtLeast(a: Num, b: Num) {
    a.Int? && b.Int? && a.i >= b.i
  }

  /** `Math.max(a, b)`. */
  function Max(a: Num, b: Num): Num {
    if a.Int? && b.Int? then Int(if a.i >= b.i then a.i else b.i) else NaN
  }

  /** `Math.floor(a / d)`. */
  function FloorDiv(a: Num, d: int): (r: Num)
    requires d > 0
    ensures a.Int? <==> r.Int?
    ensures a.Int? ==> r.i * d <= a.i < r.i * d + d
  {
    if a.Int? then Int(a.i / d) else NaN
  }

  /**
   * `Math.round(a / d)`: the nearest integer, halves rounded up, as the bounds
   * `r - 1/2 <= a/d < r + 1/2` say.
   */
  function RoundDiv(a: Num, d: int): (r: Num)
    requires d > 0
    ensures a.Int? <==> r.Int?
    ensures a.Int? ==> 2 * r.i * d - d <= 2 * a.i < 2 * r.i * d + d
  {
    if a.Int? then
      var q := (2 * a.i + d) / (2 * d);
      assert q * (2 * d) <= 2 * a.i + d < q * (2 * d) + 2 * d;
      Int(q)
    else NaN
  }

  predicate NumTruthy(n: Num) {
    n.Int? && n.i != 0
  }

  /** `String(n)`. */
  function NumToString(n: Num): string {
    match n
    case NaN => "NaN"
    case Int(i) => IntToString(i)
  }

  /** A JavaScript value as decoded from JSON, plus `undefined`. */
  datatype Value =
    | Undefined
    | Null
    | Bool(b: bool)
    | Number(n: int)
    | Str(s: string)
    | Arr(items: seq<Value>)
    | Obj(fields: seq<(string, Value)>)

  predicate Nullish(v: Value) {
    v.Undefined? || v.Null?
  }

  predicate Truthy(v: Value) {
    match v
    case Undefined => false
    case Null => false
    case Bool(b) => b
    case Number(n) => n != 0
    case Str(s) => s != ""
    case Arr(_) => true
    case Obj(_) => true
  }

  /** The value stored under `key` in an object's fields, `undefined` when there is none. */
  function Lookup(fields: seq<(string, Value)>, key: string): Value {
    if fields == [] then Undefined else if fields[0].0 == key then fields[0].1 else Lookup(fields[1..], key)
  }

  /**
   * `v?.key` for the capitalised field names the services read: objects look the key up,
   * every other value yields `undefined`.
   */
  function Get(v: Value, key: string): Value {
    if v.Obj? then Lookup(v.fields, key) else Undefined
  }

  /** `v?.[0]`. */
  function Index0(v: Value): Value {
    match v
    case Arr(items) => if items == [] then Undefined else items[0]
    case Obj(_) => Get(v, "0")
    case Str(s) => if s == "" then Undefined else Str([s[0]])
    case _ => Undefined
  }

  /** `vs[0] ?? vs[1] ?? ... ?? vs[n-1]`. */
  function Coalesce(vs: seq<Value>): Value
    requires |vs| > 0
  {
    if |vs| == 1 || !Nullish(vs[0]) then vs[0] else Coalesce(vs[1..])
  }

  /** `v.k0 ?? v.k1 ?? ...`: the first field among `keys` that is neither null nor undefined. */
  function FirstPresent(v: Value, keys: seq<string>): Value
    requires |keys| > 0
  {
    var first := Get(v, keys[0]);
    if |keys| == 1 || !Nullish(first) then first else FirstPresent(v, keys[1..])
  }

  /** The field that `FirstPresent` yields is the first of `keys` that is present. */
  lemma {:induction false} FirstPresentAt(v: Value, keys: seq<string>, i: nat)
    requires i < |keys| && !Nullish(Get(v, keys[i]))
    requires forall j :: 0 <= j < i ==> Nullish(Get(v, keys[j]))
    ensures FirstPresent(v, keys) == Get(v, keys[i])
    decreases i
  {
    if i > 0 {
      assert Nullish(Get(v, keys[0]));
      FirstPresentAt(v, keys[1..], i - 1);
    }
  }

  /**
   * `??` picks the first operand that is neither null nor undefined, and the last
   * operand when all of them are.
   */
  lemma {:induction false} CoalescePicksFirstPresent(vs: seq<Value>) returns (i: nat)
    requires |vs| > 0
    ensures i < |vs| && Coalesce(vs) == vs[i]
    ensures forall j :: 0 <= j < i ==> Nullish(vs[j])
    ensures Nullish(vs[i]) ==> i == |vs| - 1
    decreases |vs|
  {
    if |vs| == 1 || !Nullish(vs[0]) {
      i := 0;
    } else {
      var k := CoalescePicksFirstPresent(vs[1..]);
      i := k + 1;
    }
  }

  /** `String(v)`. */
  function ToJsString(v: Value): string {
    match v
    case Undefined => "undefined"
    case Null => "null"
    case Bool(b) => if b then "true" else "false"
    case Number(n) => IntToString(n)
    case Str(s) => s
    case Arr(items) => JoinItems(items)
    case Obj(_) => "[object Object]"
  }

  /** `Array.prototype.join(",")`, where null and undefined elements print as "". */
  function JoinItems(items: seq<Value>): string
    decreases items
  {
    if items == [] then ""
    else
      var first := if Nullish(items[0]) then "" else ToJsString(items[0]);
      if |items| == 1 then first else first + "," + JoinItems(items[1..])
  }

  /**
   * `Number(v)`. `strToNumber` is the host's reading of a string as a number
   * (`Number(s)`), which this model does not define.
   */
  function ToNumber(v: Value, strToNumber: string -> Num): Num {
    match v
    case Undefined => NaN
    case Null => Int(0)
    case Bool(b) => Int(if b then 1 else 0)
    case Number(n) => Int(n)
    case Str(s) => strToNumber(s)
    case Arr(_) => strToNumber(ToJsString(v))
    case Obj(_) => NaN
  }

  /** An exception that escapes a service call. */
  datatype Error =
    | RequestFailed(service: string, status: int, body: string)
    | MalformedBody
    | TypeError

  /**
   * What `fetch` resolves to: `ok`, `status`, the body as text, and the body decoded as
   * JSON (`None` when `response.json()` would reject).
   */
  datatype HttpResponse = HttpResponse(ok: bool, status: int, body: string, json: Option<Value>)
}
