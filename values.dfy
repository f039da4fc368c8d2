/**
 * Values as the room protocol carries them: JSON data on the server, JavaScript
 * values on the client. `Undefined` is the JavaScript value a missing property
 * reads as; JSON never carries it. Numbers are integers in this model.
 */
module Values {
  import opened Wrappers

  datatype Value =
    | Undefined
    | Null
    | Bool(b: bool)
    | Num(n: int)
    | Str(s: string)
    | Arr(items: seq<Value>)
    | Obj(fields: map<string, Value>)

  /** `null` and `undefined`: the two values whose properties cannot be read. */
  predicate Nullish(v: Value) {
    v.Undefined? || v.Null?
  }

  /** JavaScript truthiness, as used by `if (x)` and `!x`. */
  predicate Truthy(v: Value) {
    match v
    case Undefined => false
    case Null => false
    case Bool(b) => b
    case Num(n) => n != 0
    case Str(s) => s != ""
    case Arr(_) => true
    case Obj(_) => true
  }

  /** `v[key]` on a value that is not nullish: an own field, or `undefined`. */
  function Get(v: Value, key: string): Value {
    if v.Obj? && key in v.fields then v.fields[key] else Undefined
  }

  /** `v.key`: `None` stands for the TypeError raised when `v` is `null` or `undefined`. */
  function Prop(v: Value, key: string): (r: Option<Value>)
    ensures r.None? <==> Nullish(v)
    ensures r.Some? ==> r.value == Get(v, key)
  {
    if Nullish(v) then None else Some(Get(v, key))
  }

  /**
   * `v.key = x` in strict-mode code: a plain object gains or replaces the field;
   * on anything else the assignment raises a TypeError (`None`).
   */
  function SetProp(v: Value, key: string, x: Value): (r: Option<Value>)
    ensures r.Some? <==> v.Obj?
    ensures r.Some? ==> r.value.Obj? && Get(r.value, key) == x && r.value.fields.Keys == v.fields.Keys + {key}
  {
    if v.Obj? then Some(Obj(v.fields[key := x])) else None
  }

  /** The elements a `for (... of v)` loop visits; `None` when `v` is not iterable. */
  function Iterate(v: Value): (r: Option<seq<Value>>)
    ensures r.Some? <==> v.Arr? || v.Str?
    ensures v.Arr? ==> r == Some(v.items)
    ensures v.Str? ==> r.Some? && |r.value| == |v.s| && forall i :: 0 <= i < |v.s| ==> r.value[i] == Str([v.s[i]])
  {
    match v
    case Arr(items) => Some(items)
    case Str(s) => Some(seq(|s|, i requires 0 <= i < |s| => Str([s[i]])))
    case _ => None
  }

  /**
   * `a == b` as the client compares peer ids: equal values, or both nullish.
   * JavaScript's number/string coercion and the reference identity of objects are
   * not part of this model.
   */
  predicate LooseEq(a: Value, b: Value) {
    a == b || (Nullish(a) && Nullish(b))
  }

  lemma LooseEqIsEquivalence(a: Value, b: Value, c: Value)
    ensures LooseEq(a, a)
    ensures LooseEq(a, b) ==> LooseEq(b, a)
    ensures LooseEq(a, b) && LooseEq(b, c) ==> LooseEq(a, c)
  {
  }

  /** Decimal digits of a natural number. */
  function NatToString(n: nat): (r: string)
    ensures |r| >= 1
    ensures forall i :: 0 <= i < |r| ==> '0' <= r[i] <= '9'
    decreases n
  {
    if n < 10 then [Digit(n)] else NatToString(n / 10) + [Digit(n % 10)]
  }

  function Digit(d: nat): (c: char)
    requires d < 10
    ensures '0' <= c <= '9'
  {
    ['0', '1', '2', '3', '4', '5', '6', '7', '8', '9'][d]
  }

  /** The value of a decimal digit string (the inverse of `NatToString`). */
  function ParseNat(s: string): nat
    requires forall i :: 0 <= i < |s| ==> '0' <= s[i] <= '9'
  {
    if s == [] then 0 else 10 * ParseNat(s[..|s| - 1]) + (s[|s| - 1] as int - '0' as int)
  }

  lemma {:induction false} NatToStringRoundTrip(n: nat)
    ensures ParseNat(NatToString(n)) == n
    decreases n
  {
    if n >= 10 {
      NatToStringRoundTrip(n / 10);
      var s := NatToString(n);
      assert s[..|s| - 1] == NatToString(n / 10);
    }
  }

  /** `String(v)`, the text a template literal inserts for `v`. */
  function Display(v: Value): string {
    match v
    case Undefined => "undefined"
    case Null => "null"
    case Bool(b) => if b then "true" else "false"
    case Num(n) => if n < 0 then "-" + NatToString(-n) else NatToString(n)
    case Str(s) => s
    case Arr(items) => JoinDisplay(items)
    case Obj(_) => "[object Object]"
  }

  /** `items.join(",")`: nullish elements show as the empty string. */
  function JoinDisplay(items: seq<Value>): string
    decreases items
  {
    if items == [] then ""
    else
      var head := if Nullish(items[0]) then "" else Display(items[0]);
      if |items| == 1 then head else head + "," + JoinDisplay(items[1..])
  }
}
