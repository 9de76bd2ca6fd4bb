/**
 The fragment of JavaScript semantics that the route handlers and the
 review widget rely on: the values that `response.json()` produces,
 property access with and without optional chaining, truthiness, `||`,
 `Array.prototype.map` with a callback that may throw, `String(x)`,
 `new Error(x).message` and `String.prototype.includes`.
 */
module Js {
  import opened Wrappers

  /** A JavaScript value as parsed JSON and property lookups produce it.
      A parsed body never holds `Undefined`; a lookup of a missing
      property yields it. Numbers are integers in this model. */
  datatype Value =
    | Undefined
    | Null
    | Bool(b: bool)
    | Num(n: int)
    | Str(s: string)
    | Arr(items: seq<Value>)
    | Obj(props: map<string, Value>)

  /** The completion of evaluating an expression: a value, or a thrown
      Error carrying its message. */
  datatype Completion<+T> = Normal(value: T) | Throw(message: string) {
    predicate IsFailure() {
      Throw?
    }

    function PropagateFailure<U>(): Completion<U>
      requires Throw?
    {
      Throw(message)
    }

    function Extract(): T
      requires Normal?
    {
      value
    }
  }

  predicate Nullish(v: Value) {
    v.Undefined? || v.Null?
  }

  /** ToBoolean: the falsy values are undefined, null, false, 0 and "". */
  predicate Truthy(v: Value) {
    match v
    case Undefined => false
    case Null => false
    case Bool(b) => b
    case Num(n) => n != 0
    case Str(s) => s != ""
    case Arr(_) => true
    case Obj(_) => true
  }

  /** `v?.k`: undefined when `v` is nullish or has no property `k`. None of
      the property names used here is a property of strings, numbers or
      arrays, so only an object can supply one. */
  function Get(v: Value, k: string): (r: Value)
    ensures v.Obj? && k in v.props ==> r == v.props[k]
    ensures r != Undefined ==> v.Obj? && k in v.props
    ensures Nullish(v) ==> r == Undefined
  {
    if v.Obj? && k in v.props then v.props[k] else Undefined
  }

  /** The message of the TypeError that reading property `k` of a null or
      undefined `v` raises. It names both the value and the property. */
  function ReadErrorMessage(v: Value, k: string): (m: string)
    ensures Includes(m, "'" + k + "'")
    ensures v.Null? ==> Includes(m, "null")
    ensures v.Undefined? ==> Includes(m, "undefined")
  {
    var kind := if v.Null? then "null" else "undefined";
    var before := "Cannot read properties of ";
    var after := " (reading ";
    var quoted := "'" + k + "'";
    var m := before + kind + after + quoted + ")";
    assert m == before + kind + (after + quoted + ")");
    assert m[|before|..|before| + |kind|] == kind;
    assert OccursAt(m, kind, |before|);
    assert m == before + kind + after + quoted + ")";
    assert m[|before + kind + after|..|before + kind + after| + |quoted|] == quoted;
    assert OccursAt(m, quoted, |before + kind + after|);
    m
  }

  /** `v.k`: a TypeError when `v` is null or undefined, otherwise `v?.k`. */
  function Prop(v: Value, k: string): (c: Completion<Value>)
    ensures c.Normal? <==> !Nullish(v)
    ensures c.Normal? ==> c.value == Get(v, k)
    ensures c.Throw? ==> c.message == ReadErrorMessage(v, k) && Includes(c.message, "'" + k + "'")
  {
    if Nullish(v) then Throw(ReadErrorMessage(v, k)) else Normal(Get(v, k))
  }

  /** `a || b`: one of its operands, truthy exactly when either is. */
  function Or(a: Value, b: Value): (r: Value)
    ensures r == a || r == b
    ensures Truthy(r) <==> Truthy(a) || Truthy(b)
    ensures Truthy(b) ==> Truthy(r)
    ensures Truthy(a) ==> r == a
    ensures !Truthy(a) ==> r == b
  {
    if Truthy(a) then a else b
  }

  /** The truthiness of an environment variable or a query parameter that
      may be unset: `!x` holds exactly when this is false. */
  predicate Present(x: Option<string>) {
    x.Some? && x.value != ""
  }

  /** `xs.map(f)` for a callback that may throw: the callback runs on the
      elements in index order and the first exception ends the whole map,
      so either every element is mapped or nothing is returned. */
  function MapArray(xs: seq<Value>, f: Value -> Completion<Value>): (c: Completion<seq<Value>>)
    ensures c.Normal? <==> forall i :: 0 <= i < |xs| ==> f(xs[i]).Normal?
    ensures c.Normal? ==> |c.value| == |xs|
    ensures c.Normal? ==> forall i :: 0 <= i < |xs| ==> c.value[i] == f(xs[i]).value
    ensures c.Throw? ==> exists i :: 0 <= i < |xs| && f(xs[i]).Throw? && c.message == f(xs[i]).message
  {
    if xs == [] then
      Normal([])
    else
      var y :- f(xs[0]);
      var ys :- MapArray(xs[1..], f);
      Normal([y] + ys)
  }

  function DigitChar(d: nat): (c: char)
    requires d < 10
    ensures '0' <= c <= '9' && c as int - '0' as int == d
  {
    "0123456789"[d]
  }

  /** The number a string of decimal digits denotes, read most significant
      digit first. */
  function DigitsValue(s: string): nat
    requires forall i :: 0 <= i < |s| ==> '0' <= s[i] <= '9'
  {
    if s == [] then 0
    else DigitsValue(s[..|s| - 1]) * 10 + (s[|s| - 1] as int - '0' as int)
  }

  /** The decimal digits of `n`, most significant first, without leading
      zeros: they read back as `n`. */
  function NatToString(n: nat): (s: string)
    ensures |s| > 0
    ensures forall i :: 0 <= i < |s| ==> '0' <= s[i] <= '9'
    ensures DigitsValue(s) == n
    ensures |s| > 1 ==> s[0] != '0'
  {
    if n < 10 then [DigitChar(n)]
    else
      var high := NatToString(n / 10);
      var s := high + [DigitChar(n % 10)];
      assert s[..|s| - 1] == high;
      s
  }

  /** `String(n)` for an integer `n`: a minus sign for negative numbers,
      then the digits of the magnitude. */
  function IntToString(n: int): (s: string)
    ensures n >= 0 ==> s == NatToString(n)
    ensures n < 0 ==> |s| > 1 && s[0] == '-' && s[1..] == NatToString(-n)
  {
    if n < 0 then "-" + NatToString(-n) else NatToString(n)
  }

  /** `String(v)`; an array is joined with "," and shows null and
      undefined elements as empty. */
  function ToJsString(v: Value): (s: string)
    ensures v.Str? ==> s == v.s
    ensures v.Num? && v.n >= 0 ==> s == NatToString(v.n) && DigitsValue(s) == v.n
    ensures v.Null? ==> s == "null"
    ensures v.Undefined? ==> s == "undefined"
    ensures v.Arr? && v.items == [] ==> s == ""
    ensures v.Obj? ==> s == "[object Object]"
    decreases v
  {
    match v
    case Undefined => "undefined"
    case Null => "null"
    case Bool(b) => if b then "true" else "false"
    case Num(n) => IntToString(n)
    case Str(s) => s
    case Arr(items) =>
      Join(seq(|items|, i requires 0 <= i < |items| =>
        if Nullish(items[i]) then "" else ToJsString(items[i])))
    case Obj(_) => "[object Object]"
  }

  /** `parts.join(",")` */
  function Join(parts: seq<string>): string {
    if parts == [] then ""
    else if |parts| == 1 then parts[0]
    else parts[0] + "," + Join(parts[1..])
  }

  /** The message of `new Error(v)`: empty for undefined, `String(v)` otherwise. */
  function ErrorMessage(v: Value): (m: string)
    ensures v.Undefined? ==> m == ""
    ensures !v.Undefined? ==> m == ToJsString(v)
    ensures v.Str? ==> m == v.s
  {
    if v.Undefined? then "" else ToJsString(v)
  }

  /** `t` occurs in `s` starting at index `i`. */
  predicate OccursAt(s: string, t: string, i: nat) {
    i + |t| <= |s| && s[i..i + |t|] == t
  }

  /** `s.includes(t)` */
  function Includes(s: string, t: string): (b: bool)
    ensures b <==> exists i: nat :: OccursAt(s, t, i)
  {
    if |t| > |s| then
      false
    else if s[..|t|] == t then
      assert OccursAt(s, t, 0);
      true
    else
      var r := Includes(s[1..], t);
      forall i: nat ensures OccursAt(s, t, i + 1) <==> OccursAt(s[1..], t, i) {
        if i + 1 + |t| <= |s| {
          var here, there := s[i + 1..i + 1 + |t|], s[1..][i..i + |t|];
          assert forall j :: 0 <= j < |t| ==> here[j] == there[j];
          assert here == there;
        }
      }
      if r then
        var i: nat :| OccursAt(s[1..], t, i);
        assert OccursAt(s, t, i + 1);
        true
      else
        assert forall i: nat :: OccursAt(s, t, i) ==> i > 0 && OccursAt(s[1..], t, i - 1);
        false
  }
}
