/**
 The fragment of JavaScript values and operators the decorator relies on:
 truthiness, `||` and `&&` as value-returning operators, strict equality,
 `_.isNil`, property keys and property reads.

 Objects, arrays and functions are references: each carries the address `ref`
 it was allocated at, and `===` compares only that address. Numbers are
 modelled as integers.
 */
module Js {
  import opened Results

  /** Address of an object, array or function in the JavaScript heap. */
  type Ref = nat

  datatype Value =
    | Undefined
    | Null
    | Bool(b: bool)
    | Num(n: int)
    | Str(s: string)
    | Object(ref: Ref, fields: map<string, Value>)
    | Array(ref: Ref, elems: seq<Value>)
    | Function(ref: Ref, source: string)

  /** The TypeErrors the decorator's own code can raise. */
  datatype Fault =
    | CannotReadProperty(key: string)  // `v[key]` with `v` null or undefined
    | CannotDestructure                // `const { … } = v` with `v` null or undefined
    | NotAnArray                       // `items.forEach` on a truthy non-array

  /** The own enumerable properties of a plain object, such as a props object. */
  type Bag = map<string, Value>

  /** `p.key` for a plain object `p`. */
  function Prop(p: Bag, key: string): Value {
    if key in p then p[key] else Undefined
  }

  /** `_.isNil(v)`. */
  predicate IsNil(v: Value) {
    v.Undefined? || v.Null?
  }

  predicate IsReference(v: Value) {
    v.Object? || v.Array? || v.Function?
  }

  /** `typeof v === 'object' && v !== null`. */
  predicate IsObjectLike(v: Value) {
    v.Object? || v.Array?
  }

  /** `!!v`. */
  predicate Truthy(v: Value) {
    match v
    case Undefined => false
    case Null => false
    case Bool(b) => b
    case Num(n) => n != 0
    case Str(s) => s != ""
    case _ => true
  }

  /** `a || b`: the left operand when it is truthy, else the right one. */
  function Or(a: Value, b: Value): Value {
    if Truthy(a) then a else b
  }

  /** `a === b`. */
  predicate StrictEquals(a: Value, b: Value) {
    if IsReference(a) || IsReference(b) then
      IsReference(a) && IsReference(b) && a.ref == b.ref
    else
      a == b
  }

  function DigitChar(d: nat): char
    requires d < 10
  {
    (d + 48) as char
  }

  /** Decimal representation of a natural number, as `String(n)` writes it. */
  function NatToString(n: nat): (s: string)
    ensures |s| >= 1
    ensures n < 10 <==> |s| == 1
  {
    if n < 10 then [DigitChar(n)] else NatToString(n / 10) + [DigitChar(n % 10)]
  }

  function IntToString(i: int): string {
    if i < 0 then "-" + NatToString(-i) else NatToString(i)
  }

  /** Distinct numbers print differently, so array index keys never collide. */
  lemma {:induction false} NatToStringInjective(a: nat, b: nat)
    requires NatToString(a) == NatToString(b)
    ensures a == b
    decreases a
  {
    var s := NatToString(a);
    if a < 10 {
      assert s[0] == DigitChar(a) && s[0] == DigitChar(b);
    } else {
      var sa, sb := NatToString(a / 10), NatToString(b / 10);
      assert s == sa + [DigitChar(a % 10)];
      assert s == sb + [DigitChar(b % 10)];
      assert sa == s[..|s| - 1] == sb;
      NatToStringInjective(a / 10, b / 10);
      assert DigitChar(a % 10) == s[|s| - 1] == DigitChar(b % 10);
    }
  }

  /** The property key a value is converted to when used in `obj[v]`. */
  function PropertyKey(v: Value): string
    decreases v, 1
  {
    match v
    case Undefined => "undefined"
    case Null => "null"
    case Bool(b) => if b then "true" else "false"
    case Num(n) => IntToString(n)
    case Str(s) => s
    case Object(_, _) => "[object Object]"
    case Array(_, _) => JoinKeys(v, 0)
    case Function(_, source) => source
  }

  /** `arr.slice(i).join(',')`, in which null and undefined elements print as empty. */
  function JoinKeys(arr: Value, i: nat): string
    requires arr.Array?
    decreases arr, 0, |arr.elems| - i
  {
    if i >= |arr.elems| then ""
    else
      var e := arr.elems[i];
      assert e in arr.elems;
      (if i > 0 then "," else "") + (if IsNil(e) then "" else PropertyKey(e)) + JoinKeys(arr, i + 1)
  }

  /** The first index in `[from, n)` whose decimal form is `key`. */
  function IndexOfKey(key: string, n: nat, from: nat): (r: Option<nat>)
    ensures r.Some? ==> from <= r.value < n && NatToString(r.value) == key
    decreases n - from
  {
    if from >= n then None
    else if NatToString(from) == key then Some(from)
    else IndexOfKey(key, n, from + 1)
  }

  /** `v[key]` for a value that is not null or undefined. */
  function Member(v: Value, key: string): Value {
    match v
    case Object(_, fields) => if key in fields then fields[key] else Undefined
    case Array(_, elems) =>
      (match IndexOfKey(key, |elems|, 0)
       case Some(i) => elems[i]
       case None => if key == "length" then Num(|elems|) else Undefined)
    case _ => Undefined
  }

  /** `v[key]`, which raises a TypeError when `v` is null or undefined. */
  function Get(v: Value, key: string): Result<Value, Fault> {
    if IsNil(v) then Err(CannotReadProperty(key)) else Ok(Member(v, key))
  }

  lemma {:induction false} IndexOfKeyFinds(key: string, n: nat, from: nat, i: nat)
    requires from <= i < n && NatToString(i) == key
    ensures IndexOfKey(key, n, from) == Some(i)
    decreases n - from
  {
    if NatToString(from) == key {
      NatToStringInjective(from, i);
    } else {
      IndexOfKeyFinds(key, n, from + 1, i);
    }
  }

  /** Reading an array at the decimal key of an index yields the element there. */
  lemma MemberAtIndex(arr: Value, i: nat)
    requires arr.Array? && i < |arr.elems|
    ensures Member(arr, NatToString(i)) == arr.elems[i]
  {
    IndexOfKeyFinds(NatToString(i), |arr.elems|, 0, i);
  }
}
