/** The loosely typed values the dashboard receives from the ERP (decoded
    JSON), and the parts of JavaScript's semantics the report code uses on
    them: truthiness, `||`, property and index lookup with and without
    optional chaining, `Number(...)`, `String(...)`, `Math.abs`, and the
    TypeError a lookup on `null`/`undefined` or a call of a missing method
    raises. */
module JsValue {
  import opened Strings

  /** A JavaScript value as it occurs in a decoded report payload. JSON
      numbers are finite, so `Num` carries a real. `Builtin` stands for a
      method inherited from a prototype and reached by a property lookup
      (`[1, 2].values` is `Array.prototype.values`): it is truthy, it is not
      an array, and it has none of the properties this code reads. */
  datatype Value =
    | Undefined
    | Null
    | Bool(b: bool)
    | Num(n: real)
    | Str(s: string)
    | Arr(items: seq<Value>)
    | Obj(fields: map<string, Value>)
    | Builtin(name: string)

  /** The result of `Number(...)`, as this model represents it: a finite
      number, held as an exact real, or NaN. The double-precision rounding
      and the two infinities of JavaScript numbers are not represented. */
  datatype Number = NaN | Fin(r: real)

  /** How a JavaScript expression completes: with a value, or by throwing a
      TypeError. Failure-compatible, so `:-` propagates the throw. */
  datatype Completion<+T> = Normal(value: T) | Throw {
    predicate IsFailure() { Throw? }
    function PropagateFailure<U>(): Completion<U>
      requires Throw?
    {
      Throw
    }
    function Extract(): T
      requires Normal?
    {
      value
    }
  }

  /** The two conversions between numbers and text that the engine performs
      and this model does not spell out: parsing a string as a number
      (`Number("12.5")`, `Number("abc")` is NaN) and writing a finite number
      as text (`String(12.5)`). */
  datatype Coercion = Coercion(parse: string -> Number, format: real -> string)

  predicate Nullish(v: Value) {
    v.Undefined? || v.Null?
  }

  /** JavaScript truthiness. */
  predicate Truthy(v: Value) {
    match v
    case Undefined => false
    case Null => false
    case Bool(b) => b
    case Num(n) => n != 0.0
    case Str(s) => s != ""
    case Arr(_) => true
    case Obj(_) => true
    case Builtin(_) => true
  }

  /** `v || d` */
  function Or(v: Value, d: Value): (r: Value)
    ensures Truthy(v) ==> r == v
    ensures !Truthy(v) ==> r == d
  {
    if Truthy(v) then v else d
  }

  /** Methods of `Array.prototype` whose name starts with `c`. They are
      grouped by initial so that a lookup compares a key only with the few
      names that share its first letter. */
  function ArrayMethodsFrom(c: char): set<string> {
    match c
    case 'a' => {"at"}
    case 'c' => {"concat", "copyWithin", "constructor"}
    case 'e' => {"entries", "every"}
    case 'f' => {"fill", "filter", "find", "findIndex", "findLast", "findLastIndex", "flat", "flatMap", "forEach"}
    case 'i' => {"includes", "indexOf"}
    case 'j' => {"join"}
    case 'k' => {"keys"}
    case 'l' => {"lastIndexOf"}
    case 'm' => {"map"}
    case 'p' => {"pop", "push"}
    case 'r' => {"reduce", "reduceRight", "reverse"}
    case 's' => {"shift", "slice", "some", "sort", "splice"}
    case 't' => {"toLocaleString", "toReversed", "toSorted", "toSpliced", "toString"}
    case 'u' => {"unshift"}
    case 'v' => {"values"}
    case 'w' => {"with"}
    case _ => {}
  }

  /** Methods of `String.prototype` whose name starts with `c`. */
  function StringMethodsFrom(c: char): set<string> {
    match c
    case 'a' => {"at"}
    case 'c' => {"charAt", "charCodeAt", "codePointAt", "concat", "constructor"}
    case 'e' => {"endsWith"}
    case 'i' => {"includes", "indexOf"}
    case 'l' => {"lastIndexOf", "localeCompare"}
    case 'm' => {"match", "matchAll"}
    case 'n' => {"normalize"}
    case 'p' => {"padEnd", "padStart"}
    case 'r' => {"repeat", "replace", "replaceAll"}
    case 's' => {"search", "slice", "split", "startsWith", "substring"}
    case 't' => {"toLocaleLowerCase", "toLocaleUpperCase", "toLowerCase", "toString", "toUpperCase", "trim", "trimEnd", "trimStart"}
    case 'v' => {"valueOf"}
    case _ => {}
  }

  /** `key` names a method of `Array.prototype`. */
  predicate IsArrayMethod(key: string) {
    key != "" && key in ArrayMethodsFrom(key[0])
  }

  /** `key` names a method of `String.prototype`. */
  predicate IsStringMethod(key: string) {
    key != "" && key in StringMethodsFrom(key[0])
  }

  /** `v?.key` for a key that is not an array index: the value the lookup
      yields, `undefined` when `v` is `null` or `undefined`. Object keys are
      assumed not to be members of `Object.prototype` (none of the keys the
      report code reads are). */
  function Member(v: Value, key: string): (r: Value)
    ensures Nullish(v) ==> r == Undefined
  {
    match v
    case Obj(m) => if key in m then m[key] else Undefined
    case Arr(xs) =>
      if key == "length" then Num(|xs| as real)
      else if IsArrayMethod(key) then Builtin(key)
      else Undefined
    case Str(s) =>
      if key == "length" then Num(|s| as real)
      else if IsStringMethod(key) then Builtin(key)
      else Undefined
    case _ => Undefined
  }

  /** `v.key`: throws when `v` is `null` or `undefined`. */
  function Prop(v: Value, key: string): (r: Completion<Value>)
    ensures r.Throw? <==> Nullish(v)
    ensures r.Normal? ==> r.value == Member(v, key)
  {
    if Nullish(v) then Throw else Normal(Member(v, key))
  }

  /** `v?.[i]` for an array index `i`: an array's element, a string's
      character, an object's property named by the decimal digits of `i`;
      `undefined` otherwise. */
  function Elem(v: Value, i: nat): (r: Value)
    ensures Nullish(v) ==> r == Undefined
    ensures v.Arr? ==> r == if i < |v.items| then v.items[i] else Undefined
  {
    match v
    case Arr(xs) => if i < |xs| then xs[i] else Undefined
    case Str(s) => if i < |s| then Str([s[i]]) else Undefined
    case Obj(m) => var k := NatToString(i); if k in m then m[k] else Undefined
    case _ => Undefined
  }

  /** `v[i]`: throws when `v` is `null` or `undefined`. */
  function Index(v: Value, i: nat): (r: Completion<Value>)
    ensures r.Throw? <==> Nullish(v)
    ensures r.Normal? ==> r.value == Elem(v, i)
  {
    if Nullish(v) then Throw else Normal(Elem(v, i))
  }

  /** A value lookup yields something other than `undefined` only on a
      value that is itself truthy: `x?.[0]` defined means `x` is a non-empty
      array or string, or an object. */
  lemma ElemDefinedMeansTruthy(v: Value, i: nat)
    requires Elem(v, i) != Undefined
    ensures Truthy(v)
  {
  }

  /** How `String(v)` renders a value; inside an array `null` and
      `undefined` become empty text, and the elements are joined with ",". */
  function ToStr(v: Value, co: Coercion): string
    decreases v
  {
    match v
    case Undefined => "undefined"
    case Null => "null"
    case Bool(b) => if b then "true" else "false"
    case Num(n) => co.format(n)
    case Str(s) => s
    case Arr(xs) =>
      Join(seq(|xs|, i requires 0 <= i < |xs| => if Nullish(xs[i]) then "" else ToStr(xs[i], co)), ",")
    case Obj(_) => "[object Object]"
    case Builtin(name) => "function " + name + "() { [native code] }"
  }

  /** `Number(v)`. Arrays and objects are converted through their text, as
      the engine does (`Number([7])` is 7). */
  function ToNumber(v: Value, co: Coercion): (r: Number)
    ensures v.Num? ==> r == Fin(v.n)
    ensures v.Undefined? ==> r == NaN
  {
    match v
    case Undefined => NaN
    case Null => Fin(0.0)
    case Bool(b) => Fin(if b then 1.0 else 0.0)
    case Num(n) => Fin(n)
    case Str(s) => co.parse(s)
    case Arr(_) => co.parse(ToStr(v, co))
    case Obj(_) => co.parse(ToStr(v, co))
    case Builtin(_) => NaN
  }

  /** `n || 0` on the result of `Number(...)`: NaN and zero both give 0. */
  function OrZero(n: Number): (r: real)
    ensures n.Fin? ==> r == n.r
    ensures n.NaN? ==> r == 0.0
  {
    match n
    case NaN => 0.0
    case Fin(x) => x
  }

  function AbsReal(x: real): (r: real)
    ensures r >= 0.0 && (r == x || r == -x)
  {
    if x < 0.0 then -x else x
  }

  /** `Math.abs(n)`: NaN stays NaN. */
  function Abs(n: Number): (r: Number)
    ensures r.NaN? <==> n.NaN?
    ensures r.Fin? ==> r.r >= 0.0 && r.r == AbsReal(n.r)
  {
    match n
    case NaN => NaN
    case Fin(x) => Fin(AbsReal(x))
  }

  /** `Number(v) || 0` */
  function NumberOrZero(v: Value, co: Coercion): real {
    OrZero(ToNumber(v, co))
  }

  /** `xs.slice(start, end)` for non-negative bounds (`slice` clamps them to
      the length). */
  function Slice<T>(xs: seq<T>, start: nat, end: nat): (r: seq<T>)
    ensures |r| == if start < end && start < |xs| then (if end < |xs| then end else |xs|) - start else 0
    ensures start < |xs| ==> forall k :: 0 <= k < |r| ==> r[k] == xs[start + k]
  {
    var e := if end < |xs| then end else |xs|;
    if start < e then xs[start..e] else []
  }

  /** `xs.slice(0, n)`: the first `min(n, |xs|)` elements. */
  function Take<T>(xs: seq<T>, n: nat): (r: seq<T>)
    ensures |r| == if n < |xs| then n else |xs|
    ensures r == xs[..|r|]
  {
    if n < |xs| then xs[..n] else xs
  }

  /** `v[v.length - 1]` for a non-nullish `v`: for an array its last
      element, for a string its last character, for an object the property
      whose name is the text of `Number(v.length) - 1`, and `undefined` on
      an empty array or string and everywhere else. */
  function LastOf(v: Value, co: Coercion): (r: Value)
    ensures v.Arr? ==> r == if |v.items| > 0 then v.items[|v.items| - 1] else Undefined
  {
    match v
    case Arr(xs) => if |xs| > 0 then xs[|xs| - 1] else Undefined
    case Str(s) => if |s| > 0 then Str([s[|s| - 1]]) else Undefined
    case Obj(m) =>
      var key := match ToNumber(Member(v, "length"), co)
        case NaN => "NaN"
        case Fin(x) => co.format(x - 1.0);
      if key in m then m[key] else Undefined
    case _ => Undefined
  }
}
