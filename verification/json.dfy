/**
  JSON-shaped values as Python's json module hands them to the program, and
  the handful of Python operations the clients apply to them (`k in v`,
  `v[k]`, `len(v)`, `v[0]`, `v.get(k, d)`).  Each operation either yields a
  value or raises; `Outcome` carries the raised exception's `str(e)`, so that
  code written with `:-` propagates an exception exactly where Python would.
*/
module Json {

  datatype Option<+T> = None | Some(value: T)

  /** A decoded JSON value.  Numbers are integers only (floats are not modelled). */
  datatype Value =
    | Null
    | Bool(b: bool)
    | Num(n: int)
    | Str(s: string)
    | Arr(items: seq<Value>)
    | Obj(fields: map<string, Value>)

  /** Either a result, or a Python exception escaping with message `str(e)`. */
  datatype Outcome<+T> = Ok(value: T) | Raised(message: string) {
    predicate IsFailure() {
      Raised?
    }

    function PropagateFailure<U>(): Outcome<U>
      requires Raised?
    {
      Raised(message)
    }

    function Extract(): T
      requires Ok?
    {
      value
    }
  }

  /** What a JSON decoder makes of one text: a value, or a decode error's message. */
  datatype Decoded = Parsed(value: Value) | NotJson(message: string)

  /** The `{"error": message}` dictionary every component uses to report a failure as data. */
  function ErrorObj(message: string): Value {
    Obj(map["error" := Str(message)])
  }

  /** Python's truth value of a decoded value (`if v:`, `v or default`). */
  predicate Truthy(v: Value) {
    match v
    case Null => false
    case Bool(b) => b
    case Num(n) => n != 0
    case Str(s) => s != ""
    case Arr(items) => items != []
    case Obj(m) => m != map[]
  }

  /** Python's `type(v).__name__`. */
  function TypeName(v: Value): string {
    match v
    case Null => "NoneType"
    case Bool(_) => "bool"
    case Num(_) => "int"
    case Str(_) => "str"
    case Arr(_) => "list"
    case Obj(_) => "dict"
  }

  /** Python's `k in s` on two strings: `k` occurs in `s` at some position. */
  predicate IsSubstring(k: string, s: string)
    decreases |s|
  {
    k <= s || (s != [] && IsSubstring(k, s[1..]))
  }

  /** Python's `key in container` for a string key. */
  function Contains(container: Value, key: string): (r: Outcome<bool>)
    ensures container.Obj? ==> r == Ok(key in container.fields)
    ensures r.Raised? <==> container.Null? || container.Bool? || container.Num?
  {
    match container
    case Obj(m) => Ok(key in m)
    case Arr(items) => Ok(Str(key) in items)
    case Str(s) => Ok(IsSubstring(key, s))
    case _ => Raised("argument of type '" + TypeName(container) + "' is not iterable")
  }

  /** Python's `v[key]` for a string key: only a dictionary holding the key answers. */
  function GetItem(v: Value, key: string): (r: Outcome<Value>)
    ensures r.Ok? <==> v.Obj? && key in v.fields
    ensures r.Ok? ==> r.value == v.fields[key]
  {
    match v
    case Obj(m) => if key in m then Ok(m[key]) else Raised("'" + key + "'")
    case Arr(_) => Raised("list indices must be integers or slices, not str")
    case Str(_) => Raised("string indices must be integers, not 'str'")
    case _ => Raised("'" + TypeName(v) + "' object is not subscriptable")
  }

  /** Python's `len(v)`. */
  function Len(v: Value): (r: Outcome<nat>)
    ensures r.Ok? <==> v.Arr? || v.Str? || v.Obj?
    ensures v.Arr? ==> r == Ok(|v.items|)
  {
    match v
    case Arr(items) => Ok(|items|)
    case Str(s) => Ok(|s|)
    case Obj(m) => Ok(|m.Keys|)
    case _ => Raised("object of type '" + TypeName(v) + "' has no len()")
  }

  /** Python's `v[0]`. */
  function FirstItem(v: Value): (r: Outcome<Value>)
    ensures v.Arr? && v.items != [] ==> r == Ok(v.items[0])
    ensures v.Obj? ==> r.Raised?
  {
    match v
    case Arr(items) => if items != [] then Ok(items[0]) else Raised("list index out of range")
    case Str(s) => if s != "" then Ok(Str([s[0]])) else Raised("string index out of range")
    case Obj(_) => Raised("0")  // JSON keys are strings, so the key 0 is never present
    case _ => Raised("'" + TypeName(v) + "' object is not subscriptable")
  }

  /** Python's `v.get(key, default)`, defined on dictionaries only. */
  function DictGet(v: Value, key: string, default: Value): (r: Outcome<Value>)
    ensures r.Ok? <==> v.Obj?
    ensures v.Obj? ==> r.value == if key in v.fields then v.fields[key] else default
  {
    match v
    case Obj(m) => Ok(if key in m then m[key] else default)
    case _ => Raised("'" + TypeName(v) + "' object has no attribute 'get'")
  }

  function DigitChar(d: nat): char
    requires d < 10
  {
    ('0' as int + d) as char
  }

  /** The number a string of decimal digits denotes, read most significant digit first. */
  function DigitsValue(s: string): int
    decreases |s|
  {
    if s == [] then 0 else 10 * DigitsValue(s[..|s| - 1]) + (s[|s| - 1] as int - '0' as int)
  }

  /** Decimal rendering of a natural number, as Python's `str(n)`: digits only,
      with no leading zero; `NatToStringValue` states the number it denotes. */
  function NatToString(n: nat): (s: string)
    ensures |s| >= 1
    ensures forall i :: 0 <= i < |s| ==> '0' <= s[i] <= '9'
    ensures n > 0 ==> s[0] != '0'
    ensures n < 10 ==> s == [DigitChar(n)]
    decreases n
  {
    if n < 10 then [DigitChar(n)] else NatToString(n / 10) + [DigitChar(n % 10)]
  }

  /** The rendering denotes the number rendered. */
  lemma {:induction false} NatToStringValue(n: nat)
    ensures DigitsValue(NatToString(n)) == n
    decreases n
  {
    if n >= 10 {
      NatToStringValue(n / 10);
      var s := NatToString(n);
      assert s[..|s| - 1] == NatToString(n / 10);
    }
  }
}
