/**
 * The PHP values the modelled classes inspect, with the language's own
 * conversions: to boolean (truthiness, `empty`), the strict `=== false`
 * test, and string conversion.
 */
module Php {

  /** A PHP value. Arrays appear as the list of their values, in order. */
  datatype Value = Null | Bool(b: bool) | Int(i: int) | Str(s: string) | Arr(items: seq<Value>)

  /** PHP's conversion to boolean: null, false, 0, "", "0" and [] are falsy. */
  predicate Truthy(v: Value)
  {
    match v
    case Null => false
    case Bool(b) => b
    case Int(i) => i != 0
    case Str(s) => s != "" && s != "0"
    case Arr(items) => items != []
  }

  /** `empty($v)`. */
  predicate IsEmpty(v: Value)
  {
    !Truthy(v)
  }

  /** `$v === false`. */
  predicate IsFalse(v: Value)
  {
    v == Bool(false)
  }

  /** The decimal digits of a natural number, without sign or leading zeros. */
  function Digits(n: nat): (s: string)
    ensures |s| >= 1
    ensures forall k :: 0 <= k < |s| ==> '0' <= s[k] <= '9'
    decreases n
  {
    var d := [(('0' as int) + n % 10) as char];
    if n < 10 then d else Digits(n / 10) + d
  }

  /** Conversion of an integer to its decimal string. */
  function IntToString(i: int): string
  {
    if i < 0 then "-" + Digits(-i) else Digits(i)
  }

  /** String conversion (`"$v"`, `(string) $v`): true is "1", false and null are "". */
  function ToStr(v: Value): string
  {
    match v
    case Null => ""
    case Bool(b) => if b then "1" else ""
    case Int(i) => IntToString(i)
    case Str(s) => s
    case Arr(_) => "Array"
  }

  /** Integer conversion used in arithmetic; only integers and booleans are read (see README). */
  function ToInt(v: Value): int
  {
    match v
    case Int(i) => i
    case Bool(b) => if b then 1 else 0
    case _ => 0
  }
}
