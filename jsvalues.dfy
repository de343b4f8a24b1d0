/**
 * The JavaScript values the loyalty code inspects: parsed JSON bodies, their
 * truthiness, property access with and without optional chaining, and the
 * string conversion used by template literals and `textContent`.
 */
module JsValues {

  /** A parsed JSON value, plus `undefined` for a missing property.
      Numbers are modelled as integers. */
  datatype Json =
    | Undefined
    | Null
    | Bool(b: bool)
    | Num(n: int)
    | Str(s: string)
    | Arr(items: seq<Json>)
    | Obj(fields: map<string, Json>)

  /** JavaScript truthiness: `undefined`, `null`, `false`, `0` and `""` are falsy. */
  predicate Truthy(v: Json)
  {
    match v
    case Undefined => false
    case Null => false
    case Bool(b) => b
    case Num(n) => n != 0
    case Str(s) => s != ""
    case Arr(_) => true
    case Obj(_) => true
  }

  /** `v?.key`: the property of an object, `undefined` for a missing key or
      for any value that is not an object (including `null`). */
  function Get(v: Json, key: string): Json
  {
    if v.Obj? && key in v.fields then v.fields[key] else Undefined
  }

  /** Plain `v.key` throws a TypeError exactly when `v` is `null` or `undefined`;
      otherwise it agrees with `v?.key`. */
  predicate AccessThrows(v: Json)
  {
    v.Null? || v.Undefined?
  }

  /** The value of a decimal digit. */
  function DigitValue(c: char): int
  {
    c as int - '0' as int
  }

  /** The number a string of decimal digits denotes, read independently of
      how DecimalText writes it. */
  function DecimalValue(s: string): int
  {
    if s == [] then 0 else 10 * DecimalValue(s[..|s| - 1]) + DigitValue(s[|s| - 1])
  }

  /** Decimal rendering of an integer, as `String(n)` gives it for integers:
      digits with no leading zero, preceded by '-' when negative. */
  function DecimalText(n: int): (r: string)
    ensures r != []
    ensures n >= 0 ==> (forall i :: 0 <= i < |r| ==> '0' <= r[i] <= '9') && DecimalValue(r) == n
    ensures n == 0 ==> r == "0"
    ensures n > 0 ==> r[0] != '0'
    ensures n < 0 ==> r[0] == '-' && DecimalValue(r[1..]) == -n
    ensures n < 0 ==> forall i :: 1 <= i < |r| ==> '0' <= r[i] <= '9'
    ensures n < 0 ==> |r| >= 2 && r[1] != '0'
    decreases if n < 0 then 1 - n else n
  {
    if n < 0 then
      var t := DecimalText(-n);
      assert ("-" + t)[1..] == t;
      "-" + t
    else if n < 10 then
      var r := [DigitChar(n)];
      assert r[..0] == [];
      r
    else
      var t := DecimalText(n / 10);
      var r := t + [DigitChar(n % 10)];
      assert r[..|r| - 1] == t;
      r
  }

  function DigitChar(d: int): (c: char)
    requires 0 <= d < 10
    ensures '0' <= c <= '9' && DigitValue(c) == d
  {
    ('0' as int + d) as char
  }

  /** `String(v)`, i.e. what `${v}` inserts into a template literal. An object
      becomes "[object Object]"; an array joins its elements with commas,
      writing nothing for `null` and `undefined`. */
  function ToText(v: Json): (r: string)
    ensures v.Str? ==> r == v.s
    ensures v.Num? ==> r == DecimalText(v.n)
    ensures Truthy(v) && !v.Arr? ==> r != ""
  {
    match v
    case Undefined => "undefined"
    case Null => "null"
    case Bool(b) => if b then "true" else "false"
    case Num(n) => DecimalText(n)
    case Str(s) => s
    case Arr(items) => JoinText(items)
    case Obj(_) => "[object Object]"
  }

  /** `items.join(",")`. */
  function JoinText(items: seq<Json>): string
  {
    if items == [] then ""
    else
      (if items[0].Null? || items[0].Undefined? then "" else ToText(items[0]))
      + (if |items| == 1 then "" else "," + JoinText(items[1..]))
  }

  /** The string an element holds after `element.textContent = v`:
      `null` and `undefined` clear it, anything else is converted by `String`. */
  function TextOf(v: Json): (r: string)
    ensures AccessThrows(v) ==> r == ""
    ensures v.Str? ==> r == v.s
    ensures !AccessThrows(v) ==> r == ToText(v)
    ensures Truthy(v) && !v.Arr? ==> r != ""
  {
    if v.Null? || v.Undefined? then "" else ToText(v)
  }
}
