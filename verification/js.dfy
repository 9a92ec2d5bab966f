/**
 The slice of JavaScript value semantics that the animals module relies on:
 dynamically typed values, truthiness and `||`, property reads with and without
 optional chaining, `String(v)`, `toLowerCase` and `String.prototype.includes`.
 */
module Js {

  /** A JavaScript value. Numbers are integers here; objects are plain records. */
  datatype Value =
    | Undefined
    | Null
    | Bool(b: bool)
    | Num(n: int)
    | Str(s: string)
    | Arr(items: seq<Value>)
    | Obj(fields: map<string, Value>)

  /** A plain object literal, as the detail service and the form hold them. */
  type Record = map<string, Value>

  /** The only exception the modelled code can raise by itself. */
  datatype Exception = TypeError

  /** A computation that either yields a value or throws. */
  datatype Result<T> = Ok(value: T) | Throws(exception: Exception)

  /** `null` or `undefined`: the values on which a plain property read throws. */
  predicate Nullish(v: Value) {
    v.Undefined? || v.Null?
  }

  /** JavaScript truthiness (`!!v`). */
  predicate Truthy(v: Value) {
    match v
    case Undefined => false
    case Null => false
    case Bool(b) => b
    case Num(n) => n != 0
    case Str(s) => s != ""
    case Arr(_) => true
    case Obj(_) => true
  }

  /** `a || b`: the first operand when it is truthy, the second otherwise. */
  function Or(a: Value, b: Value): Value {
    if Truthy(a) then a else b
  }

  /** A property of a record; a missing key reads as `undefined`. */
  function Field(r: Record, key: string): Value {
    if key in r then r[key] else Undefined
  }

  /** `v?.key`: `undefined` on a nullish value or a primitive without that property. */
  function OptGet(v: Value, key: string): Value {
    match v
    case Obj(fields) => Field(fields, key)
    case _ => Undefined
  }

  /** `r?.key` on a record that may be absent (`null`/`undefined`). */
  function OptField(r: Option<Record>, key: string): Value {
    match r
    case Some(rec) => Field(rec, key)
    case None => Undefined
  }

  /** `v.key`: throws a TypeError on a nullish value. */
  function Get(v: Value, key: string): (r: Result<Value>)
    ensures r.Throws? <==> Nullish(v)
    ensures r.Ok? ==> r.value == OptGet(v, key)
  {
    if Nullish(v) then Throws(TypeError) else Ok(OptGet(v, key))
  }

  datatype Option<T> = None | Some(value: T)

  /** `===` on values. Two arrays or objects are never the same reference here. */
  predicate StrictEquals(a: Value, b: Value) {
    match a
    case Arr(_) => false
    case Obj(_) => false
    case _ => a == b
  }

  // ---------------------------------------------------------------------------
  // String conversion

  /** Decimal digits of a natural number, most significant first. */
  function NatToDecimal(n: nat): (r: string)
    ensures |r| >= 1
    ensures forall i :: 0 <= i < |r| ==> '0' <= r[i] <= '9'
    decreases n
  {
    var digit := [(('0' as int) + n % 10) as char];
    if n < 10 then digit else NatToDecimal(n / 10) + digit
  }

  /** The decimal form of an integer, as `Number.prototype.toString()` writes it. */
  function IntToDecimal(n: int): string {
    if n < 0 then "-" + NatToDecimal(-n) else NatToDecimal(n)
  }

  /** `String(v)`, which is also what a template literal and `.toString()` produce. */
  function ToJsString(v: Value): string
    decreases v, 1, 0
  {
    match v
    case Undefined => "undefined"
    case Null => "null"
    case Bool(b) => if b then "true" else "false"
    case Num(n) => IntToDecimal(n)
    case Str(s) => s
    case Arr(items) => JoinItems(v, 0)
    case Obj(_) => "[object Object]"
  }

  /** `Array.prototype.join(",")` from index `i` on; nullish elements print as "". */
  function JoinItems(v: Value, i: nat): string
    requires v.Arr?
    decreases v, 0, |v.items| - i
  {
    if i >= |v.items| then ""
    else
      var item := v.items[i];
      var text := if Nullish(item) then "" else ToJsString(item);
      if i + 1 == |v.items| then text else text + "," + JoinItems(v, i + 1)
  }

  // ---------------------------------------------------------------------------
  // Lower-casing and substring search

  /** Lower case of one character, for Basic Latin and Latin-1 letters. */
  function LowerChar(c: char): char {
    if 'A' <= c <= 'Z' then (c as int + 32) as char
    else if 0xC0 <= c as int <= 0xDE && c as int != 0xD7 then (c as int + 32) as char
    else c
  }

  /** `s.toLowerCase()` on a string. */
  function Lower(s: string): (r: string)
    ensures |r| == |s|
    ensures forall i :: 0 <= i < |s| ==> r[i] == LowerChar(s[i])
  {
    seq(|s|, i requires 0 <= i < |s| => LowerChar(s[i]))
  }

  /** `v.toLowerCase()`: only strings have that method; anything else throws. */
  function ToLowerCase(v: Value): (r: Result<string>)
    ensures r.Ok? <==> v.Str?
    ensures r.Ok? ==> |r.value| == |v.s| && forall i :: 0 <= i < |v.s| ==> r.value[i] == LowerChar(v.s[i])
  {
    match v
    case Str(s) => Ok(Lower(s))
    case _ => Throws(TypeError)
  }

  /** `s.startsWith(prefix)`. */
  predicate StartsWith(s: string, prefix: string) {
    |prefix| <= |s| && forall k :: 0 <= k < |prefix| ==> s[k] == prefix[k]
  }

  /** `s.includes(needle)`, searched from the left one position at a time. */
  predicate Includes(s: string, needle: string)
    decreases |s|
  {
    StartsWith(s, needle) || (|s| > 0 && Includes(s[1..], needle))
  }

  /** `needle` occurs in `s` starting at position `i`. */
  predicate OccursAt(s: string, needle: string, i: int) {
    0 <= i && i + |needle| <= |s| && forall k :: 0 <= k < |needle| ==> s[i + k] == needle[k]
  }

  /** The left-to-right search finds exactly the positions at which the needle occurs. */
  lemma {:induction false} IncludesIff(s: string, needle: string)
    ensures Includes(s, needle) <==> exists i :: OccursAt(s, needle, i)
    decreases |s|
  {
    if StartsWith(s, needle) {
      assert OccursAt(s, needle, 0);
    } else if |s| == 0 {
      forall i ensures !OccursAt(s, needle, i) {
      }
    } else {
      IncludesIff(s[1..], needle);
      if Includes(s[1..], needle) {
        var i :| OccursAt(s[1..], needle, i);
        assert OccursAt(s, needle, i + 1);
      } else {
        forall i ensures !OccursAt(s, needle, i) {
          if 0 < i && i + |needle| <= |s| {
            assert !OccursAt(s[1..], needle, i - 1);
          }
        }
      }
    }
  }

  /** The empty string occurs in every string, as `"".includes("")` and `"x".includes("")` say. */
  lemma IncludesEmpty(s: string)
    ensures Includes(s, "")
  {
    assert StartsWith(s, "");
  }

  /** Any string containing `big` also contains every substring of `big`. */
  lemma IncludesTransitive(s: string, big: string, small: string)
    requires Includes(s, big) && Includes(big, small)
    ensures Includes(s, small)
  {
    IncludesIff(s, big);
    IncludesIff(big, small);
    var i :| OccursAt(s, big, i);
    var j :| OccursAt(big, small, j);
    assert OccursAt(s, small, i + j);
    IncludesIff(s, small);
  }
}
