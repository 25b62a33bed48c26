/**
 * The few PHP built-ins the activity-log core relies on, restated over
 * Dafny values: an option type for values that may be missing, `empty()`
 * on a string, `strtolower`, and ordered associative arrays of strings.
 */
module Php {

  datatype Option<+T> = None | Some(value: T)

  /** PHP's `empty()` on a request parameter that may be absent: absent, "" and "0" are empty. */
  predicate IsEmptyString(v: Option<string>) {
    v.None? || v.value == "" || v.value == "0"
  }

  predicate IsUpper(c: char) {
    'A' <= c <= 'Z'
  }

  /** One character of `strtolower`: only the ASCII letters A-Z change. */
  function LowerChar(c: char): (l: char)
    ensures !IsUpper(l)
    ensures IsUpper(c) ==> l as int == c as int + 32
    ensures !IsUpper(c) ==> l == c
  {
    if IsUpper(c) then (c as int + 32) as char else c
  }

  /** `strtolower` (PHP 8.2 and later: ASCII only, independent of the locale). */
  function ToLower(s: string): (r: string)
    ensures |r| == |s|
    ensures forall i :: 0 <= i < |s| ==> r[i] == LowerChar(s[i])
  {
    if s == [] then [] else [LowerChar(s[0])] + ToLower(s[1..])
  }

  /** An ordered PHP array from string keys to string values. */
  type Assoc = seq<(string, string)>

  /** `array_keys`, in order. */
  function Keys(a: Assoc): (ks: seq<string>)
    ensures |ks| == |a|
    ensures forall i :: 0 <= i < |a| ==> ks[i] == a[i].0
  {
    if a == [] then [] else [a[0].0] + Keys(a[1..])
  }
}
