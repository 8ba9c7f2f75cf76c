/** The few pieces of JavaScript semantics the dashboard relies on: truthiness of the values it
    tests with `?:`/`&&`, `Array.prototype.slice` with its negative-index normalisation, and
    `String.prototype.startsWith`. */
module Js {

  /** The conventional optional value; `None` plays the part of JavaScript's `undefined`
      where an array is indexed past its end. */
  datatype Option<+T> = None | Some(value: T)

  /** The JavaScript values the screens test for truthiness. Numbers are kept integral:
      NaN does not arise in the modelled paths. */
  datatype Value = Undefined | Null | Bool(b: bool) | Num(n: int) | Str(s: string)

  /** JavaScript truthiness: `undefined`, `null`, `false`, `0` and `""` are falsy. */
  predicate Truthy(v: Value)
  {
    match v
    case Undefined => false
    case Null => false
    case Bool(b) => b
    case Num(n) => n != 0
    case Str(s) => s != ""
  }

  /** `v ? whenTruthy : whenFalsy`: the second branch is taken for exactly the five falsy values. */
  function Conditional<T>(v: Value, whenTruthy: T, whenFalsy: T): (r: T)
    ensures r == (if v in {Undefined, Null, Bool(false), Num(0), Str("")} then whenFalsy else whenTruthy)
  {
    if Truthy(v) then whenTruthy else whenFalsy
  }

  /** The index `Array.prototype.slice` actually uses for a relative argument `i` on an array of
      length `len`: negative arguments count from the end, and the result is clamped to `[0, len]`. */
  function RelativeIndex(i: int, len: nat): (r: nat)
    ensures r <= len
  {
    if i < 0 then (if len + i < 0 then 0 else len + i)
    else if i <= len then i
    else len
  }

  /** `s.slice(start, end)`. */
  function Slice<T>(s: seq<T>, start: int, end: int): (r: seq<T>)
    ensures |r| <= |s|
    // an end of 0 always gives an empty slice, whatever the start
    ensures end == 0 ==> r == []
    // on non-negative arguments the slice is the plain window, clamped to the array
    ensures 0 <= start <= end ==>
              r == s[(if start <= |s| then start else |s|)..(if end <= |s| then end else |s|)]
    ensures 0 <= end <= start ==> r == []
  {
    var from := RelativeIndex(start, |s|);
    var to := RelativeIndex(end, |s|);
    if from < to then s[from..to] else []
  }

  /** `s.startsWith(p)`, comparing one character at a time. */
  function StartsWith(s: string, p: string): (r: bool)
    ensures r <==> p <= s
  {
    if |p| == 0 then true
    else if |s| == 0 then false
    else s[0] == p[0] && StartsWith(s[1..], p[1..])
  }
}
