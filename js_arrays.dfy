/**
  The part of JavaScript's array semantics the sub-record removal handlers
  depend on: `Array.prototype.splice(start, deleteCount)` (ECMA-262,
  section 23.1.3.31) and the conversion its `start` argument undergoes when
  that argument is itself an array.
*/
module JsArrays {

  /** A JavaScript number, as far as these conversions need one: an integer or NaN. */
  datatype JsNumber = Int(value: int) | NaN

  /**
    `String(a)` for an array `a` of `n` elements that are all `undefined`:
    `join(",")` renders each `undefined` as the empty string, so only the
    `n - 1` separators are left.
  */
  function UndefinedArrayToString(n: nat): (r: string)
    ensures forall i :: 0 <= i < |r| ==> r[i] == ','
    ensures |r| == if n == 0 then 0 else n - 1
  {
    if n <= 1 then "" else UndefinedArrayToString(n - 1) + ","
  }

  /**
    `Number(s)` for a string made of commas only: the empty string converts
    to 0, and a non-empty run of commas is no numeric literal, so NaN.
  */
  function CommasToNumber(s: string): (r: JsNumber)
    requires forall i :: 0 <= i < |s| ==> s[i] == ','
  {
    if s == "" then Int(0) else NaN
  }

  /** ToIntegerOrInfinity on the numbers above: NaN becomes 0. */
  function ToIntegerOrInfinity(x: JsNumber): int {
    match x
    case Int(v) => v
    case NaN => 0
  }

  /**
    The start index `splice` computes when it is passed an array of `n`
    `undefined` elements: ToIntegerOrInfinity(ToNumber(String(array))).
    Whatever `n` is, that index is 0.
  */
  function UndefinedArrayAsIndex(n: nat): (k: int)
    ensures k == 0
  {
    ToIntegerOrInfinity(CommasToNumber(UndefinedArrayToString(n)))
  }

  /** The index `splice` starts at: a negative start counts from the end, and both are clamped to the array. */
  function RelativeStart(start: int, len: nat): (k: nat)
    ensures k <= len
  {
    if start < 0 then (if len + start < 0 then 0 else len + start)
    else if start > len then len
    else start
  }

  /** The number of elements `splice` removes: `deleteCount` clamped to what lies after the start. */
  function DeleteCount(k: nat, deleteCount: int, len: nat): (d: nat)
    requires k <= len
    ensures d <= len - k
    ensures 0 <= deleteCount <= len - k ==> d == deleteCount
  {
    if deleteCount < 0 then 0
    else if deleteCount > len - k then len - k
    else deleteCount
  }

  /** The array `a.splice(start, deleteCount)` leaves behind. */
  function Splice<T>(a: seq<T>, start: int, deleteCount: int): (r: seq<T>)
    ensures var k := RelativeStart(start, |a|); var d := DeleteCount(k, deleteCount, |a|);
      && |r| == |a| - d
      && (forall i :: 0 <= i < k ==> r[i] == a[i])
      && (forall i :: k <= i < |r| ==> r[i] == a[i + d])
  {
    var k := RelativeStart(start, |a|);
    a[..k] + a[k + DeleteCount(k, deleteCount, |a|)..]
  }

  /**
    With a start inside the array and a count that fits after it, `splice`
    cuts out exactly the `deleteCount` elements from `start` on.
  */
  lemma SpliceInRange<T>(a: seq<T>, start: int, deleteCount: int)
    requires 0 <= start <= |a| && 0 <= deleteCount <= |a| - start
    ensures Splice(a, start, deleteCount) == a[..start] + a[start + deleteCount..]
  {
  }

  /** A negative start counts back from the end of the array, down to its beginning. */
  lemma SpliceFromEnd<T>(a: seq<T>, start: int, deleteCount: int)
    requires start < 0
    ensures var k := if |a| + start < 0 then 0 else |a| + start;
      Splice(a, start, deleteCount) == Splice(a, k, deleteCount)
  {
  }

  /** A start at or past the end removes nothing. */
  lemma SplicePastEnd<T>(a: seq<T>, start: int, deleteCount: int)
    requires start >= |a|
    ensures Splice(a, start, deleteCount) == a
  {
  }

  /** `a.splice(0, 1)` drops the first element, if there is one. */
  lemma SpliceFirst<T>(a: seq<T>)
    ensures Splice(a, 0, 1) == if a == [] then [] else a[1..]
  {
  }
}
