/**
 * The two array operations the engine performs at a computed index:
 * `arr.splice(start, 1)` and `arr.splice(start, 1, item)` (ECMAScript's
 * Array.prototype.splice), and the property read `arr[index]`.
 */
module ArraySplice {
  import opened Wrappers
  import opened JsValues

  /** ToIntegerOrInfinity on a finite number: truncation toward zero. */
  function Truncate(x: real): (t: int)
    ensures x >= 0.0 ==> 0.0 <= t as real <= x < t as real + 1.0
    ensures x < 0.0 ==> t as real - 1.0 < x <= t as real <= 0.0
  {
    if x >= 0.0 then x.Floor else -((-x).Floor)
  }

  /**
   * The position splice starts at for an array of length `len`: NaN counts
   * as 0, a negative start counts from the end (never below 0), and a start
   * past the end is clamped to the length.
   */
  function ActualStart(start: Number, len: nat): (k: nat)
    ensures k <= len
    ensures start.NaN? ==> k == 0
    ensures start.Finite? && 0.0 <= start.x && start.x.Floor as real == start.x ==>
              k == if start.x.Floor < len then start.x.Floor else len
    ensures start.Finite? && start.x < 0.0 && start.x.Floor as real == start.x ==>
              k == if len + start.x.Floor < 0 then 0 else len + start.x.Floor
  {
    match start
    case NaN => 0
    case Infinity(negative) => if negative then 0 else len
    case Finite(x) =>
      var t := Truncate(x);
      if t < 0 then (if len + t < 0 then 0 else len + t)
      else if t < len then t
      else len
  }

  /** `arr.splice(start, 1)`: removes the element at the actual start, if there is one. */
  function SpliceRemove<T>(s: seq<T>, start: Number): (r: seq<T>)
    ensures var k := ActualStart(start, |s|);
      && |r| == (if k < |s| then |s| - 1 else |s|)
      && (forall i :: 0 <= i < |r| ==> r[i] == if i < k then s[i] else s[i + 1])
  {
    var k := ActualStart(start, |s|);
    if k < |s| then s[..k] + s[k + 1..] else s
  }

  /** The splice only takes away: every element left was in the array as often or more. */
  lemma SpliceRemoveSubMultiset<T>(s: seq<T>, start: Number)
    ensures multiset(SpliceRemove(s, start)) <= multiset(s)
  {
    var k := ActualStart(start, |s|);
    if k < |s| {
      assert s == s[..k] + [s[k]] + s[k + 1..];
    }
  }

  /**
   * `arr.splice(start, 1, item)`: replaces the element at the actual start
   * with `item`; when the start is at the end, `item` is appended.
   */
  function SpliceReplace<T>(s: seq<T>, start: Number, item: T): (r: seq<T>)
    ensures var k := ActualStart(start, |s|);
      && |r| == (if k < |s| then |s| else |s| + 1)
      && r[k] == item
      && (forall i :: 0 <= i < |r| && i != k ==> r[i] == s[i])
  {
    var k := ActualStart(start, |s|);
    if k < |s| then s[..k] + [item] + s[k + 1..]
    else s + [item]
  }

  /** An array index: a non-negative integral number below the length. */
  predicate IsIndex(n: Number, len: nat)
  {
    n.Finite? && 0.0 <= n.x && n.x.Floor as real == n.x && n.x.Floor < len
  }

  /** The property read `arr[n]`: `undefined` (None) unless `n` is an index. */
  function ElementAt<T>(s: seq<T>, n: Number): (r: Option<T>)
    ensures r.Some? <==> IsIndex(n, |s|)
    ensures r.Some? ==> r.value == s[n.x.Floor]
  {
    if IsIndex(n, |s|) then Some(s[n.x.Floor]) else None
  }

  /** At an index, splice starts exactly there. */
  lemma ActualStartAtIndex(n: Number, len: nat)
    requires IsIndex(n, len)
    ensures ActualStart(n, len) == n.x.Floor
  {
  }
}
