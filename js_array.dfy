/**
 * The two JavaScript array operations the core relies on, with the semantics
 * of the ECMAScript built-ins: `Array.prototype.findIndex` over a key equality,
 * and `Array.prototype.splice(start, deleteCount)`, where a negative start
 * counts back from the end of the array and both arguments are clamped.
 */
module JsArray {

  /** `findIndex` with `===` on keys: the first position holding `x`, or -1. */
  function IndexOf<X(==)>(s: seq<X>, x: X): (k: int)
    ensures -1 <= k < |s|
    ensures k == -1 <==> x !in s
    ensures 0 <= k ==> s[k] == x && x !in s[..k]
  {
    if s == [] then -1
    else if s[0] == x then 0
    else
      var k := IndexOf(s[1..], x);
      assert s[1..][..if k < 0 then 0 else k] == s[1..if k < 0 then 1 else k + 1];
      if k < 0 then -1 else k + 1
  }

  /** The position `splice` really starts at: `start` is counted from the end when negative, then clamped to [0, len]. */
  function SpliceStart(len: nat, start: int): (k: nat)
    ensures k <= len
    ensures 0 <= start <= len ==> k == start
    ensures start < 0 && -start <= len ==> k == len + start
  {
    if start < 0 then (if len + start < 0 then 0 else len + start)
    else if start > len then len
    else start
  }

  /** The number of elements `splice` really removes: `deleteCount` clamped to what lies after the start. */
  function SpliceCount(len: nat, start: int, deleteCount: int): (c: nat)
    ensures SpliceStart(len, start) + c <= len
    ensures 0 <= deleteCount <= len - SpliceStart(len, start) ==> c == deleteCount
  {
    var k := SpliceStart(len, start);
    if deleteCount < 0 then 0
    else if deleteCount > len - k then len - k
    else deleteCount
  }

  /**
   * `s.splice(start, deleteCount)`: the pair (returned elements, array left behind).
   * The returned elements are one contiguous run of `s`, and putting them back at
   * the start position gives `s` again.
   */
  function Splice<X>(s: seq<X>, start: int, deleteCount: int): (r: (seq<X>, seq<X>))
    ensures var k := SpliceStart(|s|, start);
      && |r.0| == SpliceCount(|s|, start, deleteCount)
      && k <= |r.1|
      && s == r.1[..k] + r.0 + r.1[k..]
  {
    var k := SpliceStart(|s|, start);
    var c := SpliceCount(|s|, start, deleteCount);
    var kept := s[..k] + s[k + c..];
    assert kept[..k] == s[..k] && kept[k..] == s[k + c..];
    (s[k..k + c], kept)
  }

  /** A splice within the array's bounds takes out exactly `s[k..k + c]` and keeps the rest in order. */
  lemma SpliceWithin<X>(s: seq<X>, k: nat, c: nat)
    requires k + c <= |s|
    ensures Splice(s, k, c) == (s[k..k + c], s[..k] + s[k + c..])
  {
  }

  /** Removing one element at an index the array has (`splice(k, 1)`) keeps everything else, in order. */
  lemma SpliceOne<X>(s: seq<X>, k: nat)
    requires k < |s|
    ensures Splice(s, k, 1) == ([s[k]], s[..k] + s[k + 1..])
  {
    assert s[k..k + 1] == [s[k]];
  }
}
