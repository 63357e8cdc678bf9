/**
 * The JavaScript array operations the page code relies on, on immutable
 * sequences: `findIndex`, and `splice` on an `Array.from` copy.
 */
module JsArray {

  /** `list.findIndex(p)`: the first index whose element satisfies p, or -1. */
  function FindIndex<T>(list: seq<T>, p: T -> bool): (i: int)
    ensures -1 <= i < |list|
    ensures i == -1 <==> forall k :: 0 <= k < |list| ==> !p(list[k])
    ensures 0 <= i ==> p(list[i]) && forall k :: 0 <= k < i ==> !p(list[k])
    decreases |list|
  {
    if |list| == 0 then -1
    else if p(list[0]) then 0
    else
      var j := FindIndex(list[1..], p);
      if j == -1 then -1 else j + 1
  }

  /** The sequence without its element at index i. */
  function RemoveAt<T>(s: seq<T>, i: nat): (r: seq<T>)
    requires i < |s|
    ensures |r| == |s| - 1
  {
    s[..i] + s[i + 1..]
  }

  /** A sequence is its part before i, its element at i and its part after i. */
  lemma SplitAt<T>(s: seq<T>, i: nat)
    requires i < |s|
    ensures s == s[..i] + [s[i]] + s[i + 1..]
  {
    assert s[..i + 1] == s[..i] + [s[i]];
  }

  /** Updating index i replaces the element between the two parts around it. */
  lemma UpdateAt<T>(s: seq<T>, i: nat, x: T)
    requires i < |s|
    ensures s[i := x] == s[..i] + [x] + s[i + 1..]
  {
  }

  /** The sequence with x inserted so that it sits at index i. */
  function InsertAt<T>(s: seq<T>, i: nat, x: T): (r: seq<T>)
    requires i <= |s|
    ensures |r| == |s| + 1
  {
    s[..i] + [x] + s[i..]
  }

  /**
   * Where `splice(start, …)` starts on an array of length len: a negative
   * start counts back from the end, and the result is clamped to 0..len.
   */
  function SpliceStart(len: nat, start: int): (k: nat)
    ensures k <= len
  {
    if start < 0 then (if len + start < 0 then 0 else len + start)
    else if start > len then len
    else start
  }

  /** Where the deleted run of `splice(start, deleteCount, …)` ends. */
  function SpliceEnd(len: nat, start: int, deleteCount: nat): (e: nat)
    ensures SpliceStart(len, start) <= e <= len
  {
    var k := SpliceStart(len, start);
    if k + deleteCount > len then len else k + deleteCount
  }

  /**
   * The array `splice(start, deleteCount, ...items)` leaves behind: the run
   * between SpliceStart and SpliceEnd is replaced by items.
   */
  function Splice<T>(s: seq<T>, start: int, deleteCount: nat, items: seq<T>): (r: seq<T>)
    ensures var k, e := SpliceStart(|s|, start), SpliceEnd(|s|, start, deleteCount);
      && |r| == |s| - (e - k) + |items|
      && multiset(r) + multiset(s[k..e]) == multiset(s) + multiset(items)
  {
    var k, e := SpliceStart(|s|, start), SpliceEnd(|s|, start, deleteCount);
    assert s == s[..k] + s[k..e] + s[e..];
    s[..k] + items + s[e..]
  }

  /** With an index inside the array, removing one element is RemoveAt. */
  lemma SpliceRemoveOne<T>(s: seq<T>, i: nat)
    requires i < |s|
    ensures Splice(s, i, 1, []) == RemoveAt(s, i)
  {
  }

  /** With an index inside the array (or at its end), inserting one element is InsertAt. */
  lemma SpliceInsertOne<T>(s: seq<T>, i: nat, x: T)
    requires i <= |s|
    ensures Splice(s, i, 0, [x]) == InsertAt(s, i, x)
  {
  }

  /** Inserting then removing at the same place gives the sequence back. */
  lemma RemoveInsertAt<T>(s: seq<T>, i: nat, x: T)
    requires i <= |s|
    ensures RemoveAt(InsertAt(s, i, x), i) == s
  {
    var t := InsertAt(s, i, x);
    assert t[..i] == s[..i];
    assert t[i + 1..] == s[i..];
  }

  lemma MultisetRemoveAt<T>(s: seq<T>, i: nat)
    requires i < |s|
    ensures multiset(RemoveAt(s, i)) + multiset{s[i]} == multiset(s)
  {
    assert s == s[..i] + [s[i]] + s[i + 1..];
  }

  lemma MultisetInsertAt<T>(s: seq<T>, i: nat, x: T)
    requires i <= |s|
    ensures multiset(InsertAt(s, i, x)) == multiset(s) + multiset{x}
  {
    assert s == s[..i] + s[i..];
  }
}
