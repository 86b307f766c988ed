/** The two list operations of `java.util.ArrayList` that both stores rely on,
    stated over Dafny sequences: `add(x)` is `s + [x]`, and `remove(int i)`
    (for `0 <= i < size`) is `RemoveAt` below. */
module Positional {

  /** `list.remove(i)` for an index in range: the element at `i` goes, and
      every later element moves down by one position. */
  function RemoveAt<T>(s: seq<T>, i: nat): (r: seq<T>)
    requires i < |s|
    ensures |r| == |s| - 1
    ensures forall k :: 0 <= k < i ==> r[k] == s[k]
    ensures forall k :: i <= k < |r| ==> r[k] == s[k + 1]
    ensures multiset(r) + multiset{s[i]} == multiset(s)
  {
    assert s == s[..i] + [s[i]] + s[i + 1..];
    s[..i] + s[i + 1..]
  }

  /** No object occupies two positions of the list. */
  predicate Distinct<T(==)>(s: seq<T>)
  {
    forall i, j :: 0 <= i < j < |s| ==> s[i] != s[j]
  }
}
