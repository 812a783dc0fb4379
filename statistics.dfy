/** The part of Python's `statistics.median` the metrics rely on: sort the
    data, take the middle element of an odd count, or the mean of the two
    middle elements of an even count. Sorting is specified, not copied from
    the library: a sorted permutation of the input. */
module Statistics {

  predicate Sorted(s: seq<real>)
  {
    forall i, j :: 0 <= i < j < |s| ==> s[i] <= s[j]
  }

  /** Inserts `x` into a sorted sequence at its place. */
  function Insert(x: real, s: seq<real>): (r: seq<real>)
    requires Sorted(s)
    ensures |r| == |s| + 1
    ensures r[0] == x || (s != [] && r[0] == s[0])
    ensures Sorted(r)
    ensures multiset(r) == multiset(s) + multiset{x}
    decreases |s|
  {
    if s == [] then [x]
    else if x <= s[0] then [x] + s
    else
      assert s == [s[0]] + s[1..];
      [s[0]] + Insert(x, s[1..])
  }

  /** The sorted order of a sequence: `sorted(data)`. */
  function Sort(s: seq<real>): (r: seq<real>)
    ensures Sorted(r)
    ensures multiset(r) == multiset(s)
    decreases |s|
  {
    if s == [] then []
    else
      assert s == [s[0]] + s[1..];
      Insert(s[0], Sort(s[1..]))
  }

  /** `statistics.median` of a non-empty sequence: it lies between the
      smallest and the largest sample. */
  function Median(s: seq<real>): (m: real)
    requires |s| > 0
    ensures Min(s) <= m <= Max(s)
  {
    var t := Sort(s);
    assert |t| == |multiset(t)| == |multiset(s)| == |s|;
    SortedWithinBounds(s);
    var n := |t|;
    if n % 2 == 1 then t[n / 2] else (t[n / 2 - 1] + t[n / 2]) / 2.0
  }

  /** The smallest element. */
  function Min(s: seq<real>): (m: real)
    requires |s| > 0
    ensures m in s
    ensures forall i :: 0 <= i < |s| ==> m <= s[i]
  {
    if |s| == 1 then s[0]
    else
      var rest := Min(s[1..]);
      assert forall i :: 1 <= i < |s| ==> s[i] == s[1..][i - 1];
      if s[0] <= rest then s[0] else rest
  }

  /** The largest element. */
  function Max(s: seq<real>): (m: real)
    requires |s| > 0
    ensures m in s
    ensures forall i :: 0 <= i < |s| ==> s[i] <= m
  {
    if |s| == 1 then s[0]
    else
      var rest := Max(s[1..]);
      assert forall i :: 1 <= i < |s| ==> s[i] == s[1..][i - 1];
      if s[0] >= rest then s[0] else rest
  }

  /** Every element of the sorted order is an element of the input. */
  lemma SortElementsFromInput(s: seq<real>, k: int)
    requires 0 <= k < |Sort(s)|
    ensures Sort(s)[k] in s
  {
    var t := Sort(s);
    assert t[k] in multiset(t);
    assert t[k] in multiset(s);
  }

  /** Every element of the sorted order lies between the smallest and the
      largest sample. */
  lemma SortedWithinBounds(s: seq<real>)
    requires |s| > 0
    ensures forall k :: 0 <= k < |Sort(s)| ==> Min(s) <= Sort(s)[k] <= Max(s)
  {
    var t := Sort(s);
    var mn, mx := Min(s), Max(s);
    forall k | 0 <= k < |t|
      ensures mn <= t[k] <= mx
    {
      SortElementsFromInput(s, k);
      var j :| 0 <= j < |s| && s[j] == t[k];
    }
  }

  /** When every sample has the same value, the median is that value. */
  lemma MedianOfConstant(s: seq<real>, c: real)
    requires |s| > 0
    requires forall i :: 0 <= i < |s| ==> s[i] == c
    ensures Median(s) == c
  {
    var t := Sort(s);
    assert |t| == |multiset(t)| == |multiset(s)| == |s|;
    var n := |t|;
    forall k | 0 <= k < n
      ensures t[k] == c
    {
      SortElementsFromInput(s, k);
    }
  }
}
