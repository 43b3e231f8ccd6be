/** The two pieces of Go's standard library the core relies on for ordering:
    binary search over a monotone predicate (sort.Search, sort.SearchFloat64s)
    and sorting a slice of floats (slices.Sort). Only their contracts matter to
    the callers; the bodies below are one way to meet them. */
module SortLib {

  ghost predicate Sorted(s: seq<real>) {
    forall i, j :: 0 <= i < j < |s| ==> s[i] <= s[j]
  }

  ghost predicate StrictlyIncreasing(s: seq<real>) {
    forall i, j :: 0 <= i < j < |s| ==> s[i] < s[j]
  }

  /** The binary search of sort.Search on the predicate keys[k] >= v,
      restricted to the window [lo, hi) whose outside is already classified. */
  function SearchWindow(keys: seq<real>, v: real, lo: nat, hi: nat): (i: nat)
    requires lo <= hi <= |keys|
    requires forall k :: 0 <= k < lo ==> keys[k] < v
    requires forall k :: hi <= k < |keys| ==> keys[k] >= v
    requires Sorted(keys)
    ensures lo <= i <= hi
    ensures forall k :: 0 <= k < i ==> keys[k] < v
    ensures forall k :: i <= k < |keys| ==> keys[k] >= v
    decreases hi - lo
  {
    if lo == hi then lo
    else
      var h := (lo + hi) / 2;
      if keys[h] < v then SearchWindow(keys, v, h + 1, hi) else SearchWindow(keys, v, lo, h)
  }

  /** The smallest index whose key is at least v, or |keys| when there is none
      (sort.SearchFloat64s, and sort.Search over a sorted key column). */
  function LowerBound(keys: seq<real>, v: real): (i: nat)
    requires Sorted(keys)
    ensures i <= |keys|
    ensures forall k :: 0 <= k < i ==> keys[k] < v
    ensures forall k :: i <= k < |keys| ==> keys[k] >= v
  {
    SearchWindow(keys, v, 0, |keys|)
  }

  /** Inserting one value into a sorted sequence keeps it sorted. */
  function Insert(x: real, s: seq<real>): (r: seq<real>)
    requires Sorted(s)
    ensures |r| == |s| + 1
    ensures Sorted(r)
    ensures forall y :: y in r ==> y == x || y in s
    ensures multiset(r) == multiset(s) + multiset{x}
  {
    if s == [] || x <= s[0] then [x] + s
    else
      var rest := Insert(x, s[1..]);
      PrependSorted(s[0], rest);
      assert s == [s[0]] + s[1..];
      [s[0]] + rest
  }

  lemma PrependSorted(h: real, s: seq<real>)
    requires Sorted(s)
    requires forall y :: y in s ==> h <= y
    ensures Sorted([h] + s)
  {
    var t := [h] + s;
    forall i, j | 0 <= i < j < |t| ensures t[i] <= t[j] {
      if i > 0 { assert t[i] == s[i - 1] && t[j] == s[j - 1]; }
      else { assert t[j] == s[j - 1]; assert t[j] in s; }
    }
  }

  /** slices.Sort: an ascending permutation of its input. */
  function SortAscending(s: seq<real>): (r: seq<real>)
    ensures Sorted(r)
    ensures |r| == |s|
    ensures multiset(r) == multiset(s)
  {
    if s == [] then []
    else
      assert s == [s[0]] + s[1..];
      Insert(s[0], SortAscending(s[1..]))
  }
}
