/** Reordering sequences: a stable sort by an integer key, standing for
    `Array.prototype.sort` with a numeric comparator and for the
    `ORDER BY ... DESC` of the stores, and reversal. */
module Sorting {

  /** Keys never increase from left to right. */
  ghost predicate SortedDescBy<T>(s: seq<T>, key: T -> int) {
    forall i, j :: 0 <= i < j < |s| ==> key(s[i]) >= key(s[j])
  }

  /** An element whose key is at least the head's can go in front of a
      sorted sequence. */
  lemma ConsSorted<T>(h: T, s: seq<T>, key: T -> int)
    requires SortedDescBy(s, key)
    requires s == [] || key(s[0]) <= key(h)
    ensures SortedDescBy([h] + s, key)
  {
    var r := [h] + s;
    forall i, j | 0 <= i < j < |r| ensures key(r[i]) >= key(r[j]) {
      assert r[j] == s[j - 1];
      if i > 0 {
        assert r[i] == s[i - 1];
      } else if j > 1 {
        assert key(s[0]) >= key(s[j - 1]);
      }
    }
  }

  /** Puts `x` in front of the first element whose key is not larger, so
      that `x` stays ahead of the equal keys that followed it. */
  function InsertDesc<T(==)>(x: T, s: seq<T>, key: T -> int): (r: seq<T>)
    requires SortedDescBy(s, key)
    ensures |r| == |s| + 1
    ensures multiset(r) == multiset(s) + multiset{x}
    ensures SortedDescBy(r, key)
    ensures r[0] == x || (s != [] && r[0] == s[0])
  {
    if s == [] || key(s[0]) <= key(x) then
      ConsSorted(x, s, key);
      [x] + s
    else
      var rest := InsertDesc(x, s[1..], key);
      assert s == [s[0]] + s[1..];
      assert SortedDescBy(s[1..], key);
      ConsSorted(s[0], rest, key);
      assert multiset([s[0]] + rest) == multiset{s[0]} + multiset(rest);
      [s[0]] + rest
  }

  /** Insertion sort, largest key first; the result is a permutation. */
  function SortDesc<T(==)>(s: seq<T>, key: T -> int): (r: seq<T>)
    ensures |r| == |s|
    ensures multiset(r) == multiset(s)
    ensures SortedDescBy(r, key)
  {
    if s == [] then []
    else
      assert s == [s[0]] + s[1..];
      InsertDesc(s[0], SortDesc(s[1..], key), key)
  }

  /** `slice().reverse()`. */
  function Reverse<T>(s: seq<T>): (r: seq<T>)
    ensures |r| == |s| && forall i :: 0 <= i < |s| ==> r[i] == s[|s| - 1 - i]
  {
    if s == [] then [] else Reverse(s[1..]) + [s[0]]
  }

  lemma ReverseReverse<T>(s: seq<T>)
    ensures Reverse(Reverse(s)) == s
  {
  }

  /** Appending at the end puts the element at the front of the reversal. */
  lemma ReverseSnoc<T>(s: seq<T>, x: T)
    ensures Reverse(s + [x]) == [x] + Reverse(s)
  {
  }

  /** A prefix holds no element more often than the whole sequence. */
  lemma PrefixMultiset<T>(s: seq<T>, n: nat)
    requires n <= |s|
    ensures multiset(s[..n]) <= multiset(s)
  {
    assert s == s[..n] + s[n..];
  }
}
