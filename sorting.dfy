/**
 * Sorting by an integer key, as `Stream.sorted()` on `Long`s and
 * `sorted(Comparator.comparingLong(...))` do in the data plane.  The
 * definition is an insertion sort that places an element after every
 * element whose key is not larger, as a stable sort does.
 */
module Sorting {

  /** A non-empty sequence is its prefix followed by its last element. */
  lemma LastSplit<T>(s: seq<T>)
    requires s != []
    ensures s == s[..|s| - 1] + [s[|s| - 1]]
  {
  }

  predicate SortedBy<T>(s: seq<T>, key: T -> int) {
    forall i, j :: 0 <= i < j < |s| ==> key(s[i]) <= key(s[j])
  }

  lemma PrefixSorted<T>(s: seq<T>, to: int, key: T -> int)
    requires SortedBy(s, key) && 0 <= to <= |s|
    ensures SortedBy(s[..to], key)
  {
    forall i, j | 0 <= i < j < to
      ensures key(s[..to][i]) <= key(s[..to][j])
    {
      assert s[..to][i] == s[i] && s[..to][j] == s[j];
    }
  }

  lemma SuffixSorted<T>(s: seq<T>, from: int, key: T -> int)
    requires SortedBy(s, key) && 0 <= from <= |s|
    ensures SortedBy(s[from..], key)
  {
    forall i, j | 0 <= i < j < |s| - from
      ensures key(s[from..][i]) <= key(s[from..][j])
    {
      assert s[from..][i] == s[from + i] && s[from..][j] == s[from + j];
    }
  }

  /** Inserts `x` into `s` after the trailing elements whose key is larger than `key(x)`. */
  function Insert<T>(s: seq<T>, x: T, key: T -> int): (r: seq<T>)
    ensures |r| == |s| + 1
  {
    if s == [] || key(s[|s| - 1]) <= key(x) then
      s + [x]
    else
      Insert(s[..|s| - 1], x, key) + [s[|s| - 1]]
  }

  lemma {:induction false} InsertPermutes<T>(s: seq<T>, x: T, key: T -> int)
    ensures multiset(Insert(s, x, key)) == multiset(s) + multiset{x}
  {
    if s != [] && key(s[|s| - 1]) > key(x) {
      var init := s[..|s| - 1];
      InsertPermutes(init, x, key);
      LastSplit(s);
    }
  }

  /** A bound on the keys of `s` and of `x` bounds the keys after insertion. */
  lemma {:induction false} InsertBounded<T>(s: seq<T>, x: T, key: T -> int, b: int)
    requires forall i :: 0 <= i < |s| ==> key(s[i]) <= b
    requires key(x) <= b
    ensures forall i :: 0 <= i < |s| + 1 ==> key(Insert(s, x, key)[i]) <= b
  {
    if s != [] && key(s[|s| - 1]) > key(x) {
      var init := s[..|s| - 1];
      assert forall i :: 0 <= i < |init| ==> init[i] == s[i];
      InsertBounded(init, x, key, b);
    }
  }

  lemma {:induction false} InsertSorted<T>(s: seq<T>, x: T, key: T -> int)
    requires SortedBy(s, key)
    ensures SortedBy(Insert(s, x, key), key)
  {
    if s == [] {
    } else if key(s[|s| - 1]) <= key(x) {
      assert forall i :: 0 <= i < |s| ==> key(s[i]) <= key(s[|s| - 1]);
    } else {
      var init, last := s[..|s| - 1], s[|s| - 1];
      assert forall i :: 0 <= i < |init| ==> init[i] == s[i];
      PrefixSorted(s, |s| - 1, key);
      InsertSorted(init, x, key);
      assert forall i :: 0 <= i < |init| ==> key(init[i]) <= key(last);
      InsertBounded(init, x, key, key(last));
    }
  }

  /** The elements of `s` ordered by `key`. */
  function SortBy<T>(s: seq<T>, key: T -> int): (r: seq<T>)
    ensures SortedBy(r, key)
    ensures multiset(r) == multiset(s)
    ensures |r| == |s|
  {
    if s == [] then
      []
    else
      var init, last := s[..|s| - 1], s[|s| - 1];
      var sortedInit := SortBy(init, key);
      InsertSorted(sortedInit, last, key);
      InsertPermutes(sortedInit, last, key);
      LastSplit(s);
      Insert(sortedInit, last, key)
  }

  /** Input that is already in key order comes back unchanged. */
  lemma {:induction false} SortBySortedIsIdentity<T>(s: seq<T>, key: T -> int)
    requires SortedBy(s, key)
    ensures SortBy(s, key) == s
  {
    if s != [] {
      var init, last := s[..|s| - 1], s[|s| - 1];
      PrefixSorted(s, |s| - 1, key);
      SortBySortedIsIdentity(init, key);
      assert init == [] || key(init[|init| - 1]) <= key(last) by {
        if init != [] {
          assert init[|init| - 1] == s[|s| - 2];
        }
      }
      calc {
        SortBy(s, key);
        Insert(SortBy(init, key), last, key);
        Insert(init, last, key);
        init + [last];
        { LastSplit(s); }
        s;
      }
    }
  }
}
