/**
 * A bounded FIFO window (`SlidingWindow<T>`): once `maxSize` elements are
 * held, adding one more first drops the oldest.  The backing deque is the
 * field `items`, oldest element first.
 */
module SlidingWindows {
  import opened Wrappers

  function Min(a: int, b: int): int {
    if a <= b then a else b
  }

  /** The last `min(|s|, n)` elements of `s`, in order. */
  function Newest<T>(s: seq<T>, n: nat): seq<T> {
    s[|s| - Min(|s|, n)..]
  }

  /** The contents after `add(x)` on a window holding `items` with capacity `maxSize`. */
  function Added<T>(items: seq<T>, x: T, maxSize: int): (r: seq<T>)
    requires 0 < maxSize && |items| <= maxSize
    ensures |r| == Min(|items| + 1, maxSize)
    ensures r[|r| - 1] == x
  {
    if |items| >= maxSize then items[1..] + [x] else items + [x]
  }

  /** `add(x)` keeps the newest `maxSize` elements of the old contents followed by `x`. */
  lemma AddedIsNewest<T>(items: seq<T>, x: T, maxSize: int)
    requires 0 < maxSize && |items| <= maxSize
    ensures Added(items, x, maxSize) == Newest(items + [x], maxSize)
  {
  }

  /** The contents after adding each of `xs` in turn. */
  function AddedAll<T>(items: seq<T>, xs: seq<T>, maxSize: int): (r: seq<T>)
    requires 0 < maxSize && |items| <= maxSize
    ensures |r| <= maxSize
    decreases |xs|
  {
    if xs == [] then items else AddedAll(Added(items, xs[0], maxSize), xs[1..], maxSize)
  }

  lemma NewestOfNewest<T>(a: seq<T>, b: seq<T>, n: nat)
    ensures Newest(Newest(a, n) + b, n) == Newest(a + b, n)
  {
    var k := |a| - Min(|a|, n);
    assert Newest(a, n) + b == (a + b)[k..];
  }

  /**
   * However many elements are added, the window holds exactly the most
   * recent `maxSize` of everything it was given, oldest first.
   */
  lemma {:induction false} AddedAllKeepsNewest<T>(items: seq<T>, xs: seq<T>, maxSize: int)
    requires 0 < maxSize && |items| <= maxSize
    ensures AddedAll(items, xs, maxSize) == Newest(items + xs, maxSize)
    decreases |xs|
  {
    if xs == [] {
      assert items + xs == items;
    } else {
      var x, rest := xs[0], xs[1..];
      var next := Added(items, x, maxSize);
      AddedIsNewest(items, x, maxSize);
      assert xs == [x] + rest;
      calc {
        AddedAll(items, xs, maxSize);
        AddedAll(next, rest, maxSize);
        { AddedAllKeepsNewest(next, rest, maxSize); }
        Newest(next + rest, maxSize);
        { NewestOfNewest(items + [x], rest, maxSize); }
        Newest(items + [x] + rest, maxSize);
        { assert items + [x] + rest == items + xs; }
        Newest(items + xs, maxSize);
      }
    }
  }

  class SlidingWindow<T(==)> {
    var items: seq<T>
    const maxSize: int

    ghost predicate Valid()
      reads this
    {
      0 < maxSize && |items| <= maxSize
    }

    /** Field initialisation; `Create` performs the capacity check of the Java constructor. */
    constructor (maxSize: int)
      ensures this.maxSize == maxSize && items == []
      ensures 0 < maxSize ==> Valid()
    {
      this.maxSize := maxSize;
      items := [];
    }

    /** `new SlidingWindow<>(maxSize)`: rejects a capacity that is not positive. */
    static method Create(maxSize: int) returns (r: Result<SlidingWindow<T>, Error>)
      ensures r.Failure? <==> maxSize <= 0
      ensures r.Failure? ==> r.error == IllegalArgument
      ensures r.Success? ==> fresh(r.value) && r.value.Valid()
      ensures r.Success? ==> r.value.maxSize == maxSize && r.value.items == []
    {
      if maxSize <= 0 {
        return Failure(IllegalArgument);
      }
      var w := new SlidingWindow(maxSize);
      return Success(w);
    }

    /** Appends `x` as the newest element, evicting the oldest when full. */
    method Add(x: T) returns (ok: bool)
      requires Valid()
      modifies this
      ensures Valid()
      ensures items == Added(old(items), x, maxSize)
      ensures ok
    {
      if |items| >= maxSize {
        items := items[1..];
      }
      items := items + [x];
      return true;
    }

    function Size(): (n: nat)
      requires Valid()
      reads this
      ensures n <= maxSize
      ensures n == |items|
    {
      |items|
    }

    function GetMaxSize(): (n: int)
      requires Valid()
      reads this
      ensures n == maxSize
      ensures 0 < n
    {
      maxSize
    }

    /** `get(index)`: 0 is the oldest element, `size() - 1` the newest. */
    function Get(index: int): (r: Result<T, Error>)
      reads this
      ensures r.Failure? <==> index < 0 || |items| <= index
      ensures r.Failure? ==> r.error == IndexOutOfBounds
      ensures r.Success? ==> r.value == items[index]
    {
      if index < 0 || index >= |items| then
        Failure(IndexOutOfBounds)
      else
        var rest := items[index..];  // stream().skip(index).findFirst()
        Success(rest[0])
    }

    method Clear()
      requires Valid()
      modifies this
      ensures Valid() && items == []
    {
      items := [];
    }

    /** `toList()`: a copy of the contents, oldest first. */
    method ToList() returns (list: seq<T>)
      ensures list == items
    {
      list := items;
    }

    function Contains(o: T): (b: bool)
      reads this
      ensures b <==> exists i :: 0 <= i < |items| && items[i] == o
    {
      o in items
    }
  }

  /**
   * A caller's view: after `add(x)` the newest element is `x`, and a list
   * taken by `toList()` before the call is not affected by it.
   */
  method SnapshotThenAdd<T(==)>(w: SlidingWindow<T>, x: T) returns (before: seq<T>, after: seq<T>)
    requires w.Valid()
    modifies w
    ensures w.Valid()
    ensures before == old(w.items)
    ensures after == w.items && 0 < |after| && after[|after| - 1] == x
  {
    before := w.ToList();
    var _ := w.Add(x);
    after := w.ToList();
    var newest := w.Get(w.Size() - 1);
    assert newest == Success(x);
  }
}
