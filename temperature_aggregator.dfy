/**
 * `TemperatureAggregator`: a constant-space summary (sum, min, max, count)
 * of a stream of temperatures.  Values are modelled as exact reals; IEEE
 * rounding and NaN are not modelled.
 *
 * The empty state keeps the two Java sentinels: `min` starts at
 * `Double.MAX_VALUE` and `max` at `Double.MIN_VALUE`.  The latter is the
 * smallest POSITIVE double, so an aggregator created empty that then
 * receives only negative values still holds that sentinel in `max`: `max`
 * is an upper bound of the values added, not necessarily the greatest.
 */
module TemperatureAggregators {

  /** `Double.MAX_VALUE`, the largest finite double: (2^53 - 1) * 2^971. */
  const DOUBLE_MAX_VALUE: real := 179769313486231570814527423731704356798070567525844996598917476803157260780028538760589558632766878171540458953514382464234321326889464182768467546703537516986049910576551282076245490090389328944075868508455133942304583236903222948165808559332123348274797826204144723168738177180919299881250404026184124858368.0

  /** `Double.MIN_VALUE`, the smallest positive double: 2^-1074. */
  const DOUBLE_MIN_VALUE: real := 1.0 / 202402253307310618352495346718917307049556649764142118356901358027430339567995346891960383701437124495187077864316811911389808737385793476867013399940738509921517424276566361364466907742093216341239767678472745068562007483424692698618103355649159556340810056512358769552333414615230502532186327508646006263307707741093494784.0

  function MinOf(a: real, b: real): real {
    if a <= b then a else b
  }

  function MaxOf(a: real, b: real): real {
    if a >= b then a else b
  }

  /** The four fields of an aggregator. */
  datatype Stats = Stats(sum: real, min: real, max: real, count: nat)

  /** `new TemperatureAggregator()` and `reset()`. */
  function Empty(): Stats {
    Stats(0.0, DOUBLE_MAX_VALUE, DOUBLE_MIN_VALUE, 0)
  }

  /** `new TemperatureAggregator(v)`. */
  function Singleton(v: real): Stats {
    Stats(v, v, v, 1)
  }

  /** `add(v)`. */
  function Added(s: Stats, v: real): (r: Stats)
    ensures r.count == s.count + 1
    ensures r.sum == s.sum + v
    ensures r.min <= s.min && r.min <= v && (r.min == s.min || r.min == v)
    ensures r.max >= s.max && r.max >= v && (r.max == s.max || r.max == v)
  {
    Stats(s.sum + v, MinOf(s.min, v), MaxOf(s.max, v), s.count + 1)
  }

  /** `merge(other)`: an empty `other` changes nothing. */
  function Merged(s: Stats, o: Stats): Stats {
    if o.count == 0 then s
    else Stats(s.sum + o.sum, MinOf(s.min, o.min), MaxOf(s.max, o.max), s.count + o.count)
  }

  /** `getAverage()`. */
  function Average(s: Stats): (a: real)
    ensures s.count == 0 ==> a == 0.0
    ensures 0 < s.count ==> a * (s.count as real) == s.sum
  {
    if s.count == 0 then 0.0 else s.sum / (s.count as real)
  }

  /** `getMin()`. */
  function ReportedMin(s: Stats): real {
    if s.count == 0 then 0.0 else s.min
  }

  /** `getMax()`. */
  function ReportedMax(s: Stats): real {
    if s.count == 0 then 0.0 else s.max
  }

  function Sum(vs: seq<real>): real {
    if vs == [] then 0.0 else Sum(vs[..|vs| - 1]) + vs[|vs| - 1]
  }

  /** The state after `add(v)` for each `v` of `vs` in turn, starting from `s`. */
  function AddedAll(s: Stats, vs: seq<real>): Stats {
    if vs == [] then s else Added(AddedAll(s, vs[..|vs| - 1]), vs[|vs| - 1])
  }

  lemma AddedAllSnoc(s: Stats, vs: seq<real>, v: real)
    ensures AddedAll(s, vs + [v]) == Added(AddedAll(s, vs), v)
  {
    assert (vs + [v])[..|vs|] == vs;
  }

  /** The state of an empty aggregator after `add(v)` for each `v` of `vs` in turn. */
  function Fold(vs: seq<real>): Stats {
    AddedAll(Empty(), vs)
  }

  /**
   * After any sequence of adds: the count is the number of values, the sum
   * their sum, `min` a lower and `max` an upper bound of every value, and
   * each of `min` and `max` is either one of the values or its sentinel.
   */
  lemma {:induction false} FoldSummarises(vs: seq<real>)
    ensures Fold(vs).count == |vs| && Fold(vs).sum == Sum(vs)
    ensures forall i :: 0 <= i < |vs| ==> Fold(vs).min <= vs[i] <= Fold(vs).max
    ensures Fold(vs).min <= DOUBLE_MAX_VALUE && Fold(vs).max >= DOUBLE_MIN_VALUE
    ensures Fold(vs).min == DOUBLE_MAX_VALUE || exists i :: 0 <= i < |vs| && Fold(vs).min == vs[i]
    ensures Fold(vs).max == DOUBLE_MIN_VALUE || exists i :: 0 <= i < |vs| && Fold(vs).max == vs[i]
  {
    if vs != [] {
      var init := vs[..|vs| - 1];
      FoldSummarises(init);
      assert forall i :: 0 <= i < |init| ==> init[i] == vs[i];
    }
  }

  /**
   * After any sequence of adds from any state: the count and sum grow by the
   * values', `min` never rises and `max` never falls, and both bound every value.
   */
  lemma {:induction false} AddedAllBounds(s: Stats, vs: seq<real>)
    ensures AddedAll(s, vs).count == s.count + |vs| && AddedAll(s, vs).sum == s.sum + Sum(vs)
    ensures AddedAll(s, vs).min <= s.min && AddedAll(s, vs).max >= s.max
    ensures forall i :: 0 <= i < |vs| ==> AddedAll(s, vs).min <= vs[i] <= AddedAll(s, vs).max
  {
    if vs != [] {
      var init := vs[..|vs| - 1];
      AddedAllBounds(s, init);
      assert forall i :: 0 <= i < |init| ==> init[i] == vs[i];
    }
  }

  /**
   * An aggregator started by `new TemperatureAggregator(v)`: after further adds,
   * `getMin()` and `getMax()` bound `v` and every value added.
   */
  lemma InitialValueBounds(v: real, vs: seq<real>)
    ensures var s := AddedAll(Singleton(v), vs);
      && s.count == |vs| + 1 && s.sum == v + Sum(vs)
      && ReportedMin(s) <= v <= ReportedMax(s)
      && forall i :: 0 <= i < |vs| ==> ReportedMin(s) <= vs[i] <= ReportedMax(s)
  {
    AddedAllBounds(Singleton(v), vs);
  }

  /** The accessors report a lower and an upper bound of every value added. */
  lemma ReportedBounds(vs: seq<real>)
    requires 0 < |vs|
    ensures forall i :: 0 <= i < |vs| ==> ReportedMin(Fold(vs)) <= vs[i] <= ReportedMax(Fold(vs))
  {
    FoldSummarises(vs);
  }

  lemma {:induction false} SumBounds(vs: seq<real>, lo: real, hi: real)
    requires forall i :: 0 <= i < |vs| ==> lo <= vs[i] <= hi
    ensures (|vs| as real) * lo <= Sum(vs) <= (|vs| as real) * hi
  {
    if vs != [] {
      SumBounds(vs[..|vs| - 1], lo, hi);
    }
  }

  lemma QuotientBounds(x: real, n: real, lo: real, hi: real)
    requires 0.0 < n && n * lo <= x <= n * hi
    ensures lo <= x / n <= hi
  {
    var q := x / n;
    assert q * n == x;
    assert (q - lo) * n >= 0.0;
    assert (hi - q) * n >= 0.0;
  }

  lemma MeanBounds(vs: seq<real>, lo: real, hi: real)
    requires 0 < |vs|
    requires forall i :: 0 <= i < |vs| ==> lo <= vs[i] <= hi
    ensures lo <= Sum(vs) / (|vs| as real) <= hi
  {
    SumBounds(vs, lo, hi);
    QuotientBounds(Sum(vs), |vs| as real, lo, hi);
  }

  /** When something was added, `getMin() <= getAverage() <= getMax()`. */
  lemma AverageBetween(vs: seq<real>)
    requires 0 < |vs|
    ensures ReportedMin(Fold(vs)) <= Average(Fold(vs)) <= ReportedMax(Fold(vs))
  {
    var s := Fold(vs);
    FoldSummarises(vs);
    MeanBounds(vs, s.min, s.max);
  }

  /** With no values, every accessor reports 0. */
  lemma EmptyReportsZero()
    ensures Average(Fold([])) == ReportedMin(Fold([])) == ReportedMax(Fold([])) == 0.0
    ensures Fold([]).sum == 0.0 && Fold([]).count == 0
  {
  }

  /**
   * The `Double.MIN_VALUE` sentinel: an empty aggregator given the single
   * value -5 reports a maximum of 2^-1074, while `new TemperatureAggregator(-5)`
   * reports -5.
   */
  lemma SentinelMasksNegativeMaximum()
    ensures ReportedMax(Fold([-5.0])) == DOUBLE_MIN_VALUE
    ensures ReportedMax(Singleton(-5.0)) == -5.0
    ensures Fold([-5.0]) != Singleton(-5.0)
  {
    assert [-5.0][..0] == [];
  }

  /** Merging summaries is summarising the concatenation. */
  lemma {:induction false} MergedFold(xs: seq<real>, ys: seq<real>)
    ensures Merged(Fold(xs), Fold(ys)) == Fold(xs + ys)
    decreases |ys|
  {
    if ys == [] {
      assert xs + ys == xs;
    } else {
      var init := ys[..|ys| - 1];
      var y := ys[|ys| - 1];
      assert (xs + ys)[..|xs + ys| - 1] == xs + init;
      MergedFold(xs, init);
      FoldSummarises(xs);
      FoldSummarises(init);
    }
  }

  /** `merge` with an empty aggregator is the identity. */
  lemma MergedEmptyIdentity(s: Stats)
    ensures Merged(s, Empty()) == s
  {
  }

  /** `merge` is associative when the middle summary is non-empty ... */
  lemma MergedAssociative(s: Stats, t: Stats, u: Stats)
    requires 0 < t.count
    ensures Merged(Merged(s, t), u) == Merged(s, Merged(t, u))
  {
  }

  /** ... but an empty one in the middle lets its `max` sentinel through. */
  lemma MergedEmptyMiddleNotAssociative()
    ensures Merged(Merged(Singleton(-10.0), Empty()), Singleton(-5.0)).max == -5.0
    ensures Merged(Singleton(-10.0), Merged(Empty(), Singleton(-5.0))).max == DOUBLE_MIN_VALUE
  {
  }

  /** `merge` commutes on non-empty summaries ... */
  lemma MergedCommutative(s: Stats, t: Stats)
    requires 0 < s.count && 0 < t.count
    ensures Merged(s, t) == Merged(t, s)
  {
  }

  /** ... but not when the receiver is empty: the sentinels leak into the result. */
  lemma MergedIntoEmptyNotCommutative()
    ensures Merged(Empty(), Singleton(-5.0)) != Merged(Singleton(-5.0), Empty())
  {
  }

  /** Adding 10, 20 and 30 to an empty aggregator. */
  lemma TenTwentyThirty()
    ensures var s := Fold([10.0, 20.0, 30.0]);
      s.count == 3 && s.sum == 60.0 && ReportedMin(s) == 10.0 && ReportedMax(s) == 30.0 && Average(s) == 20.0
  {
    assert [10.0, 20.0, 30.0][..2] == [10.0, 20.0];
    assert [10.0, 20.0][..1] == [10.0];
    assert [10.0][..0] == [];
  }

  class TemperatureAggregator {
    var sum: real
    var min: real
    var max: real
    var count: nat

    function State(): Stats
      reads this
    {
      Stats(sum, min, max, count)
    }

    constructor WithInitialValue(initialValue: real)
      ensures State() == Singleton(initialValue)
    {
      sum := initialValue;
      min := initialValue;
      max := initialValue;
      count := 1;
    }

    constructor ()
      ensures State() == Empty()
    {
      sum := 0.0;
      min := DOUBLE_MAX_VALUE;
      max := DOUBLE_MIN_VALUE;
      count := 0;
    }

    method Add(value: real)
      modifies this
      ensures State() == Added(old(State()), value)
    {
      sum := sum + value;
      min := MinOf(min, value);
      max := MaxOf(max, value);
      count := count + 1;
    }

    function GetAverage(): (a: real)
      reads this
      ensures count == 0 ==> a == 0.0
      ensures 0 < count ==> a * (count as real) == sum
    {
      Average(State())
    }

    function GetMin(): (m: real)
      reads this
      ensures m == if count == 0 then 0.0 else min
    {
      ReportedMin(State())
    }

    function GetMax(): (m: real)
      reads this
      ensures m == if count == 0 then 0.0 else max
    {
      ReportedMax(State())
    }

    function GetSum(): real
      reads this
    {
      sum
    }

    function GetCount(): nat
      reads this
    {
      count
    }

    method Reset()
      modifies this
      ensures State() == Empty()
    {
      sum := 0.0;
      min := DOUBLE_MAX_VALUE;
      max := DOUBLE_MIN_VALUE;
      count := 0;
    }

    /** `merge(other)`; `other` is read before any field is written, so `a.merge(a)` is covered. */
    method Merge(other: TemperatureAggregator)
      modifies this
      ensures State() == Merged(old(State()), old(other.State()))
      ensures other != this ==> other.State() == old(other.State())
    {
      if other.count == 0 {
        return;
      }
      var o := other.State();
      sum := sum + o.sum;
      min := MinOf(min, o.min);
      max := MaxOf(max, o.max);
      count := count + o.count;
    }
  }
}
