/**
 * `SensorDataGenerator`: synthesizes one sample per call and keeps, per
 * sensor key `"sensor_" + id`, a sliding window of the last 100 samples and
 * a temperature aggregator, plus a global count of generated samples.
 */
module SensorDataGenerators {
  import opened Wrappers
  import opened Dto
  import JavaLang
  import Sorting
  import SW = SlidingWindows
  import TA = TemperatureAggregators

  const MAX_HISTORY_PER_SENSOR: int := 100
  const ANOMALY_THRESHOLD: real := 35.0
  /** Lengths of `COS_TABLE`/`SIN_TABLE` and of `TAN_TABLE`. */
  const TRIG_TABLE_SIZE: int := 360
  const TAN_TABLE_SIZE: int := 45

  /**
   * The floating-point side of synthesis, left uninterpreted: `sin` and `cos`
   * stand for `Math.sin`/`Math.cos`, and `magnitude(t, h, p, a, b)` for
   * `sqrt(x*x + y*y + z*z)` with `x = t * COS_TABLE[a]`, `y = h * SIN_TABLE[a]`,
   * `z = p * TAN_TABLE[b]`.
   */
  datatype Numerics = Numerics(
    sin: real -> real,
    cos: real -> real,
    magnitude: (real, real, real, int, int) -> real)

  function Abs(x: real): real {
    if x < 0.0 then -x else x
  }

  /** A reading is anomalous when any quantity is more than 35 from its baseline. */
  predicate IsAnomaly(temperature: real, humidity: real, pressure: real) {
    Abs(temperature - 20.0) > ANOMALY_THRESHOLD
    || Abs(humidity - 50.0) > ANOMALY_THRESHOLD
    || Abs(pressure - 1013.0) > ANOMALY_THRESHOLD
  }

  lemma MultipleOf360IsMultipleOf45(id: int)
    requires JavaLang.Rem(id, TRIG_TABLE_SIZE) == 0
    ensures JavaLang.Rem(id, TAN_TABLE_SIZE) == 0
  {
    var q := JavaLang.Div(id, 360);
    assert id == q * 360;
    assert id == (q * 8) * 45;
    if 0 <= id {
      assert 0 <= q;
      assert id / 45 == q * 8;
    } else {
      assert q < 0;
      assert -id == (-q * 8) * 45;
      assert (-id) / 45 == -q * 8;
    }
  }

  /**
   * The sample `generateSensorData(sensorId)` builds when the clock reads `now`
   * (milliseconds).  Java's `%` keeps the sign of a negative id, and a negative
   * table index makes the lookup throw before any state is touched.
   */
  function Sample(n: Numerics, sensorId: int, now: int): (r: Result<SensorDataDto, Error>)
    ensures r.Failure? <==> sensorId < 0 && JavaLang.Rem(sensorId, TRIG_TABLE_SIZE) != 0
    ensures r.Failure? ==> r.error == IndexOutOfBounds
    ensures r.Success? ==> r.value.sensorId == sensorId && r.value.timestamp == now
    ensures r.Success? ==>
      (r.value.anomaly <==> IsAnomaly(r.value.temperature, r.value.humidity, r.value.pressure))
  {
    var timeSeconds := JavaLang.Div(now, 1000);
    var temperature := 20.0 + 5.0 * n.sin(timeSeconds as real / 1.0);
    var humidity := 50.0 + 20.0 * n.cos(timeSeconds as real / 2.0);
    var pressure := 1013.0 + 10.0 * n.sin(timeSeconds as real / 3.0);
    var a := JavaLang.Rem(sensorId, TRIG_TABLE_SIZE);
    var b := JavaLang.Rem(sensorId, TAN_TABLE_SIZE);
    assert a == 0 ==> b == 0 by {
      if a == 0 { MultipleOf360IsMultipleOf45(sensorId); }
    }
    if a < 0 || b < 0 then
      Failure(IndexOutOfBounds)
    else
      assert 0 <= a < TRIG_TABLE_SIZE && 0 <= b < TAN_TABLE_SIZE;
      Success(SensorDataDto(
        sensorId, now, temperature, humidity, pressure,
        n.magnitude(temperature, humidity, pressure, a, b),
        IsAnomaly(temperature, humidity, pressure)))
  }

  /** Whether `generateSensorData` can produce a sample for this id at all. */
  predicate Usable(sensorId: int) {
    0 <= sensorId || JavaLang.Rem(sensorId, TRIG_TABLE_SIZE) == 0
  }

  /** With `sin` and `cos` in [-1, 1], no sample is ever flagged as an anomaly. */
  lemma BoundedTrigNeverAnomalous(n: Numerics, sensorId: int, now: int)
    requires forall x :: -1.0 <= n.sin(x) <= 1.0
    requires forall x :: -1.0 <= n.cos(x) <= 1.0
    requires Usable(sensorId)
    ensures Sample(n, sensorId, now).Success? && !Sample(n, sensorId, now).value.anomaly
  {
    var t := JavaLang.Div(now, 1000) as real;
    assert -1.0 <= n.sin(t / 1.0) <= 1.0;
    assert -1.0 <= n.cos(t / 2.0) <= 1.0;
    assert -1.0 <= n.sin(t / 3.0) <= 1.0;
  }

  /** The cache key `"sensor_" + sensorId`. */
  function Key(sensorId: int): string {
    "sensor_" + JavaLang.LongToString(sensorId)
  }

  /** Distinct sensors never share a cache entry. */
  lemma KeyInjective(a: int, b: int)
    requires Key(a) == Key(b)
    ensures a == b
  {
    var p := "sensor_";
    assert Key(a)[|p|..] == JavaLang.LongToString(a);
    assert Key(b)[|p|..] == JavaLang.LongToString(b);
    JavaLang.LongToStringInjective(a, b);
  }

  /** The generator's state as values: window contents and aggregator fields per key, and the counter. */
  datatype Snapshot = Snapshot(
    histories: map<string, seq<SensorDataDto>>,
    stats: map<string, TA.Stats>,
    total: nat)

  ghost predicate WellFormed(s: Snapshot) {
    WindowsBounded(s.histories)
  }

  /** No window holds more than its capacity of 100. */
  ghost predicate WindowsBounded(histories: map<string, seq<SensorDataDto>>) {
    forall k :: k in histories ==> |histories[k]| <= MAX_HISTORY_PER_SENSOR
  }

  /** The window contents for `key`; a key never seen reads as an empty window. */
  function WindowOf(s: Snapshot, key: string): seq<SensorDataDto> {
    if key in s.histories then s.histories[key] else []
  }

  /** The aggregator for `key`; a key never seen reads as an empty aggregator. */
  function StatsOf(s: Snapshot, key: string): TA.Stats {
    if key in s.stats then s.stats[key] else TA.Empty()
  }

  /** The history cache after `d` is added to the window of `key`, created empty if absent. */
  function HistoryAdded(histories: map<string, seq<SensorDataDto>>, key: string, d: SensorDataDto): (r: map<string, seq<SensorDataDto>>)
    requires WindowsBounded(histories)
    ensures WindowsBounded(r) && r.Keys == histories.Keys + {key}
  {
    histories[key := SW.Added(if key in histories then histories[key] else [], d, MAX_HISTORY_PER_SENSOR)]
  }

  /** The stats cache after `temperature` is added to the aggregator of `key`, created empty if absent. */
  function StatsAdded(stats: map<string, TA.Stats>, key: string, temperature: real): (r: map<string, TA.Stats>)
    ensures r.Keys == stats.Keys + {key}
  {
    stats[key := TA.Added(if key in stats then stats[key] else TA.Empty(), temperature)]
  }

  /** Adding to a window created empty just before is adding to an absent window. */
  lemma HistoryAddedToNew(histories: map<string, seq<SensorDataDto>>, key: string, d: SensorDataDto)
    requires WindowsBounded(histories) && key !in histories
    ensures HistoryAdded(histories[key := []], key, d) == HistoryAdded(histories, key, d)
  {
  }

  /** Adding to an aggregator created empty just before is adding to an absent one. */
  lemma StatsAddedToNew(stats: map<string, TA.Stats>, key: string, temperature: real)
    requires key !in stats
    ensures StatsAdded(stats[key := TA.Empty()], key, temperature) == StatsAdded(stats, key, temperature)
  {
  }

  /** The side effects of one successful `generateSensorData` that produced `d`. */
  function Recorded(s: Snapshot, d: SensorDataDto): (r: Snapshot)
    requires WellFormed(s)
    ensures WellFormed(r)
  {
    var key := Key(d.sensorId);
    Snapshot(HistoryAdded(s.histories, key, d), StatsAdded(s.stats, key, d.temperature), s.total + 1)
  }

  /**
   * Generating `d`: its sensor's window gets `d` as newest element (a window
   * of capacity 100 is created on first use), its aggregator gets the
   * temperature, the counter goes up by one and no other sensor's state changes.
   */
  lemma RecordedEffects(s: Snapshot, d: SensorDataDto)
    requires WellFormed(s)
    ensures var r := Recorded(s, d);
      && r.total == s.total + 1
      && r.histories.Keys == s.histories.Keys + {Key(d.sensorId)}
      && r.stats.Keys == s.stats.Keys + {Key(d.sensorId)}
      && WindowOf(r, Key(d.sensorId)) == SW.Added(WindowOf(s, Key(d.sensorId)), d, MAX_HISTORY_PER_SENSOR)
      && StatsOf(r, Key(d.sensorId)) == TA.Added(StatsOf(s, Key(d.sensorId)), d.temperature)
    ensures forall id :: id != d.sensorId ==>
      WindowOf(Recorded(s, d), Key(id)) == WindowOf(s, Key(id))
      && StatsOf(Recorded(s, d), Key(id)) == StatsOf(s, Key(id))
  {
    forall id | id != d.sensorId
      ensures Key(id) != Key(d.sensorId)
    {
      if Key(id) == Key(d.sensorId) {
        KeyInjective(id, d.sensorId);
      }
    }
  }

  /** The side effects of successful generations of `ds`, in order. */
  function RecordedAll(s: Snapshot, ds: seq<SensorDataDto>): (r: Snapshot)
    requires WellFormed(s)
    ensures WellFormed(r)
  {
    if ds == [] then s else Recorded(RecordedAll(s, ds[..|ds| - 1]), ds[|ds| - 1])
  }

  lemma RecordedWindow(s: Snapshot, d: SensorDataDto, id: int)
    requires WellFormed(s)
    ensures WindowOf(Recorded(s, d), Key(id))
         == if d.sensorId == id then SW.Added(WindowOf(s, Key(id)), d, MAX_HISTORY_PER_SENSOR)
            else WindowOf(s, Key(id))
  {
    if d.sensorId != id && Key(id) == Key(d.sensorId) {
      KeyInjective(id, d.sensorId);
    }
  }

  lemma RecordedStats(s: Snapshot, d: SensorDataDto, id: int)
    requires WellFormed(s)
    ensures StatsOf(Recorded(s, d), Key(id))
         == if d.sensorId == id then TA.Added(StatsOf(s, Key(id)), d.temperature)
            else StatsOf(s, Key(id))
  {
    if d.sensorId != id && Key(id) == Key(d.sensorId) {
      KeyInjective(id, d.sensorId);
    }
  }

  lemma {:induction false} RecordedAllTotal(s: Snapshot, ds: seq<SensorDataDto>)
    requires WellFormed(s)
    ensures RecordedAll(s, ds).total == s.total + |ds|
  {
    if ds != [] {
      RecordedAllTotal(s, ds[..|ds| - 1]);
    }
  }

  lemma OfSensorSnoc(ds: seq<SensorDataDto>, d: SensorDataDto, id: int)
    ensures OfSensor(ds + [d], id) == if d.sensorId == id then OfSensor(ds, id) + [d] else OfSensor(ds, id)
  {
    assert (ds + [d])[..|ds|] == ds;
  }

  /**
   * Concatenation regroups.  Stated over abstract sequences so that the
   * caller's proof does not meet it among its concrete window terms.
   */
  lemma ConcatAssoc<T>(a: seq<T>, b: seq<T>, c: seq<T>)
    ensures a + b + c == a + (b + c)
  {
  }

  /** Adding to the newest suffix of `w` is taking the newest suffix of `w + [d]`. */
  lemma AddedToNewest(w: seq<SensorDataDto>, d: SensorDataDto)
    ensures SW.Added(SW.Newest(w, MAX_HISTORY_PER_SENSOR), d, MAX_HISTORY_PER_SENSOR)
         == SW.Newest(w + [d], MAX_HISTORY_PER_SENSOR)
  {
    SW.AddedIsNewest(SW.Newest(w, MAX_HISTORY_PER_SENSOR), d, MAX_HISTORY_PER_SENSOR);
    SW.NewestOfNewest(w, [d], MAX_HISTORY_PER_SENSOR);
  }

  /** One more generation preserves the relation between a sensor's window and its samples. */
  lemma RecordedWindowStep(mid: Snapshot, d: SensorDataDto, id: int, w: seq<SensorDataDto>)
    requires WellFormed(mid)
    requires WindowOf(mid, Key(id)) == SW.Newest(w, MAX_HISTORY_PER_SENSOR)
    ensures WindowOf(Recorded(mid, d), Key(id))
         == SW.Newest(if d.sensorId == id then w + [d] else w, MAX_HISTORY_PER_SENSOR)
  {
    RecordedWindow(mid, d, id);
    if d.sensorId == id {
      AddedToNewest(w, d);
    }
  }

  /** After any sequence of generations, a sensor's window holds the most recent 100 of its samples. */
  lemma {:induction false} RecordedAllWindow(s: Snapshot, ds: seq<SensorDataDto>, id: int)
    requires WellFormed(s)
    ensures WindowOf(RecordedAll(s, ds), Key(id))
         == SW.Newest(WindowOf(s, Key(id)) + OfSensor(ds, id), MAX_HISTORY_PER_SENSOR)
  {
    var w0 := WindowOf(s, Key(id));
    if ds == [] {
      assert w0 + [] == w0;
    } else {
      var init, d := ds[..|ds| - 1], ds[|ds| - 1];
      assert init + [d] == ds;
      var f := OfSensor(init, id);
      RecordedAllWindow(s, init, id);
      RecordedWindowStep(RecordedAll(s, init), d, id, w0 + f);
      OfSensorSnoc(init, d, id);
      if d.sensorId == id {
        ConcatAssoc(w0, f, [d]);
      }
    }
  }

  /** After any sequence of generations, a sensor's aggregator has absorbed exactly its temperatures, in order. */
  lemma {:induction false} RecordedAllStats(s: Snapshot, ds: seq<SensorDataDto>, id: int)
    requires WellFormed(s)
    ensures StatsOf(RecordedAll(s, ds), Key(id))
         == TA.AddedAll(StatsOf(s, Key(id)), Temperatures(OfSensor(ds, id)))
  {
    if ds != [] {
      var init, d := ds[..|ds| - 1], ds[|ds| - 1];
      var mid := RecordedAll(s, init);
      RecordedAllStats(s, init, id);
      RecordedStats(mid, d, id);
      if d.sensorId == id {
        assert OfSensor(ds, id) == OfSensor(init, id) + [d];
        assert Temperatures(OfSensor(ds, id)) == Temperatures(OfSensor(init, id)) + [d.temperature];
        TA.AddedAllSnoc(StatsOf(s, Key(id)), Temperatures(OfSensor(init, id)), d.temperature);
      } else {
        assert OfSensor(ds, id) == OfSensor(init, id);
      }
    }
  }

  function Temperatures(ds: seq<SensorDataDto>): (ts: seq<real>)
    ensures |ts| == |ds|
    ensures forall i :: 0 <= i < |ds| ==> ts[i] == ds[i].temperature
  {
    if ds == [] then [] else Temperatures(ds[..|ds| - 1]) + [ds[|ds| - 1].temperature]
  }

  /** The outcome of calling `generateSensorData` once per id, stopping at the first exception. */
  datatype Run = Run(records: seq<SensorDataDto>, failed: bool)

  /**
   * Generating for `ids` in order, the k-th call reading the clock as `clock(k)`:
   * the samples built before the first failing id, and whether one failed.
   */
  function RunSamples(n: Numerics, ids: seq<int>, clock: nat -> int): (r: Run)
    ensures |r.records| <= |ids|
    ensures forall k :: 0 <= k < |r.records| ==> Sample(n, ids[k], clock(k)) == Success(r.records[k])
    ensures r.failed <==> |r.records| < |ids|
    ensures r.failed ==> Sample(n, ids[|r.records|], clock(|r.records|)).Failure?
  {
    if ids == [] then
      Run([], false)
    else
      var prefix := RunSamples(n, ids[..|ids| - 1], clock);
      if prefix.failed then
        Run(prefix.records, true)
      else
        match Sample(n, ids[|ids| - 1], clock(|ids| - 1))
        case Failure(_) => Run(prefix.records, true)
        case Success(d) => Run(prefix.records + [d], false)
  }

  /** A run fails exactly when some id cannot be sampled; until then every record carries its id and clock reading. */
  lemma {:induction false} RunSamplesShape(n: Numerics, ids: seq<int>, clock: nat -> int)
    ensures RunSamples(n, ids, clock).failed <==> exists k :: 0 <= k < |ids| && !Usable(ids[k])
    ensures var r := RunSamples(n, ids, clock);
      forall k :: 0 <= k < |r.records| ==>
        r.records[k].sensorId == ids[k] && r.records[k].timestamp == clock(k)
  {
    var r := RunSamples(n, ids, clock);
    if r.failed {
      assert !Usable(ids[|r.records|]);
    } else {
      forall k | 0 <= k < |ids|
        ensures Usable(ids[k])
      {
        assert Sample(n, ids[k], clock(k)).Success?;
      }
    }
  }

  /** `limit(limit > 0 ? limit : Long.MAX_VALUE)`: a limit that is not positive keeps everything. */
  function Limit<T>(s: seq<T>, limit: int): (r: seq<T>)
    ensures 0 < limit ==> |r| == SW.Min(|s|, limit)
    ensures limit <= 0 ==> r == s
    ensures r == s[..|r|]
  {
    if 0 < limit && limit < |s| then s[..limit] else s
  }

  /** What `generateHistoryData(sensorId, limit)` returns from the window `window`. */
  function History(window: seq<SensorDataDto>, sensorId: int, limit: int): seq<SensorDataDto> {
    Limit(Sorting.SortBy(OfSensor(window, sensorId), TimestampOf), limit)
  }

  /**
   * The answer is ordered by timestamp, holds only `sensorId`'s records, each
   * taken from the window, and as many of them as the limit allows.
   */
  lemma HistoryShape(window: seq<SensorDataDto>, sensorId: int, limit: int)
    ensures var h := History(window, sensorId, limit);
      && Sorting.SortedBy(h, TimestampOf)
      && (forall d :: d in h ==> d in window && d.sensorId == sensorId)
      && |h| == (if 0 < limit then SW.Min(|OfSensor(window, sensorId)|, limit) else |OfSensor(window, sensorId)|)
      && (limit <= 0 ==> multiset(h) == multiset(OfSensor(window, sensorId)))
  {
    var sorted := Sorting.SortBy(OfSensor(window, sensorId), TimestampOf);
    var h := History(window, sensorId, limit);
    forall d | d in h
      ensures d in window && d.sensorId == sensorId
    {
      assert d in multiset(sorted);
    }
  }

  /** A window whose records are already in timestamp order is returned as stored, up to the limit. */
  lemma HistoryOfOrderedWindow(window: seq<SensorDataDto>, sensorId: int, limit: int)
    requires forall d :: d in window ==> d.sensorId == sensorId
    requires Sorting.SortedBy(window, TimestampOf)
    ensures History(window, sensorId, limit) == Limit(window, limit)
  {
    OfSensorAll(window, sensorId);
    Sorting.SortBySortedIsIdentity(window, TimestampOf);
  }

  lemma {:induction false} OfSensorAll(ds: seq<SensorDataDto>, id: int)
    requires forall d :: d in ds ==> d.sensorId == id
    ensures OfSensor(ds, id) == ds
  {
    if ds != [] {
      OfSensorAll(ds[..|ds| - 1], id);
      assert ds == ds[..|ds| - 1] + [ds[|ds| - 1]];
    }
  }

  /** One more succeeding sample extends a prefix of succeeding samples. */
  lemma SamplesSnoc(n: Numerics, ids: seq<int>, clock: nat -> int, records: seq<SensorDataDto>, d: SensorDataDto)
    requires |records| < |ids|
    requires forall k :: 0 <= k < |records| ==> Sample(n, ids[k], clock(k)) == Success(records[k])
    requires Sample(n, ids[|records|], clock(|records|)) == Success(d)
    ensures forall k :: 0 <= k < |records| + 1 ==> Sample(n, ids[k], clock(k)) == Success((records + [d])[k])
  {
    forall k | 0 <= k < |records| + 1
      ensures Sample(n, ids[k], clock(k)) == Success((records + [d])[k])
    {
      if k < |records| {
        assert (records + [d])[k] == records[k];
      }
    }
  }

  /** The records of a run are determined by which samples succeed: the longest succeeding prefix. */
  lemma RunSamplesDetermined(n: Numerics, ids: seq<int>, clock: nat -> int, records: seq<SensorDataDto>)
    requires |records| <= |ids|
    requires forall k :: 0 <= k < |records| ==> Sample(n, ids[k], clock(k)) == Success(records[k])
    requires |records| < |ids| ==> Sample(n, ids[|records|], clock(|records|)).Failure?
    ensures RunSamples(n, ids, clock) == Run(records, |records| < |ids|)
  {
    var r := RunSamples(n, ids, clock);
    assert r.records == records;
  }

  /**
   * Samples of one sensor generated with a clock that never goes back: the
   * history without a limit is exactly the newest 100 of them, as generated.
   */
  lemma HistoryOfMonotoneSamples(ds: seq<SensorDataDto>, id: int)
    requires forall i :: 0 <= i < |ds| ==> ds[i].sensorId == id
    requires Sorting.SortedBy(ds, TimestampOf)
    ensures History(WindowOf(RecordedAll(Initial(), ds), Key(id)), id, 0) == SW.Newest(ds, MAX_HISTORY_PER_SENSOR)
    ensures |History(WindowOf(RecordedAll(Initial(), ds), Key(id)), id, 0)| == SW.Min(|ds|, MAX_HISTORY_PER_SENSOR)
  {
    OfSensorAll(ds, id);
    HistoryAfterGenerations(ds, id, 0);
    var newest := SW.Newest(ds, MAX_HISTORY_PER_SENSOR);
    Sorting.SuffixSorted(ds, |ds| - SW.Min(|ds|, MAX_HISTORY_PER_SENSOR), TimestampOf);
    Sorting.SortBySortedIsIdentity(newest, TimestampOf);
  }

  /** A newly constructed generator: no windows, no aggregators, nothing generated. */
  function Initial(): Snapshot {
    Snapshot(map[], map[], 0)
  }

  /**
   * Starting from a new generator and generating `ds`, the history of a sensor
   * is its newest 100 samples, ordered by timestamp and limited.
   */
  lemma HistoryAfterGenerations(ds: seq<SensorDataDto>, id: int, limit: int)
    ensures History(WindowOf(RecordedAll(Initial(), ds), Key(id)), id, limit)
         == Limit(Sorting.SortBy(SW.Newest(OfSensor(ds, id), MAX_HISTORY_PER_SENSOR), TimestampOf), limit)
  {
    WindowAfterGenerations(ds, id);
    NewestOfOneSensor(OfSensor(ds, id), id);
  }

  /** Starting from a new generator, a sensor's window holds the newest 100 of its samples. */
  lemma WindowAfterGenerations(ds: seq<SensorDataDto>, id: int)
    ensures WindowOf(RecordedAll(Initial(), ds), Key(id)) == SW.Newest(OfSensor(ds, id), MAX_HISTORY_PER_SENSOR)
  {
    RecordedAllWindow(Initial(), ds, id);
    assert [] + OfSensor(ds, id) == OfSensor(ds, id);
  }

  /** Filtering the newest samples of one sensor by that sensor keeps them all. */
  lemma NewestOfOneSensor(own: seq<SensorDataDto>, id: int)
    requires forall i :: 0 <= i < |own| ==> own[i].sensorId == id
    ensures OfSensor(SW.Newest(own, MAX_HISTORY_PER_SENSOR), id) == SW.Newest(own, MAX_HISTORY_PER_SENSOR)
  {
    var newest := SW.Newest(own, MAX_HISTORY_PER_SENSOR);
    forall d: SensorDataDto | d in newest
      ensures d.sensorId == id
    {
      var i :| 0 <= i < |newest| && newest[i] == d;
      assert d == own[|own| - |newest| + i];
    }
    OfSensorAll(newest, id);
  }

  /** A sensor that has been sampled has a non-empty history when no limit is given. */
  lemma HistoryOfSampledSensor(ds: seq<SensorDataDto>, id: int)
    requires exists i :: 0 <= i < |ds| && ds[i].sensorId == id
    ensures |History(WindowOf(RecordedAll(Initial(), ds), Key(id)), id, 0)| > 0
  {
    var i :| 0 <= i < |ds| && ds[i].sensorId == id;
    assert ds[i] in OfSensor(ds, id);
    HistoryAfterGenerations(ds, id, 0);
  }

  /**
   * Starting from a new generator and generating `ds`, a sensor's aggregator
   * is the summary of exactly that sensor's temperatures.
   */
  lemma StatsAfterGenerations(ds: seq<SensorDataDto>, id: int)
    ensures StatsOf(RecordedAll(Initial(), ds), Key(id)) == TA.Fold(Temperatures(OfSensor(ds, id)))
  {
    RecordedAllStats(Initial(), ds, id);
  }

  /** The counter counts every generated sample, across all sensors. */
  lemma TotalAfterGenerations(ds: seq<SensorDataDto>)
    ensures RecordedAll(Initial(), ds).total == |ds|
  {
    RecordedAllTotal(Initial(), ds);
  }

  /**
   * `generateBulkData` samples every listed id once, duplicates included, in
   * ascending id order; it fails exactly when some listed id cannot be sampled.
   */
  lemma BulkDataFails(n: Numerics, sensorIds: seq<int>, clock: nat -> int)
    ensures RunSamples(n, Sorting.SortBy(sensorIds, Identity), clock).failed
      <==> exists i :: 0 <= i < |sensorIds| && !Usable(sensorIds[i])
  {
    var sorted := Sorting.SortBy(sensorIds, Identity);
    RunSamplesShape(n, sorted, clock);
    UnusableCarriesOver(sorted, sensorIds);
    UnusableCarriesOver(sensorIds, sorted);
  }

  /**
   * When every id can be sampled, the bulk batch holds one record per requested id,
   * in ascending id order, the k-th stamped by the k-th clock reading.
   */
  lemma BulkDataOrder(n: Numerics, sensorIds: seq<int>, clock: nat -> int)
    requires !RunSamples(n, Sorting.SortBy(sensorIds, Identity), clock).failed
    ensures var records := RunSamples(n, Sorting.SortBy(sensorIds, Identity), clock).records;
      && |records| == |sensorIds|
      && multiset(SensorIds(records)) == multiset(sensorIds)
      && (forall i, j :: 0 <= i < j < |records| ==> records[i].sensorId <= records[j].sensorId)
      && (forall k :: 0 <= k < |records| ==> records[k].timestamp == clock(k))
  {
    var sorted := Sorting.SortBy(sensorIds, Identity);
    RunSamplesShape(n, sorted, clock);
    RecordsFollowIds(RunSamples(n, sorted, clock).records, sorted);
  }

  /** Records carrying the ids of a sorted list, one each, list those ids in ascending order. */
  lemma RecordsFollowIds(records: seq<SensorDataDto>, ids: seq<int>)
    requires |records| == |ids|
    requires forall k :: 0 <= k < |records| ==> records[k].sensorId == ids[k]
    requires Sorting.SortedBy(ids, Identity)
    ensures SensorIds(records) == ids
    ensures forall i, j :: 0 <= i < j < |records| ==> records[i].sensorId <= records[j].sensorId
  {
    forall i, j | 0 <= i < j < |records|
      ensures records[i].sensorId <= records[j].sensorId
    {
      assert Identity(ids[i]) <= Identity(ids[j]);
    }
  }

  /** A permutation neither adds nor removes an id that cannot be sampled. */
  lemma UnusableCarriesOver(a: seq<int>, b: seq<int>)
    requires multiset(a) == multiset(b)
    ensures (exists i :: 0 <= i < |a| && !Usable(a[i])) ==> (exists j :: 0 <= j < |b| && !Usable(b[j]))
  {
    if i :| 0 <= i < |a| && !Usable(a[i]) {
      assert a[i] in multiset(b);
      var j :| 0 <= j < |b| && b[j] == a[i];
      assert !Usable(b[j]);
    }
  }

  /** The map returned by `generateBulkData`: the entries "data", "count" and "timestamp". */
  datatype BulkData = BulkData(data: seq<SensorDataDto>, count: int, timestamp: int)

  /** `Map.getOrDefault`. */
  function GetOrDefault<K, V>(m: map<K, V>, key: K, default: V): (v: V)
    ensures key in m ==> v == m[key]
    ensures key !in m ==> v == default
  {
    if key in m then m[key] else default
  }

  function Identity(x: int): int {
    x
  }

  /** No two keys share one object. */
  ghost predicate Distinct<V>(cache: map<string, V>) {
    forall k, k' :: k in cache && k' in cache && k != k' ==> cache[k] != cache[k']
  }

  ghost predicate WindowsValid(cache: map<string, SW.SlidingWindow<SensorDataDto>>)
    reads cache.Values
  {
    forall k :: k in cache ==> cache[k].Valid() && cache[k].maxSize == MAX_HISTORY_PER_SENSOR
  }

  ghost function WindowContents(cache: map<string, SW.SlidingWindow<SensorDataDto>>): map<string, seq<SensorDataDto>>
    reads cache.Values
  {
    map k | k in cache :: cache[k].items
  }

  ghost function AggregatorStates(cache: map<string, TA.TemperatureAggregator>): map<string, TA.Stats>
    reads cache.Values
  {
    map k | k in cache :: cache[k].State()
  }

  class SensorDataGenerator {
    /** `Math.sin`/`Math.cos` and the table-and-`sqrt` magnitude. */
    const numerics: Numerics
    var historyCache: map<string, SW.SlidingWindow<SensorDataDto>>
    var statsCache: map<string, TA.TemperatureAggregator>
    var totalGeneratedSensors: nat

    /** Every cached window has capacity 100, and no window is shared by two keys. */
    ghost predicate HistoryValid()
      reads this, historyCache.Values
    {
      WindowsValid(historyCache) && Distinct(historyCache)
    }

    /** No aggregator is shared by two keys. */
    ghost predicate StatsValid()
      reads this
    {
      Distinct(statsCache)
    }

    ghost predicate Valid()
      reads this, historyCache.Values
    {
      HistoryValid() && StatsValid()
    }

    /** The caches' contents and the counter as values. */
    ghost function Abstract(): (s: Snapshot)
      requires Valid()
      reads this, historyCache.Values, statsCache.Values
      ensures WellFormed(s)
    {
      Snapshot(WindowContents(historyCache), AggregatorStates(statsCache), totalGeneratedSensors)
    }

    constructor (numerics: Numerics)
      ensures Valid()
      ensures this.numerics == numerics
      ensures Abstract() == Initial()
    {
      this.numerics := numerics;
      historyCache := map[];
      statsCache := map[];
      totalGeneratedSensors := 0;
    }

    /** The `computeIfAbsent` half for a key without a window: a new empty window of capacity 100. */
    method CreateWindow(key: string)
      requires HistoryValid() && key !in historyCache
      modifies this
      ensures HistoryValid() && key in historyCache && fresh(historyCache[key])
      ensures historyCache == old(historyCache)[key := historyCache[key]]
      ensures WindowContents(historyCache) == old(WindowContents(historyCache))[key := []]
      ensures statsCache == old(statsCache) && totalGeneratedSensors == old(totalGeneratedSensors)
      ensures AggregatorStates(statsCache) == old(AggregatorStates(statsCache))
    {
      var created := SW.SlidingWindow<SensorDataDto>.Create(MAX_HISTORY_PER_SENSOR);
      historyCache := historyCache[key := created.value];
    }

    /** `add(data)` on the window of `key`; no other window is touched. */
    method AddToWindow(key: string, data: SensorDataDto)
      requires HistoryValid() && key in historyCache
      modifies historyCache[key]
      ensures HistoryValid()
      ensures WindowContents(historyCache) == HistoryAdded(old(WindowContents(historyCache)), key, data)
      ensures AggregatorStates(statsCache) == old(AggregatorStates(statsCache))
    {
      var window := historyCache[key];
      assert forall k :: k in historyCache && k != key ==> historyCache[k] != window;
      var _ := window.Add(data);
    }

    /** `sensorHistoryCache.computeIfAbsent(key, k -> new SlidingWindow<>(100)).add(data)`. */
    method AddToHistory(key: string, data: SensorDataDto)
      requires HistoryValid()
      modifies this, historyCache.Values
      ensures HistoryValid() && fresh(historyCache.Values - old(historyCache.Values))
      ensures WindowContents(historyCache) == HistoryAdded(old(WindowContents(historyCache)), key, data)
      ensures statsCache == old(statsCache) && totalGeneratedSensors == old(totalGeneratedSensors)
      ensures AggregatorStates(statsCache) == old(AggregatorStates(statsCache))
    {
      if key !in historyCache {
        ghost var h0 := WindowContents(historyCache);
        CreateWindow(key);
        HistoryAddedToNew(h0, key, data);
      }
      AddToWindow(key, data);
    }

    /** The `computeIfAbsent` half for a key without an aggregator: a new empty one. */
    method CreateAggregator(key: string)
      requires StatsValid() && HistoryValid() && key !in statsCache
      modifies this
      ensures StatsValid() && key in statsCache && fresh(statsCache[key])
      ensures statsCache == old(statsCache)[key := statsCache[key]]
      ensures AggregatorStates(statsCache) == old(AggregatorStates(statsCache))[key := TA.Empty()]
      ensures historyCache == old(historyCache) && totalGeneratedSensors == old(totalGeneratedSensors)
      ensures WindowContents(historyCache) == old(WindowContents(historyCache)) && HistoryValid()
    {
      var aggregator := new TA.TemperatureAggregator();
      statsCache := statsCache[key := aggregator];
    }

    /** `add(temperature)` on the aggregator of `key`; no other aggregator is touched. */
    method AddToAggregator(key: string, temperature: real)
      requires StatsValid() && HistoryValid() && key in statsCache
      modifies statsCache[key]
      ensures AggregatorStates(statsCache) == StatsAdded(old(AggregatorStates(statsCache)), key, temperature)
      ensures WindowContents(historyCache) == old(WindowContents(historyCache)) && HistoryValid()
    {
      var aggregator := statsCache[key];
      assert forall k :: k in statsCache && k != key ==> statsCache[k] != aggregator;
      aggregator.Add(temperature);
    }

    /** `sensorStatsCache.computeIfAbsent(key, k -> new TemperatureAggregator()).add(temperature)`. */
    method AddToStats(key: string, temperature: real)
      requires StatsValid() && HistoryValid()
      modifies this, statsCache.Values
      ensures StatsValid() && fresh(statsCache.Values - old(statsCache.Values))
      ensures AggregatorStates(statsCache) == StatsAdded(old(AggregatorStates(statsCache)), key, temperature)
      ensures historyCache == old(historyCache) && totalGeneratedSensors == old(totalGeneratedSensors)
      ensures WindowContents(historyCache) == old(WindowContents(historyCache)) && HistoryValid()
    {
      if key !in statsCache {
        ghost var a0 := AggregatorStates(statsCache);
        CreateAggregator(key);
        StatsAddedToNew(a0, key, temperature);
      }
      AddToAggregator(key, temperature);
    }

    /** `totalGeneratedSensors++`; neither cache changes. */
    method CountSample()
      requires HistoryValid()
      modifies this
      ensures totalGeneratedSensors == old(totalGeneratedSensors) + 1
      ensures historyCache == old(historyCache) && statsCache == old(statsCache)
      ensures HistoryValid() && WindowContents(historyCache) == old(WindowContents(historyCache))
      ensures AggregatorStates(statsCache) == old(AggregatorStates(statsCache))
    {
      totalGeneratedSensors := totalGeneratedSensors + 1;
    }

    /** The state updates of `generateSensorData` for the sample `data` once it is built. */
    method Record(data: SensorDataDto)
      requires Valid()
      modifies this, historyCache.Values, statsCache.Values
      ensures Valid()
      ensures fresh(historyCache.Values - old(historyCache.Values)) && fresh(statsCache.Values - old(statsCache.Values))
      ensures Abstract() == Recorded(old(Abstract()), data)
    {
      var key := Key(data.sensorId);
      ghost var h0, a0 := WindowContents(historyCache), AggregatorStates(statsCache);
      AddToHistory(key, data);
      AddToStats(key, data.temperature);
      CountSample();
      assert WindowContents(historyCache) == HistoryAdded(h0, key, data);
      assert AggregatorStates(statsCache) == StatsAdded(a0, key, data.temperature);
    }

    /**
     * `generateSensorData(sensorId)` with the clock reading `now`: the sample is
     * built first, so a failing table lookup leaves every cache as it was.
     */
    method GenerateSensorData(sensorId: int, now: int) returns (r: Result<SensorDataDto, Error>)
      requires Valid()
      modifies this, historyCache.Values, statsCache.Values
      ensures Valid()
      ensures fresh(historyCache.Values - old(historyCache.Values)) && fresh(statsCache.Values - old(statsCache.Values))
      ensures r == Sample(numerics, sensorId, now)
      ensures Abstract() == if r.Success? then Recorded(old(Abstract()), r.value) else old(Abstract())
    {
      r := Sample(numerics, sensorId, now);
      if r.Success? {
        Record(r.value);
      }
    }

    /**
     * Calls `generateSensorData` for each of `ids` in order, the k-th call
     * reading the clock as `clock(k)`, until one throws.
     */
    method GenerateEach(ids: seq<int>, clock: nat -> int) returns (run: Run)
      requires Valid()
      modifies this, historyCache.Values, statsCache.Values
      ensures Valid()
      ensures fresh(historyCache.Values - old(historyCache.Values)) && fresh(statsCache.Values - old(statsCache.Values))
      ensures run == RunSamples(numerics, ids, clock)
      ensures Abstract() == RecordedAll(old(Abstract()), run.records)
    {
      ghost var s0 := Abstract();
      var all: seq<SensorDataDto> := [];
      var i := 0;
      while i < |ids|
        invariant 0 <= i <= |ids| && |all| == i
        invariant Valid()
        invariant fresh(historyCache.Values - old(historyCache.Values))
        invariant fresh(statsCache.Values - old(statsCache.Values))
        invariant forall k :: 0 <= k < i ==> Sample(numerics, ids[k], clock(k)) == Success(all[k])
        invariant Abstract() == RecordedAll(s0, all)
      {
        var d := GenerateSensorData(ids[i], clock(i));
        if d.Failure? {
          RunSamplesDetermined(numerics, ids, clock, all);
          return Run(all, true);
        }
        SamplesSnoc(numerics, ids, clock, all, d.value);
        all := all + [d.value];
        i := i + 1;
      }
      RunSamplesDetermined(numerics, ids, clock, all);
      run := Run(all, false);
    }

    /**
     * `generateBulkData(sensorIds)`: one sample per id in ascending id order,
     * the k-th reading the clock as `clock(k)` and the result's timestamp
     * reading it once more.  A failing id propagates the exception, leaving the
     * samples generated before it recorded.
     */
    method GenerateBulkData(sensorIds: seq<int>, clock: nat -> int) returns (r: Result<BulkData, Error>)
      requires Valid()
      modifies this, historyCache.Values, statsCache.Values
      ensures Valid()
      ensures var run := RunSamples(numerics, Sorting.SortBy(sensorIds, Identity), clock);
        && (r.Success? <==> !run.failed)
        && (r.Success? ==> r.value == BulkData(run.records, |sensorIds|, clock(|sensorIds|)))
        && (r.Success? ==> r.value.count == |r.value.data| == |sensorIds|)
        && (r.Failure? ==> r.error == IndexOutOfBounds)
        && Abstract() == RecordedAll(old(Abstract()), run.records)
    {
      var sorted := Sorting.SortBy(sensorIds, Identity);
      var run := GenerateEach(sorted, clock);
      if run.failed {
        return Failure(IndexOutOfBounds);
      }
      r := Success(BulkData(run.records, |run.records|, clock(|sensorIds|)));
    }

    /**
     * `generateHistoryData(sensorId, limit)` as evidently intended: a sensor
     * with no window has an empty history.
     */
    method GenerateHistoryData(sensorId: int, limit: int) returns (h: seq<SensorDataDto>)
      requires Valid()
      ensures h == History(WindowOf(Abstract(), Key(sensorId)), sensorId, limit)
    {
      var key := Key(sensorId);
      var window: seq<SensorDataDto> := [];
      if key in historyCache {
        window := historyCache[key].ToList();
      }
      var filtered := OfSensor(window, sensorId);
      var sorted := Sorting.SortBy(filtered, TimestampOf);
      h := Limit(sorted, limit);
    }

    /**
     * `generateHistoryData(sensorId, limit)` as written: the default window
     * `new SlidingWindow<>(0)` is built before the lookup, and its constructor
     * rejects capacity 0, so every call throws.
     */
    method GenerateHistoryDataAsWritten(sensorId: int, limit: int) returns (r: Result<seq<SensorDataDto>, Error>)
      requires Valid()
      ensures r == Failure(IllegalArgument)
    {
      var key := Key(sensorId);
      var fallback := SW.SlidingWindow<SensorDataDto>.Create(0);
      match fallback
      case Failure(e) =>
        r := Failure(e);
      case Success(_) =>
        // Never reached: the lookup and the stream pipeline after it are those of GenerateHistoryData.
        assert false;
    }

    /** `clearHistory()`: both caches are emptied; the counter is kept. */
    method ClearHistory()
      modifies this
      ensures Valid()
      ensures Abstract() == Snapshot(map[], map[], old(totalGeneratedSensors))
    {
      historyCache := map[];
      statsCache := map[];
    }

    function GetTotalGeneratedSensors(): (n: nat)
      requires Valid()
      reads this, historyCache.Values, statsCache.Values
      ensures n == Abstract().total
    {
      totalGeneratedSensors
    }

    /**
     * `getTemperatureStats(sensorId)`: the live aggregator of the sensor, or a
     * fresh empty one that is not put into the cache.
     */
    method GetTemperatureStats(sensorId: int) returns (a: TA.TemperatureAggregator)
      requires Valid()
      ensures a.State() == StatsOf(Abstract(), Key(sensorId))
      ensures Key(sensorId) in statsCache ==> a == statsCache[Key(sensorId)]
      ensures Key(sensorId) !in statsCache ==> fresh(a)
    {
      var fallback := new TA.TemperatureAggregator();
      a := GetOrDefault(statsCache, Key(sensorId), fallback);
    }

    /** `getAllStatistics()`: a new map over the same aggregators. */
    method GetAllStatistics() returns (m: map<string, TA.TemperatureAggregator>)
      requires Valid()
      ensures m.Keys == Abstract().stats.Keys
      ensures forall k :: k in m ==> m[k] == statsCache[k] && m[k].State() == StatsOf(Abstract(), k)
    {
      m := statsCache;
    }
  }

  /**
   * The history of a sensor that has just been sampled: as written the call
   * throws, while the intended answer holds the new sample.
   */
  method HistoryAfterOneSample(generator: SensorDataGenerator, now: int)
    returns (asWritten: Result<seq<SensorDataDto>, Error>, intended: seq<SensorDataDto>)
    requires generator.Valid()
    modifies generator, generator.historyCache.Values, generator.statsCache.Values
    ensures asWritten == Failure(IllegalArgument)
    ensures 0 < |intended| && (forall d :: d in intended ==> d.sensorId == 1)
  {
    ghost var before := generator.Abstract();
    var sample := generator.GenerateSensorData(1, now);
    assert sample.Success?;
    RecordedWindow(before, sample.value, 1);
    var window := WindowOf(generator.Abstract(), Key(1));
    assert window[|window| - 1] == sample.value;
    assert sample.value in OfSensor(window, 1);
    HistoryShape(window, 1, 0);
    asWritten := generator.GenerateHistoryDataAsWritten(1, 0);
    intended := generator.GenerateHistoryData(1, 0);
  }
}
