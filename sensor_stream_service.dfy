/**
 * `SensorStreamService`: finite streams of generated samples.
 *
 * A stream is the sequence of samples it delivers.  The interval ticks are
 * the generation calls, tick k reading the clock as `clock(k)`.
 * `buffer(16)` followed by `flatMapIterable` hands on each complete batch
 * of 16, and a final partial batch when the source completes.  When the
 * source errors, the partial batch is discarded, and `onErrorResume` ends
 * the stream without further items.  Neither `onBackpressureBuffer(512)`,
 * which signals an overflow error to a subscriber that falls 512 batches
 * behind, nor the `parallel(4)` merge, which may deliver batches of
 * different sensors in another order, is modelled.
 */
module SensorStreamServices {
  import opened Wrappers
  import opened Dto
  import JavaLang
  import G = SensorDataGenerators

  const BATCH_SIZE: int := 16
  /** The limit of a single stream when none, or one that is not positive, is given. */
  const DEFAULT_LIMIT: int := 10
  const DEFAULT_SENSOR_COUNT: int := 5
  const DEFAULT_TOTAL_LIMIT: int := 20

  /** `v != null && v > 0 ? v : default` for a nullable `Integer`. */
  function OrDefault(v: Option<int>, default: int): (r: int)
    requires 0 < default
    ensures 0 < r
    ensures v.Some? && 0 < v.value ==> r == v.value
    ensures !(v.Some? && 0 < v.value) ==> r == default
  {
    if v.Some? && v.value > 0 then v.value else default
  }

  /** `Math.max(1, totalLimit / count)`: the largest share of `totalLimit` per sensor, but at least one. */
  function LimitPerSensor(count: int, totalLimit: int): (r: int)
    requires 0 < count && 0 < totalLimit
    ensures 1 <= r
    ensures count <= totalLimit ==> r * count <= totalLimit < (r + 1) * count
    ensures totalLimit < count ==> r == 1
  {
    var share := JavaLang.Div(totalLimit, count);
    if share < 1 then 1 else share
  }

  /** The defaults and the per-sensor share on a few requests. */
  lemma RequestArithmetic()
    ensures OrDefault(Some(0), DEFAULT_LIMIT) == 10 && OrDefault(Some(-5), DEFAULT_LIMIT) == 10
    ensures OrDefault(None, DEFAULT_LIMIT) == 10 && OrDefault(Some(3), DEFAULT_LIMIT) == 3
    ensures OrDefault(Some(0), DEFAULT_SENSOR_COUNT) == 5
    ensures LimitPerSensor(3, 10) == 3 && LimitPerSensor(4, 20) == 5 && LimitPerSensor(30, 20) == 1
    ensures LimitPerSensor(OrDefault(None, DEFAULT_SENSOR_COUNT), OrDefault(None, DEFAULT_TOTAL_LIMIT)) == 4
  {
  }

  /** `n` copies of `x`. */
  function Repeat<T>(x: T, n: nat): (r: seq<T>)
    ensures |r| == n
    ensures forall i :: 0 <= i < n ==> r[i] == x
  {
    if n == 0 then [] else Repeat(x, n - 1) + [x]
  }

  function Flatten<T>(batches: seq<seq<T>>): seq<T> {
    if batches == [] then [] else batches[0] + Flatten(batches[1..])
  }

  /**
   * `buffer(n)`: consecutive batches of `n` elements, the last one possibly
   * shorter, together holding exactly `s`.
   */
  function Chunk<T>(s: seq<T>, n: int): (r: seq<seq<T>>)
    requires 0 < n
    ensures forall i :: 0 <= i < |r| ==> 0 < |r[i]| <= n
    ensures forall i :: 0 <= i < |r| - 1 ==> |r[i]| == n
    ensures Flatten(r) == s
    decreases |s|
  {
    if s == [] then
      []
    else if |s| <= n then
      assert Flatten([s]) == s + Flatten([]);
      [s]
    else
      var rest := Chunk(s[n..], n);
      var r := [s[..n]] + rest;
      assert r[1..] == rest;
      assert s == s[..n] + s[n..];
      r
  }

  /** The batches that are complete. */
  function FullBatches<T>(batches: seq<seq<T>>, n: int): (r: seq<seq<T>>)
    ensures forall i :: 0 <= i < |r| ==> |r[i]| == n
  {
    if batches == [] then []
    else if |batches[0]| == n then [batches[0]] + FullBatches(batches[1..], n)
    else FullBatches(batches[1..], n)
  }

  /** What the subscriber of one sensor's stream receives from the generation run `run`. */
  function Emitted(run: G.Run): seq<SensorDataDto> {
    var batches := Chunk(run.records, BATCH_SIZE);
    Flatten(if run.failed then FullBatches(batches, BATCH_SIZE) else batches)
  }

  /** On an error, the subscriber receives the longest prefix made of whole batches. */
  lemma {:induction false} FullBatchesOfChunk<T>(s: seq<T>)
    ensures Flatten(FullBatches(Chunk(s, BATCH_SIZE), BATCH_SIZE)) == s[..|s| - |s| % BATCH_SIZE]
    decreases |s|
  {
    var n := BATCH_SIZE;
    if s == [] {
    } else if |s| < n {
      assert Chunk(s, n) == [s];
      assert FullBatches([s], n) == [];
    } else if |s| == n {
      assert Chunk(s, n) == [s];
      assert FullBatches([s], n) == [s] + FullBatches([], n);
      assert Flatten([s]) == s + Flatten([]);
    } else {
      var rest := s[n..];
      var cs := Chunk(s, n);
      assert cs == [s[..n]] + Chunk(rest, n);
      assert cs[1..] == Chunk(rest, n);
      FullBatchesOfChunk(rest);
      var full := FullBatches(cs, n);
      assert full == [s[..n]] + FullBatches(Chunk(rest, n), n);
      assert full[1..] == FullBatches(Chunk(rest, n), n);
      assert Flatten(full) == s[..n] + rest[..|rest| - |rest| % n];
      assert |rest| % n == |s| % n;
      assert s[..n] + rest[..|rest| - |rest| % n] == s[..|s| - |s| % n];
    }
  }

  /**
   * A run that completes is delivered whole; a run that fails is delivered
   * up to the last complete batch of 16.
   */
  lemma EmittedRecords(run: G.Run)
    ensures !run.failed ==> Emitted(run) == run.records
    ensures run.failed ==>
      Emitted(run) == run.records[..|run.records| - |run.records| % BATCH_SIZE]
  {
    if run.failed {
      FullBatchesOfChunk(run.records);
    }
  }

  /**
   * A stream for a usable sensor generates exactly `count` samples of that
   * sensor, stamped with successive clock readings; any other sensor fails on
   * the first tick, so nothing is generated or delivered.
   */
  lemma StreamOutcome(n: G.Numerics, sensorId: int, count: nat, clock: nat -> int)
    requires 0 < count
    ensures var run := G.RunSamples(n, Repeat(sensorId, count), clock);
      && (G.Usable(sensorId) ==>
            && !run.failed && |run.records| == count
            && Emitted(run) == run.records
            && forall k :: 0 <= k < count ==>
                 run.records[k].sensorId == sensorId && run.records[k].timestamp == clock(k))
      && (!G.Usable(sensorId) ==> run == G.Run([], true) && Emitted(run) == [])
  {
    var ids := Repeat(sensorId, count);
    var run := G.RunSamples(n, ids, clock);
    G.RunSamplesShape(n, ids, clock);
    EmittedRecords(run);
    if !G.Usable(sensorId) {
      assert !G.Usable(ids[0]);
      assert G.Sample(n, ids[0], clock(0)).Failure?;
      assert Chunk<SensorDataDto>([], BATCH_SIZE) == [];
    }
  }

  /** The canonical generation order of `streamMultipleSensors`: sensor 1's `per` samples, then sensor 2's, and so on. */
  function SequentialSchedule(count: nat, per: nat): seq<int> {
    if count == 0 then [] else SequentialSchedule(count - 1, per) + Repeat(count as int, per)
  }

  lemma {:induction false} SequentialScheduleLength(count: nat, per: nat)
    ensures |SequentialSchedule(count, per)| == count * per
  {
    if count != 0 {
      SequentialScheduleLength(count - 1, per);
      assert (count - 1) * per + per == count * per;
    }
  }

  lemma {:induction false} RepeatCount(x: int, n: nat, y: int)
    ensures multiset(Repeat(x, n))[y] == if x == y then n else 0
  {
    if n != 0 {
      RepeatCount(x, n - 1, y);
    }
  }

  /** Every sensor 1..count occurs `per` times in the schedule, and no other id does. */
  lemma {:induction false} SequentialScheduleCount(count: nat, per: nat, id: int)
    ensures multiset(SequentialSchedule(count, per))[id] == if 1 <= id <= count then per else 0
  {
    if count != 0 {
      var before: nat := count - 1;
      SequentialScheduleCount(before, per, id);
      ScheduleCountStep(before, per, id);
    }
  }

  /**
   * Occurrences add up over a concatenation.  Stated over abstract
   * sequences so that `ScheduleCountStep` does not meet it among the
   * unfolded schedule terms.
   */
  lemma CountOfConcat(a: seq<int>, b: seq<int>, y: int)
    ensures multiset(a + b)[y] == multiset(a)[y] + multiset(b)[y]
  {
  }

  lemma ScheduleCountStep(before: nat, per: nat, id: int)
    requires multiset(SequentialSchedule(before, per))[id] == if 1 <= id <= before then per else 0
    ensures multiset(SequentialSchedule(before + 1, per))[id] == if 1 <= id <= before + 1 then per else 0
  {
    CountOfConcat(SequentialSchedule(before, per), Repeat(before + 1, per), id);
    RepeatCount(before + 1, per, id);
  }

  /** A sensor has as many records as its id occurs among the records' ids. */
  lemma {:induction false} OfSensorCount(ds: seq<SensorDataDto>, id: int)
    ensures |OfSensor(ds, id)| == multiset(SensorIds(ds))[id]
  {
    if ds != [] {
      OfSensorCount(ds[..|ds| - 1], id);
    }
  }

  /** Any reordering of the canonical schedule has its length and only ids from 1 up. */
  lemma ScheduleShape(count: nat, per: nat, schedule: seq<int>)
    requires multiset(schedule) == multiset(SequentialSchedule(count, per))
    ensures |schedule| == count * per
    ensures forall k :: 0 <= k < |schedule| ==> 1 <= schedule[k] <= count && G.Usable(schedule[k])
  {
    assert |multiset(schedule)| == |multiset(SequentialSchedule(count, per))|;
    SequentialScheduleLength(count, per);
    forall k | 0 <= k < |schedule|
      ensures 1 <= schedule[k] <= count
    {
      assert schedule[k] in multiset(schedule);
      SequentialScheduleCount(count, per, schedule[k]);
    }
  }

  /** Records generated along such a schedule hold `per` samples of each sensor 1..count and none of any other. */
  lemma PerSensorCounts(count: nat, per: nat, schedule: seq<int>, out: seq<SensorDataDto>)
    requires multiset(schedule) == multiset(SequentialSchedule(count, per))
    requires |out| == |schedule|
    requires forall k :: 0 <= k < |out| ==> out[k].sensorId == schedule[k]
    ensures forall id :: |OfSensor(out, id)| == if 1 <= id <= count then per else 0
  {
    assert SensorIds(out) == schedule;
    forall id
      ensures |OfSensor(out, id)| == if 1 <= id <= count then per else 0
    {
      OfSensorCount(out, id);
      SequentialScheduleCount(count, per, id);
    }
  }

  class SensorStreamService {
    const generator: G.SensorDataGenerator

    constructor (generator: G.SensorDataGenerator)
      ensures this.generator == generator
    {
      this.generator := generator;
    }

    /**
     * `streamSensorData(sensorId, limit)`: `actualLimit` ticks, each generating
     * one sample, delivered through `buffer(16)`; an error ends the stream
     * quietly.
     */
    method StreamSensorData(sensorId: int, limit: Option<int>, clock: nat -> int) returns (out: seq<SensorDataDto>)
      requires generator.Valid()
      modifies generator, generator.historyCache.Values, generator.statsCache.Values
      ensures generator.Valid()
      ensures var run := G.RunSamples(generator.numerics, Repeat(sensorId, OrDefault(limit, DEFAULT_LIMIT)), clock);
        && out == Emitted(run)
        && generator.Abstract() == G.RecordedAll(old(generator.Abstract()), run.records)
    {
      var actualLimit := OrDefault(limit, DEFAULT_LIMIT);
      var run := generator.GenerateEach(Repeat(sensorId, actualLimit), clock);
      var batches := Chunk(run.records, BATCH_SIZE);
      if run.failed {
        batches := FullBatches(batches, BATCH_SIZE);
      }
      out := Flatten(batches);
    }

    /**
     * `streamMultipleSensors(sensorCount, limit)`: sensors 1..count each
     * stream `limitPerSensor` samples.  The interleaving of the parallel
     * streams is the parameter `schedule`, the order in which the samples
     * are generated: any order holding each sensor's samples the right
     * number of times.  Ids from 1 up never fail, so each sub-stream is
     * delivered whole, and the output lists the samples in generation order.
     */
    method StreamMultipleSensors(sensorCount: Option<int>, limit: Option<int>, schedule: seq<int>, clock: nat -> int)
      returns (out: seq<SensorDataDto>)
      requires generator.Valid()
      requires multiset(schedule) == multiset(SequentialSchedule(
        OrDefault(sensorCount, DEFAULT_SENSOR_COUNT),
        LimitPerSensor(OrDefault(sensorCount, DEFAULT_SENSOR_COUNT), OrDefault(limit, DEFAULT_TOTAL_LIMIT))))
      modifies generator, generator.historyCache.Values, generator.statsCache.Values
      ensures generator.Valid()
      ensures var count := OrDefault(sensorCount, DEFAULT_SENSOR_COUNT);
        var per := LimitPerSensor(count, OrDefault(limit, DEFAULT_TOTAL_LIMIT));
        && |out| == count * per
        && (forall id :: |OfSensor(out, id)| == if 1 <= id <= count then per else 0)
        && |out| == |schedule|
        && (forall k :: 0 <= k < |out| ==> out[k].sensorId == schedule[k] && out[k].timestamp == clock(k))
      ensures out == G.RunSamples(generator.numerics, schedule, clock).records
      ensures generator.Abstract() == G.RecordedAll(old(generator.Abstract()), out)
    {
      var count := OrDefault(sensorCount, DEFAULT_SENSOR_COUNT);
      var totalLimit := OrDefault(limit, DEFAULT_TOTAL_LIMIT);
      var per := LimitPerSensor(count, totalLimit);
      ScheduleShape(count, per, schedule);
      var run := generator.GenerateEach(schedule, clock);
      G.RunSamplesShape(generator.numerics, schedule, clock);
      out := run.records;
      PerSensorCounts(count, per, schedule, out);
    }
  }
}
