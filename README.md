# Sensor data plane — a Dafny model

This project models the in-memory data plane of the sensor telemetry server:

- **`SlidingWindow`**: a bounded FIFO window. Once it holds `maxSize` elements, adding one more first evicts the oldest.
- **`TemperatureAggregator`**: a constant-space temperature summary made of sum, min, max and count.
- **`SensorDataGenerator`**: it synthesizes samples. For each sensor it keeps a window of its last 100 samples and a temperature aggregator, both under the key `"sensor_" + id`. It also keeps a global counter. It answers bulk, history and statistics requests from this state.
- **`SensorStreamService`**: it turns generation into finite streams, for one sensor or for several.

Stateful parts of the code are Dafny classes. Each class has the source's fields and `modifies`/`reads` frames:

- The window keeps its deque as a `seq` field.
- The aggregator keeps its four fields.
- The generator keeps its two caches as maps from keys to window and aggregator objects.

Every state-changing method is specified against a function on values. The generator's caches and counter are viewed as a `Snapshot`. One generation of a sample `d` is `Recorded(s, d)`, and a sequence of generations is `RecordedAll`. The lemmas prove what the program promises about these functions. After any sequence of generations:

- a sensor's window is the newest 100 of its samples;
- its aggregator summarises exactly its temperatures;
- the counter counts every sample;
- distinct sensors never share a cache entry.

Other lemmas prove the following:

- `merge` is summarising the concatenation.
- The history answer is ordered, filtered and limited.
- The bulk answer is sorted and a permutation of the request.
- Streams deliver exactly whole batches when they end in an error.

External inputs are parameters:

- The wall clock is a parameter `clock: nat -> int`. The k-th generation of a call reads `clock(k)`.
- `Math.sin`, `Math.cos` and the table-and-`sqrt` magnitude are uninterpreted functions inside a `Numerics` value.
- The interleaving of the parallel multi-sensor stream is a parameter `schedule`.

Where one might expect otherwise, the model follows the code:

- A negative sensor id that is not a multiple of 360 makes `generateSensorData` throw `ArrayIndexOutOfBoundsException`. Java's `%` keeps the dividend's sign, so the table index is negative.
- `merge` can fail to commute when the receiver is empty and the other aggregator's values all lie below `Double.MIN_VALUE`: the receiver's sentinel maximum survives (`MergedIntoEmptyNotCommutative`). It can fail to associate when the middle operand is empty (`MergedEmptyMiddleNotAssociative`). It commutes on non-empty operands (`MergedCommutative`) and associates whenever the middle operand is non-empty (`MergedAssociative`).
- `Double.MIN_VALUE` is the smallest positive double, not the most negative one. An aggregator created empty that then receives only negative values therefore reports its maximum as 2^-1074 (`SentinelMasksNegativeMaximum`). Every aggregator the generator creates starts empty (SensorDataGenerator.java:93). `new TemperatureAggregator(v)` starts with `max = v` and is not affected.
- `generateHistoryData` always throws (see Findings).
- `onBackpressureBuffer(512)` holds up to 512 batches for a slow subscriber and signals an error when full. It does not drop the oldest items.

Modules: `Wrappers`, `JavaLang`, `Dto`, `SlidingWindows`, `TemperatureAggregators`, `Sorting`, `SensorDataGenerators` and `SensorStreamServices`, one file each.

## Model

| member | source | states |
|---|---|---|
| JavaLang.Div | src/main/java/com/sensordata/service/SensorDataGenerator.java:55 | `timestamp / 1000` truncates toward zero: the bracketing `q*b <= a < (q+1)*b` for non-negative and `(q-1)*b < a <= q*b` for negative dividends |
| JavaLang.Rem | src/main/java/com/sensordata/service/SensorDataGenerator.java:63-64 | `sensorId % 360` and `% 45`: `a == Div(a,b)*b + r`, the remainder in `[0,b)` for non-negative and in `(-b,0]` for negative ids |
| JavaLang.NatToString | src/main/java/com/sensordata/service/SensorDataGenerator.java:88 | the decimal form of a long in the cache key is a non-empty string of digits |
| JavaLang.LongToStringRoundTrip | src/main/java/com/sensordata/service/SensorDataGenerator.java:88 | parsing `Long.toString(n)` back gives `n` |
| JavaLang.LongToStringInjective | src/main/java/com/sensordata/service/SensorDataGenerator.java:88 | different longs print differently |
| Dto.OfSensor | src/main/java/com/sensordata/service/SensorDataGenerator.java:129 | `filter(getSensorId().equals(sensorId))`: only records of the sensor, exactly those of the input with that id, never more than the input |
| Dto.SensorIds | src/main/java/com/sensordata/dto/SensorDataDto.java:14-15 | the `sensorId` of each record, position by position |
| SlidingWindows.Added | src/main/java/com/sensordata/util/SlidingWindow.java:32-40 | after `add(x)` the window holds `min(size+1, maxSize)` elements and `x` is the newest |
| SlidingWindows.AddedIsNewest | src/main/java/com/sensordata/util/SlidingWindow.java:32-40 | `add(x)` keeps exactly the newest `maxSize` elements of the old contents followed by `x` |
| SlidingWindows.AddedAll | src/main/java/com/sensordata/util/SlidingWindow.java:32-40 | any number of adds never exceeds the capacity |
| SlidingWindows.NewestOfNewest | src/main/java/com/sensordata/util/SlidingWindow.java:32-40 | keeping the newest n before appending and again after is keeping the newest n of everything |
| SlidingWindows.AddedAllKeepsNewest | src/main/java/com/sensordata/util/SlidingWindow.java:32-40 | after any sequence of adds the window is the most recent `maxSize` elements of everything given, oldest first |
| SlidingWindows.SlidingWindow.constructor | src/main/java/com/sensordata/util/SlidingWindow.java:20-26 | an empty window with the given capacity, valid when the capacity is positive |
| SlidingWindows.SlidingWindow.Create | src/main/java/com/sensordata/util/SlidingWindow.java:20-26 | fails with `IllegalArgumentException` exactly when `maxSize <= 0`; otherwise a fresh, empty, valid window of that capacity |
| SlidingWindows.SlidingWindow.Add | src/main/java/com/sensordata/util/SlidingWindow.java:32-40 | the new contents are `Added(old contents, x, maxSize)`, the bound is kept, and it returns true |
| SlidingWindows.SlidingWindow.Size | src/main/java/com/sensordata/util/SlidingWindow.java:57-61 | the number of elements, never above the capacity |
| SlidingWindows.SlidingWindow.GetMaxSize | src/main/java/com/sensordata/util/SlidingWindow.java:66-68 | the capacity given at construction, which is positive for a valid window |
| SlidingWindows.SlidingWindow.Get | src/main/java/com/sensordata/util/SlidingWindow.java:73-83 | `IndexOutOfBoundsException` exactly when the index is negative or not below `size()`; otherwise the element at that position counted from the oldest |
| SlidingWindows.SlidingWindow.Clear | src/main/java/com/sensordata/util/SlidingWindow.java:89-93 | the window is empty afterwards and stays valid |
| SlidingWindows.SlidingWindow.ToList | src/main/java/com/sensordata/util/SlidingWindow.java:98-102 | a copy of the contents, oldest first |
| SlidingWindows.SlidingWindow.Contains | src/main/java/com/sensordata/util/SlidingWindow.java:108-112 | true exactly when some position holds the element |
| SlidingWindows.SnapshotThenAdd | src/main/java/com/sensordata/util/SlidingWindow.java:46-51 | a list taken before `add(x)` is the old contents and is unaffected by it, and afterwards the newest element is `x` |
| TemperatureAggregators.Added | src/main/java/com/sensordata/util/TemperatureAggregator.java:38-43 | `add(v)` raises the count by one and the sum by `v`, lowers `min` to at most `v` and raises `max` to at least `v`, each either kept or replaced by `v` |
| TemperatureAggregators.Average | src/main/java/com/sensordata/util/TemperatureAggregator.java:48-50 | 0 with no values, otherwise the number whose product with the count is the sum |
| TemperatureAggregators.AddedAllSnoc | src/main/java/com/sensordata/util/TemperatureAggregator.java:38-43 | adding one more value after a sequence is one more `add` |
| TemperatureAggregators.FoldSummarises | src/main/java/com/sensordata/util/TemperatureAggregator.java:28-43 | after any adds to an empty aggregator: count and sum are those of the values, `min`/`max` bound every value, and each is one of the values or its sentinel |
| TemperatureAggregators.AddedAllBounds | src/main/java/com/sensordata/util/TemperatureAggregator.java:38-43 | after any adds from any state, count and sum grow by the values', `min` never rises, `max` never falls, and both bound every value added |
| TemperatureAggregators.InitialValueBounds | src/main/java/com/sensordata/util/TemperatureAggregator.java:18-23 | an aggregator started with `v` and given more values counts and sums all of them, and `getMin()`/`getMax()` bound `v` and every value |
| TemperatureAggregators.ReportedBounds | src/main/java/com/sensordata/util/TemperatureAggregator.java:55-64 | once something was added, `getMin()` and `getMax()` bound every value |
| TemperatureAggregators.SumBounds | src/main/java/com/sensordata/util/TemperatureAggregator.java:39 | values within `[lo, hi]` have a sum within `[n*lo, n*hi]` |
| TemperatureAggregators.MeanBounds | src/main/java/com/sensordata/util/TemperatureAggregator.java:48-50 | the mean of values within `[lo, hi]` is within `[lo, hi]` |
| TemperatureAggregators.AverageBetween | src/main/java/com/sensordata/util/TemperatureAggregator.java:48-64 | `getMin() <= getAverage() <= getMax()` once something was added |
| TemperatureAggregators.EmptyReportsZero | src/main/java/com/sensordata/util/TemperatureAggregator.java:48-64 | with no values, average, min and max all report 0 |
| TemperatureAggregators.SentinelMasksNegativeMaximum | src/main/java/com/sensordata/util/TemperatureAggregator.java:28-33 | adding -5 to an empty aggregator reports a maximum of `Double.MIN_VALUE`, unlike `new TemperatureAggregator(-5)` |
| TemperatureAggregators.MergedFold | src/main/java/com/sensordata/util/TemperatureAggregator.java:93-99 | merging the summaries of two sequences is the summary of their concatenation |
| TemperatureAggregators.MergedEmptyIdentity | src/main/java/com/sensordata/util/TemperatureAggregator.java:94 | merging an empty aggregator changes nothing |
| TemperatureAggregators.MergedAssociative | src/main/java/com/sensordata/util/TemperatureAggregator.java:93-99 | merge is associative when the middle operand is non-empty |
| TemperatureAggregators.MergedEmptyMiddleNotAssociative | src/main/java/com/sensordata/util/TemperatureAggregator.java:93-99 | with an empty middle operand the two groupings differ in `max` |
| TemperatureAggregators.MergedCommutative | src/main/java/com/sensordata/util/TemperatureAggregator.java:93-99 | merge commutes on non-empty operands |
| TemperatureAggregators.MergedIntoEmptyNotCommutative | src/main/java/com/sensordata/util/TemperatureAggregator.java:93-99 | merging into an empty aggregator differs from merging an empty one |
| TemperatureAggregators.TenTwentyThirty | src/main/java/com/sensordata/util/TemperatureAggregator.java:38-64 | adding 10, 20, 30 gives count 3, sum 60, min 10, max 30, average 20 |
| TemperatureAggregators.TemperatureAggregator.WithInitialValue | src/main/java/com/sensordata/util/TemperatureAggregator.java:18-23 | sum, min, max are the value and count is 1 |
| TemperatureAggregators.TemperatureAggregator.constructor | src/main/java/com/sensordata/util/TemperatureAggregator.java:28-33 | sum 0, min `Double.MAX_VALUE`, max `Double.MIN_VALUE`, count 0 |
| TemperatureAggregators.TemperatureAggregator.Add | src/main/java/com/sensordata/util/TemperatureAggregator.java:38-43 | the new fields are `Added(old fields, value)` |
| TemperatureAggregators.TemperatureAggregator.GetAverage | src/main/java/com/sensordata/util/TemperatureAggregator.java:48-50 | 0 when the count is 0, otherwise the quotient of sum by count |
| TemperatureAggregators.TemperatureAggregator.GetMin | src/main/java/com/sensordata/util/TemperatureAggregator.java:55-57 | 0 when the count is 0, otherwise the `min` field |
| TemperatureAggregators.TemperatureAggregator.GetMax | src/main/java/com/sensordata/util/TemperatureAggregator.java:62-64 | 0 when the count is 0, otherwise the `max` field |
| TemperatureAggregators.TemperatureAggregator.Reset | src/main/java/com/sensordata/util/TemperatureAggregator.java:83-88 | back to the empty state with both sentinels |
| TemperatureAggregators.TemperatureAggregator.Merge | src/main/java/com/sensordata/util/TemperatureAggregator.java:93-99 | the new fields are `Merged(old fields, old other fields)`, including `a.merge(a)`; a distinct `other` is unchanged |
| Sorting.PrefixSorted | src/main/java/com/sensordata/service/SensorDataGenerator.java:130 | a prefix of a sorted sequence is sorted |
| Sorting.SuffixSorted | src/main/java/com/sensordata/service/SensorDataGenerator.java:130 | a suffix of a sorted sequence is sorted |
| Sorting.InsertPermutes | src/main/java/com/sensordata/service/SensorDataGenerator.java:130 | inserting adds exactly that element |
| Sorting.InsertBounded | src/main/java/com/sensordata/service/SensorDataGenerator.java:130 | inserting keeps a common upper bound on the keys |
| Sorting.InsertSorted | src/main/java/com/sensordata/service/SensorDataGenerator.java:130 | inserting into a sorted sequence keeps it sorted |
| Sorting.SortBy | src/main/java/com/sensordata/service/SensorDataGenerator.java:111-113 | `sorted()` and `sorted(comparingLong(...))`: the result is ordered by key and is a permutation of the input |
| Sorting.SortBySortedIsIdentity | src/main/java/com/sensordata/service/SensorDataGenerator.java:130 | input already in key order comes back unchanged |
| SensorDataGenerators.MultipleOf360IsMultipleOf45 | src/main/java/com/sensordata/service/SensorDataGenerator.java:63-64 | a zero remainder modulo 360 is a zero remainder modulo 45, so the tangent index is negative only when the cosine index is |
| SensorDataGenerators.Sample | src/main/java/com/sensordata/service/SensorDataGenerator.java:50-103 | fails with `ArrayIndexOutOfBoundsException` exactly when `sensorId < 0` and `sensorId % 360 != 0`; otherwise the record carries the id and the clock reading, and is flagged anomalous exactly when a quantity is more than 35 from its baseline |
| SensorDataGenerators.BoundedTrigNeverAnomalous | src/main/java/com/sensordata/service/SensorDataGenerator.java:58-74 | with `sin` and `cos` in [-1, 1], no sample of a usable id is an anomaly |
| SensorDataGenerators.KeyInjective | src/main/java/com/sensordata/service/SensorDataGenerator.java:88 | two sensors share a cache key only when they are the same sensor |
| SensorDataGenerators.HistoryAdded | src/main/java/com/sensordata/service/SensorDataGenerator.java:89-90 | adding to the history cache keeps every window within 100 and adds the key |
| SensorDataGenerators.StatsAdded | src/main/java/com/sensordata/service/SensorDataGenerator.java:93-94 | adding to the stats cache adds the key |
| SensorDataGenerators.HistoryAddedToNew | src/main/java/com/sensordata/service/SensorDataGenerator.java:89-90 | `computeIfAbsent` then `add` is adding to an absent window |
| SensorDataGenerators.StatsAddedToNew | src/main/java/com/sensordata/service/SensorDataGenerator.java:93-94 | `computeIfAbsent` then `add` is adding to an absent aggregator |
| SensorDataGenerators.Recorded | src/main/java/com/sensordata/service/SensorDataGenerator.java:88-96 | one generation keeps every window within capacity |
| SensorDataGenerators.RecordedEffects | src/main/java/com/sensordata/service/SensorDataGenerator.java:88-96 | generating `d`: its sensor's window gets `d` as newest, its aggregator the temperature, the counter goes up by one, and no other sensor's window or aggregator changes |
| SensorDataGenerators.RecordedWindow | src/main/java/com/sensordata/service/SensorDataGenerator.java:89-90 | a generation changes only its own sensor's window |
| SensorDataGenerators.RecordedStats | src/main/java/com/sensordata/service/SensorDataGenerator.java:93-94 | a generation changes only its own sensor's aggregator |
| SensorDataGenerators.RecordedAllTotal | src/main/java/com/sensordata/service/SensorDataGenerator.java:96 | the counter rises by the number of generations |
| SensorDataGenerators.OfSensorSnoc | src/main/java/com/sensordata/service/SensorDataGenerator.java:129 | filtering distributes over appending one record |
| SensorDataGenerators.AddedToNewest | src/main/java/com/sensordata/service/SensorDataGenerator.java:89-90 | adding to a window of the newest 100 is taking the newest 100 after appending |
| SensorDataGenerators.RecordedWindowStep | src/main/java/com/sensordata/service/SensorDataGenerator.java:89-90 | one more generation keeps a window equal to the newest 100 of its sensor's samples |
| SensorDataGenerators.RecordedAllWindow | src/main/java/com/sensordata/service/SensorDataGenerator.java:89-90 | after any generations a sensor's window is the newest 100 of its old contents followed by its new samples |
| SensorDataGenerators.RecordedAllStats | src/main/java/com/sensordata/service/SensorDataGenerator.java:93-94 | after any generations a sensor's aggregator has absorbed exactly its temperatures, in order |
| SensorDataGenerators.Temperatures | src/main/java/com/sensordata/service/SensorDataGenerator.java:94 | the temperature of each record, position by position |
| SensorDataGenerators.RunSamples | src/main/java/com/sensordata/service/SensorDataGenerator.java:111-113 | calling `generateSensorData` per id until one throws: the records are the successful samples in order, and a failure means the next id's sample fails |
| SensorDataGenerators.RunSamplesShape | src/main/java/com/sensordata/service/SensorDataGenerator.java:111-113 | a run fails exactly when some id is unusable; each record carries its id and the k-th clock reading |
| SensorDataGenerators.Limit | src/main/java/com/sensordata/service/SensorDataGenerator.java:131 | a positive limit keeps the first `min(n, limit)` elements; a limit that is not positive keeps all |
| SensorDataGenerators.HistoryShape | src/main/java/com/sensordata/service/SensorDataGenerator.java:128-132 | the history is in timestamp order, holds only the sensor's records from the window, and as many as the limit allows; without a limit it is a permutation of them |
| SensorDataGenerators.HistoryOfOrderedWindow | src/main/java/com/sensordata/service/SensorDataGenerator.java:128-132 | a window already in timestamp order comes back as stored, up to the limit |
| SensorDataGenerators.OfSensorAll | src/main/java/com/sensordata/service/SensorDataGenerator.java:129 | filtering records all of the sensor keeps them all |
| SensorDataGenerators.SamplesSnoc | src/main/java/com/sensordata/service/SensorDataGenerator.java:113 | one more successful sample extends the successful prefix |
| SensorDataGenerators.RunSamplesDetermined | src/main/java/com/sensordata/service/SensorDataGenerator.java:111-113 | the run is the longest prefix of successful samples, failing when one stops it |
| SensorDataGenerators.HistoryOfMonotoneSamples | src/main/java/com/sensordata/service/SensorDataGenerator.java:122-132 | with a clock that never goes back, a new generator's history of a sensor without limit is exactly its newest 100 samples, as generated |
| SensorDataGenerators.HistoryAfterGenerations | src/main/java/com/sensordata/service/SensorDataGenerator.java:122-132 | from a new generator, the history is the sensor's newest 100 samples sorted by timestamp and limited |
| SensorDataGenerators.WindowAfterGenerations | src/main/java/com/sensordata/service/SensorDataGenerator.java:89-90 | from a new generator, a sensor's window is the newest 100 of its samples |
| SensorDataGenerators.NewestOfOneSensor | src/main/java/com/sensordata/service/SensorDataGenerator.java:129 | filtering the newest samples of one sensor by that sensor keeps them |
| SensorDataGenerators.HistoryOfSampledSensor | src/main/java/com/sensordata/service/SensorDataGenerator.java:122-132 | a sensor that has been sampled has a non-empty unlimited history |
| SensorDataGenerators.StatsAfterGenerations | src/main/java/com/sensordata/service/SensorDataGenerator.java:93-94 | from a new generator, a sensor's aggregator is the summary of exactly its temperatures |
| SensorDataGenerators.TotalAfterGenerations | src/main/java/com/sensordata/service/SensorDataGenerator.java:96 | from a new generator, the counter is the number of samples generated |
| SensorDataGenerators.BulkDataFails | src/main/java/com/sensordata/service/SensorDataGenerator.java:111-113 | the bulk run fails exactly when some requested id is unusable |
| SensorDataGenerators.BulkDataOrder | src/main/java/com/sensordata/service/SensorDataGenerator.java:111-116 | when it succeeds: one record per requested id, a permutation of the request, in ascending id order, the k-th stamped with the k-th clock reading |
| SensorDataGenerators.RecordsFollowIds | src/main/java/com/sensordata/service/SensorDataGenerator.java:112-113 | records carrying a sorted list of ids are in ascending id order |
| SensorDataGenerators.UnusableCarriesOver | src/main/java/com/sensordata/service/SensorDataGenerator.java:112 | a permutation keeps an unusable id |
| SensorDataGenerators.GetOrDefault | src/main/java/com/sensordata/service/SensorDataGenerator.java:149 | the mapped value when the key is present, the default otherwise |
| SensorDataGenerators.SensorDataGenerator.constructor | src/main/java/com/sensordata/service/SensorDataGenerator.java:27-48 | both caches empty and the counter 0 |
| SensorDataGenerators.SensorDataGenerator.CreateWindow | src/main/java/com/sensordata/service/SensorDataGenerator.java:89 | `computeIfAbsent` creates a fresh empty window for the key and touches nothing else |
| SensorDataGenerators.SensorDataGenerator.AddToWindow | src/main/java/com/sensordata/service/SensorDataGenerator.java:90 | the key's window becomes `Added(...)`, no other window changes |
| SensorDataGenerators.SensorDataGenerator.AddToHistory | src/main/java/com/sensordata/service/SensorDataGenerator.java:89-90 | the window contents become `HistoryAdded(old contents, key, data)` |
| SensorDataGenerators.SensorDataGenerator.CreateAggregator | src/main/java/com/sensordata/service/SensorDataGenerator.java:93 | `computeIfAbsent` creates a fresh empty aggregator for the key and touches nothing else |
| SensorDataGenerators.SensorDataGenerator.AddToAggregator | src/main/java/com/sensordata/service/SensorDataGenerator.java:94 | the key's aggregator absorbs the temperature, no other aggregator changes |
| SensorDataGenerators.SensorDataGenerator.AddToStats | src/main/java/com/sensordata/service/SensorDataGenerator.java:93-94 | the aggregator states become `StatsAdded(old states, key, temperature)` |
| SensorDataGenerators.SensorDataGenerator.CountSample | src/main/java/com/sensordata/service/SensorDataGenerator.java:96 | the counter goes up by one and neither cache changes |
| SensorDataGenerators.SensorDataGenerator.Record | src/main/java/com/sensordata/service/SensorDataGenerator.java:87-96 | the state becomes `Recorded(old state, data)` |
| SensorDataGenerators.SensorDataGenerator.GenerateSensorData | src/main/java/com/sensordata/service/SensorDataGenerator.java:50-103 | returns `Sample(...)`; on success the state is `Recorded(old state, sample)`, on failure it is unchanged |
| SensorDataGenerators.SensorDataGenerator.GenerateEach | src/main/java/com/sensordata/service/SensorDataGenerator.java:111-113 | the run is `RunSamples(ids)` and the state is `RecordedAll(old state, run.records)` |
| SensorDataGenerators.SensorDataGenerator.GenerateBulkData | src/main/java/com/sensordata/service/SensorDataGenerator.java:105-120 | succeeds exactly when the sorted run does; then `data` is its records, `count` the number of ids and `timestamp` the next clock reading; the samples before a failure stay recorded |
| SensorDataGenerators.SensorDataGenerator.GenerateHistoryData | src/main/java/com/sensordata/service/SensorDataGenerator.java:122-133 | corrected: `History(window of the key, sensorId, limit)`, an absent window reading as empty |
| SensorDataGenerators.SensorDataGenerator.GenerateHistoryDataAsWritten | src/main/java/com/sensordata/service/SensorDataGenerator.java:124 | as written: always fails with `IllegalArgumentException` |
| SensorDataGenerators.SensorDataGenerator.ClearHistory | src/main/java/com/sensordata/service/SensorDataGenerator.java:135-139 | both caches empty, the counter kept |
| SensorDataGenerators.SensorDataGenerator.GetTotalGeneratedSensors | src/main/java/com/sensordata/service/SensorDataGenerator.java:141-143 | the counter |
| SensorDataGenerators.SensorDataGenerator.GetTemperatureStats | src/main/java/com/sensordata/service/SensorDataGenerator.java:148-150 | the sensor's live aggregator, or a fresh empty one not put into the cache |
| SensorDataGenerators.SensorDataGenerator.GetAllStatistics | src/main/java/com/sensordata/service/SensorDataGenerator.java:155-157 | a map with the same keys and the same aggregator objects |
| SensorDataGenerators.HistoryAfterOneSample | src/main/java/com/sensordata/service/SensorDataGenerator.java:122-133 | right after sampling sensor 1, the as-written history throws while the intended one is non-empty and all sensor 1 |
| SensorStreamServices.OrDefault | src/main/java/com/sensordata/service/SensorStreamService.java:34 | the value when present and positive, the default otherwise; always positive |
| SensorStreamServices.LimitPerSensor | src/main/java/com/sensordata/service/SensorStreamService.java:57 | at least 1; when `count <= totalLimit` the largest share with `r*count <= totalLimit`; 1 otherwise |
| SensorStreamServices.RequestArithmetic | src/main/java/com/sensordata/service/SensorStreamService.java:34-57 | the defaults 10, 5, 20 and the shares for a few requests, 4 per sensor by default |
| SensorStreamServices.Repeat | src/main/java/com/sensordata/service/SensorStreamService.java:36-38 | the ids of `take(n)` ticks of one sensor: n copies |
| SensorStreamServices.Chunk | src/main/java/com/sensordata/service/SensorStreamService.java:40 | `buffer(16)`: non-empty batches of at most 16, all but the last full, together the input |
| SensorStreamServices.FullBatches | src/main/java/com/sensordata/service/SensorStreamService.java:40 | only complete batches of 16 |
| SensorStreamServices.FullBatchesOfChunk | src/main/java/com/sensordata/service/SensorStreamService.java:40-42 | the complete batches flatten to the input without its trailing partial batch |
| SensorStreamServices.EmittedRecords | src/main/java/com/sensordata/service/SensorStreamService.java:36-49 | a completed run is delivered whole; a failed one up to its last complete batch |
| SensorStreamServices.StreamOutcome | src/main/java/com/sensordata/service/SensorStreamService.java:31-50 | a usable sensor's stream delivers exactly `count` of its samples at successive clock readings; any other fails on the first tick and delivers nothing |
| SensorStreamServices.SequentialScheduleLength | src/main/java/com/sensordata/service/SensorStreamService.java:59-63 | sensors 1..count with `per` samples each make `count*per` generations |
| SensorStreamServices.RepeatCount | src/main/java/com/sensordata/service/SensorStreamService.java:38 | n copies of x hold x n times and nothing else |
| SensorStreamServices.SequentialScheduleCount | src/main/java/com/sensordata/service/SensorStreamService.java:59-63 | every sensor 1..count occurs `per` times and no other id occurs |
| SensorStreamServices.ScheduleCountStep | src/main/java/com/sensordata/service/SensorStreamService.java:59-63 | adding sensor `count+1`'s samples adds `per` occurrences of it only |
| SensorStreamServices.OfSensorCount | src/main/java/com/sensordata/service/SensorStreamService.java:63 | a sensor has as many records as its id occurs |
| SensorStreamServices.ScheduleShape | src/main/java/com/sensordata/service/SensorStreamService.java:59-64 | any interleaving has `count*per` ids, all within 1..count, so all usable |
| SensorStreamServices.PerSensorCounts | src/main/java/com/sensordata/service/SensorStreamService.java:59-64 | records along any interleaving hold `per` samples of each sensor 1..count and none of any other |
| SensorStreamServices.SensorStreamService.constructor | src/main/java/com/sensordata/service/SensorStreamService.java:22-24 | the service wraps the given generator |
| SensorStreamServices.SensorStreamService.StreamSensorData | src/main/java/com/sensordata/service/SensorStreamService.java:31-50 | delivers `Emitted(RunSamples(actualLimit copies of the id))`, with `actualLimit` defaulting to 10; the generator state is `RecordedAll` of every sample generated |
| SensorStreamServices.SensorStreamService.StreamMultipleSensors | src/main/java/com/sensordata/service/SensorStreamService.java:52-68 | exactly the samples `generateSensorData` produces along the schedule (`RunSamples(numerics, schedule, clock).records`): `count*per` records, `per` of each sensor 1..count and none of any other, in the schedule's order with successive clock readings; the generator state is `RecordedAll` of them |

## Left out

- Trigonometry and magnitude: the `COS_TABLE`/`SIN_TABLE`/`TAN_TABLE` values, `Math.sin`, `Math.cos`, `Math.tan` and `Math.sqrt` are uninterpreted functions in `Numerics`. Only the table indices, and hence the exception, are modelled exactly.
- Floating point: doubles are exact reals. IEEE rounding, infinities and NaN are not modelled. The `Double.MAX_VALUE` and `Double.MIN_VALUE` sentinels are kept as their exact values.
- Clock: `System.currentTimeMillis()` is the parameter `clock`. The timing reads and the duration logged by `generateSensorData` are left out.
- Logging: `log.debug`, `log.info` and the `doOn*` logging hooks are side effects that do not affect results.
- Concurrency: `synchronized` blocks, `ConcurrentHashMap` atomicity and the `volatile` counter are not modelled. Every operation is one atomic step, so concurrent increments that could be lost are not covered.
- Integer width: the counter, the timestamps, the aggregator's `long count` and the `Long` sensor id are unbounded. A `long` overflow after 2^63 samples is not modelled.
- Nulls: a `null` sensor id or `null` elements would raise `NullPointerException`. The model does not represent nulls, except for the nullable `Integer` parameters of the stream service, which are `Option`.
- `SlidingWindow.iterator()` hands out a copy of the contents; it is covered by `ToList` and `SnapshotThenAdd`. The `AbstractCollection` methods it inherits are not modelled.
- `TemperatureAggregator.toString()` is not modelled; it only formats the accessors.
- TemperatureAggregators.TemperatureAggregator.GetSum: a plain field read with no contract of its own. `State()` exposes the field to every other contract.
- TemperatureAggregators.TemperatureAggregator.GetCount: a plain field read with no contract of its own. `State()` exposes the field to every other contract.
- Sorting.SortBy: the insertion sort is stable, as `Stream.sorted` is, but no contract states it. With tied timestamps the order of the history depends on it.
- Reactor timing: `Flux.interval(100 ms)` is modelled as one generation per tick, with no delay. Cancellation by the subscriber is not modelled.
- `onBackpressureBuffer(512)`: with a subscriber that keeps up, the operator changes nothing. Its overflow error for a slow subscriber is not modelled.
- SensorStreamServices.SensorStreamService.StreamMultipleSensors: `parallel(4)`, `runOn` and `sequential()` scheduling is not modelled. The order in which samples are generated is the parameter `schedule`, and the output is stated in that order. The real merge may deliver batches in a different order than they were generated.
- The controllers, the client tier, the entity, the configuration and the exception handler are not part of this model.

## Findings

| source | as written | input that shows it | evidently intended | confidence | as-written member | corrected member |
|---|---|---|---|---|---|---|
| src/main/java/com/sensordata/service/SensorDataGenerator.java:124 | `getOrDefault(key, new SlidingWindow<>(0))` builds its default before the lookup, and the constructor rejects capacity 0, so `generateHistoryData` always throws `IllegalArgumentException` | `generateSensorData(1)` then `generateHistoryData(1, 0)`, shown by `SensorDataGenerators.HistoryAfterOneSample` | a sensor without a window has an empty history, and one with a window gets its filtered, sorted, limited samples | not executed | SensorDataGenerators.SensorDataGenerator.GenerateHistoryDataAsWritten | SensorDataGenerators.SensorDataGenerator.GenerateHistoryData |
