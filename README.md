# Well-pump monitor: a verified model of the sensing and forwarding core

This project models the sensing and forwarding core of an ESP32 well-pump monitor:

- SensorManager reads an AHT10 temperature/humidity sensor and three ADS1115 channels. The channels carry well pressure and two pump-motor currents.
- Each reading goes through a NoiseFilter, a rolling window with outlier rejection.
- DataCollector summarises the filters once a minute into an aggregate record.
- EventDetector watches the latest sample for alarm conditions: high motor current, low pressure, low pump-house temperature and sensor faults. The first three are debounced and have hysteresis.
- The aggregate records go to a REST API client and a MongoDB Data API client. Each client has a store-and-forward ring buffer and exponential reconnection backoff.

Hardware, RTOS and network calls become parameters:

- the AHT event or channel voltage a read would get;
- whether a mutex was taken in time or a task was created;
- the HTTP status code each request returns;
- `millis()`, passed as `now`.

## Layout

| file | module | models |
|---|---|---|
| `text.dfy` | `Wrappers`, `Text` | `Option`; decimal rendering of numbers as Arduino's `String(n)` does it, its inverse, and comma joining |
| `noise_filter.dfy` | `NoiseFilter` | `FilterState` with `Offer`/`Insert`/`Store`/`Refresh` as the specification; class `Filter` over an `array<real>`, proved against it |
| `sensor_manager.dfy` | `SensorManager` | `SensorState` with one function per read; class `Manager` proved against them |
| `data_collector.dfy` | `DataCollector` | `SensorData`, `AggregatedData`, the sampling step `Sample`, the queue `Enqueue`, `DutyCycle` and `Summarize`; class `Collector` holding five `Filter` objects |
| `event_detector.dfy` | `EventDetector` | the event list functions, `Debounce` and the four checks, the list invariant `Consistent`, `Run`; class `Detector` over a ten-slot `array<Event>` |
| `delivery.dfy` | `Delivery` | what both clients share: the slot ring (`Added`, `Scan`, `Processed`, class `SlotBuffer`), `Backoff`, the link (`Probe`, `Reconnect`, `Update`) and `ConnectionStatus` |
| `api_client.dfy` | `ApiClient` | `WellPumpAPIClient` as class `Client` |
| `mongo_client.dfy` | `MongoClient` | `WellPumpMongoClient` as class `Client` |

Each imperative class keeps its source fields as Dafny fields:

- A ghost `State()` gathers them into a datatype.
- Every state-changing method states its new `State()` as a specification function of the old one.
- The properties are lemmas about those functions.

## Behaviour the proofs bring out

The model follows the code as written, including its quirks. Each quirk below is a proved lemma or method contract:

- **The duty cycle is all-or-nothing.** `calculateDutyCycle` asks every iteration for the same `getAverage()`. So the count of "above" iterations is either 0 or all of them, and the result is 0 % or 100 % (`DataCollector.DutyCycle`, `DataCollector.AllOrNothing`, `DataCollector.Collector.CalculateDutyCycle`).
- **The sensor-error event is never raised through `update()`.** `getCurrentData` succeeds only for a valid sample, and `update()` returns early otherwise. So `checkSensorHealth` never sees an invalid sample (`EventDetector.SensorErrorNeverRaised`).
- **`addEvent`'s eviction is unreachable.** Each tracked type occurs at most once, so the list never holds more than four records (`EventDetector.AtMostFourEvents`).
- **Humidity is never validated on the usual path.** `readTemperature` caches the humidity of the same AHT event without validating it. The `readHumidity` call that follows in the same sampling step, within 5 s, returns that value from the cache (`SensorManager.HumidityFollowsTemperature`, `SensorManager.UnvalidatedHumidityWitness`, `DataCollector.HumidityTakenFromTemperatureRead`).
- **Reads answer from the cache during the first 5 s.** `lastTempRead` starts at 0, so for the first five seconds after construction both AHT reads report a cached 0 and succeed, even with the sensor uninitialised (`SensorManager.BootWindow`, `SensorManager.AhtCacheWindow`).
- **`bufferedCount` can overstate what is waiting.** A record can overwrite a slot that is still waiting while the count is below capacity. The count then no longer matches the valid slots. Once the waiting records are gone, `processBuffer` reports success and the count never drains (`Delivery.AddedPhantom`, `Delivery.ProcessPhantom`, `Delivery.ProcessStuck`, `Delivery.PhantomReachable`).
- **The API client's five-minute cap never applies.** 5000 · 2^4 = 80000 ms is the most it ever waits (`ApiClient.RetryDelays`). The MongoDB client does reach its cap, from the fourth failure on (`MongoClient.RetryDelays`).
- **A failed `begin` leaves resources allocated.** When a task fails to start, the inner `stop()` finds the collector not running and returns at once, so the queue and the mutex stay allocated. When the mutex cannot be created, the queue is deleted but its handle is not cleared (`DataCollector.Collector.Begin`).
- **An activated event's duration starts at the arming time.** It is set to `now − timer` on the evaluation that activates it (`EventDetector.DebounceActivates`).
- **The constructor does not clamp the smoothing factor.** `setSmoothingFactor` clamps to [0.01, 1.0] (`NoiseFilter.Filter.constructor`, `NoiseFilter.Filter.SetSmoothingFactor`).

Two places where the code does something other than its surroundings suggest; the model follows the code:

- The comment at src/NoiseFilter.cpp:42 says the first 3 samples skip the outlier test, but the test `samplesCount > 3` at src/NoiseFilter.cpp:43 exempts four (`NoiseFilter.BootstrapAcceptsAll`).
- `readCurrent2` (src/SensorManager.cpp:177-197), unlike the other ADC reads, has no rate limit and no cached shortcut (`SensorManager.CurrentReads`).

## Model

| member | source | states |
|---|---|---|
| `Text.ParseDecimalString` | src/MongoDBClient.cpp:270-275 | reading back the decimal text of a number gives the number |
| `Text.DecimalStringInjective` | src/MongoDBClient.cpp:270-275 | two numbers with the same decimal text are equal |
| `Text.DecimalStringZero` | src/APIClient.cpp:300-312 | only 0 is written "0" |
| `Text.JoinCommaSnoc` | src/EventDetector.cpp:90-112 | the `first` flag puts ", " only between neighbours |
| `Text.DecimalString` | src/EventDetector.cpp:119 | `String(n)` of an unsigned number: at least one decimal digit, no leading zero (its inverse is `Text.ParseDecimal`, by `Text.ParseDecimalString`) |
| `Text.JoinComma` | src/EventDetector.cpp:94-108 | the active names joined with ", " between neighbours; how one more part extends it is `Text.JoinCommaSnoc` |
| `NoiseFilter.Constrain` | src/NoiseFilter.cpp:121-123 | the result lies in [lo, hi]; it is x inside the range and the nearer end outside |
| `NoiseFilter.Minimum` | src/NoiseFilter.cpp:72-83 | 0 for an empty window; otherwise an element of the window and no greater than any element |
| `NoiseFilter.Maximum` | src/NoiseFilter.cpp:85-96 | 0 for an empty window; otherwise an element of the window and no smaller than any element |
| `NoiseFilter.MeanBetweenMinAndMax` | src/NoiseFilter.cpp:57-96 | for a non-empty window, min ≤ average ≤ max |
| `NoiseFilter.MeanSquareNonNegative` | src/NoiseFilter.cpp:98-107 | the mean of squares under getRMS's square root is never negative |
| `NoiseFilter.Empty` | src/NoiseFilter.cpp:25-35 | the reset state is well formed, has the requested capacity and an empty window |
| `NoiseFilter.Store` | src/NoiseFilter.cpp:47-52 | one write keeps the ring's index/count bookkeeping well formed |
| `NoiseFilter.Refresh` | src/NoiseFilter.cpp:137-150 | updateStatistics leaves slots, index and count alone |
| `NoiseFilter.NonFiniteIgnored` | src/NoiseFilter.cpp:38-40 | NaN and the infinities leave every field unchanged |
| `NoiseFilter.BootstrapAcceptsAll` | src/NoiseFilter.cpp:43-45 | while count ≤ 3, every finite sample is stored |
| `NoiseFilter.OutlierRule` | src/NoiseFilter.cpp:125-135 | after the bootstrap, a sample is kept iff \|x − avg\| ≤ max(threshold·avg, 0.1) |
| `NoiseFilter.IsOutlierAt` | src/NoiseFilter.cpp:125-135 | isOutlier: false on an empty window, otherwise \|x − avg\| > max(threshold·avg, 0.1); its use is stated by `NoiseFilter.OutlierRule` |
| `NoiseFilter.Offer` | src/NoiseFilter.cpp:37-55 | addSample on the state: keeps the ring well formed and never lowers the count; its cases are `NoiseFilter.NonFiniteIgnored`, `BootstrapAcceptsAll` and `OutlierRule` |
| `NoiseFilter.Insert` | src/NoiseFilter.cpp:47-54 | store then updateStatistics; keeps the ring well formed; its effect is `NoiseFilter.InsertBookkeeping` and `SmoothingStep` |
| `NoiseFilter.NearAverageAccepted` | src/NoiseFilter.cpp:125-135 | a sample within 0.1 of the average is never rejected, whatever the threshold |
| `NoiseFilter.InsertBookkeeping` | src/NoiseFilter.cpp:47-52 | the sample lands at the index and no other slot changes; the index advances mod capacity; the count grows by one up to capacity |
| `NoiseFilter.StoreOrdered` | src/NoiseFilter.cpp:47-52 | in arrival order the ring holds the latest `capacity` samples |
| `NoiseFilter.StoreKeepsLatest` | src/NoiseFilter.cpp:47-52 | a ring holding the latest samples of h holds the latest samples of h + [x] after a store |
| `NoiseFilter.WindowMatchesOrdered` | src/NoiseFilter.cpp:57-96 | the filled prefix has the same mean, min and max as the samples in arrival order |
| `NoiseFilter.ReadyPersists` | src/NoiseFilter.cpp:109-111 | addSample never lowers the count, so isReady never reverts |
| `NoiseFilter.Ready` | src/NoiseFilter.cpp:109-111 | isReady: count ≥ capacity / 2 in integer division; its persistence is `NoiseFilter.ReadyPersists` |
| `NoiseFilter.EmptyState` | src/NoiseFilter.cpp:25-35 | after reset, with capacity ≥ 2, the filter is not ready and average, min, max, mean square and filtered are 0 |
| `NoiseFilter.SmoothingStep` | src/NoiseFilter.cpp:137-150 | the first update copies the average; later ones with α in [0, 1] land between the previous value and the average |
| `NoiseFilter.ConvexStep` | src/NoiseFilter.cpp:145-146 | α·avg + (1−α)·prev lies between prev and avg for α in [0, 1] |
| `NoiseFilter.Filter.constructor` | src/NoiseFilter.cpp:4-19 | a fresh zeroed buffer of the given size, empty state, tuning taken unclamped |
| `NoiseFilter.Filter.Reset` | src/NoiseFilter.cpp:25-35 | the state becomes `Empty` with the tuning kept, and the history is emptied |
| `NoiseFilter.Filter.AddSample` | src/NoiseFilter.cpp:37-55 | the new state is `Offer(old state, sample)`; accepted samples extend the history |
| `NoiseFilter.Filter.InsertSample` | src/NoiseFilter.cpp:47-54 | an accepted sample: store, then updateStatistics |
| `NoiseFilter.Filter.StoreSample` | src/NoiseFilter.cpp:47-52 | the in-place write and counter update equal `Store` |
| `NoiseFilter.Filter.UpdateStatistics` | src/NoiseFilter.cpp:137-150 | the array loop's result equals `Refresh` |
| `NoiseFilter.Filter.IsOutlier` | src/NoiseFilter.cpp:125-135 | the loop-computed answer equals the relative outlier test on the window |
| `NoiseFilter.Filter.GetAverage` | src/NoiseFilter.cpp:57-66 | the mean of buffer[0..count), which is the mean of the latest `bufferSize` accepted samples |
| `NoiseFilter.Filter.GetMin` | src/NoiseFilter.cpp:72-83 | the minimum of buffer[0..count), which is that of the latest accepted samples |
| `NoiseFilter.Filter.GetMax` | src/NoiseFilter.cpp:85-96 | the maximum of buffer[0..count), which is that of the latest accepted samples |
| `NoiseFilter.Filter.GetMeanSquare` | src/NoiseFilter.cpp:98-107 | the mean of squares of buffer[0..count), never negative |
| `NoiseFilter.Filter.SetOutlierThreshold` | src/NoiseFilter.cpp:117-119 | the threshold is stored as given |
| `NoiseFilter.Filter.SetSmoothingFactor` | src/NoiseFilter.cpp:121-123 | the factor is clamped to [0.01, 1.0] |
| `SensorManager.TwoPoint` | src/SensorManager.cpp:199-212 | the zero point converts to 0 and 6.144 V converts to the full-scale value |
| `SensorManager.ValidTemperature` | src/SensorManager.cpp:245-247 | validateTemperature: −40 ≤ t ≤ 150 |
| `SensorManager.ValidHumidity` | src/SensorManager.cpp:249-251 | validateHumidity: 0 ≤ h ≤ 100 |
| `SensorManager.ValidPressure` | src/SensorManager.cpp:253-255 | validatePressure: 0 ≤ p ≤ 150 |
| `SensorManager.ValidCurrent` | src/SensorManager.cpp:257-260 | validateCurrent: −50 ≤ c ≤ 50 |
| `SensorManager.IsHealthy` | src/SensorManager.cpp:60-62 | isHealthy: both sensors initialised |
| `SensorManager.ReadTemperature` | src/SensorManager.cpp:64-88 | readTemperature on the state: only the AHT caches and lastTempRead can change, lastTempRead only to now, and a freshly read value is in range; its cases are `TemperatureFromBus` and `AhtCacheWindow` |
| `SensorManager.ReadHumidity` | src/SensorManager.cpp:90-115 | readHumidity on the state: only the AHT caches and lastTempRead can change, and a freshly read humidity is in [0, 100]; its cases are `HumidityFromBus` and `AhtCacheWindow` |
| `SensorManager.ReadPressure` | src/SensorManager.cpp:117-145 | readPressure on the state: only lastPressure and lastPressureRead can change, and a fresh value is in [0, 150]; its cases are `PressureCacheWindow` and `PressureFromBus` |
| `SensorManager.ReadCurrent1` | src/SensorManager.cpp:147-175 | readCurrent1 on the state: only lastCurrent1 and lastCurrentRead can change, and a fresh value is in [−50, 50] |
| `SensorManager.ReadCurrent2` | src/SensorManager.cpp:177-197 | readCurrent2 on the state: only lastCurrent2 can change, and every value it reports is in [−50, 50] and cached |
| `SensorManager.AtValue` | src/SensorManager.cpp:263-309 | nothing changes for raw ≤ 0; otherwise raw converts to the known value; a known 0 sets the offset to raw and keeps the scale, any other known value moves only the scale |
| `SensorManager.AhtCacheWindow` | src/SensorManager.cpp:64-95 | inside the 5 s window both AHT reads return the cache and true and change nothing, even without the sensor |
| `SensorManager.PressureCacheWindow` | src/SensorManager.cpp:117-122 | inside the 3 s window readPressure returns the cached pressure and true and leaves the state as it was |
| `SensorManager.FailedReadsChangeNothing` | src/SensorManager.cpp:64-197 | a read that returns false leaves every field as it was |
| `SensorManager.TemperatureFromBus` | src/SensorManager.cpp:70-87 | a bus read succeeds iff the sensor is up, the event arrived and °F is in [−40, 150]; it then caches both values and restarts the window |
| `SensorManager.HumidityFromBus` | src/SensorManager.cpp:96-114 | validated in [0, 100]; the temperature cache is overwritten unvalidated |
| `SensorManager.HumidityFollowsTemperature` | src/SensorManager.cpp:83-95 | a humidity read right after a successful temperature read returns that event's humidity, in range or not |
| `SensorManager.UnvalidatedHumidityWitness` | src/SensorManager.cpp:83-95 | an out-of-range humidity is handed out |
| `SensorManager.BootWindow` | src/SensorManager.cpp:3-31 | for 5 s after construction the AHT reads return a cached 0 and true |
| `SensorManager.PressureFromBus` | src/SensorManager.cpp:117-145 | outside the 3 s window: fails on a negative voltage or out of [0, 150]; otherwise (raw − offset)·scale, cached |
| `SensorManager.CurrentReads` | src/SensorManager.cpp:147-197 | readCurrent1 is rate limited by lastCurrentRead; readCurrent2 depends only on the voltage and its calibration and accepts [−50, 50] |
| `SensorManager.CachesStayInRange` | src/SensorManager.cpp:117-197 | every read keeps the pressure and current caches in range |
| `SensorManager.ReportedValuesInRange` | src/SensorManager.cpp:117-197 | every successful pressure or current read, cached or fresh, is in range |
| `SensorManager.Manager.constructor` | src/SensorManager.cpp:3-31 | default calibrations, nothing initialised, zero times and caches |
| `SensorManager.Manager.Begin` | src/SensorManager.cpp:33-58 | records both driver results; returns true iff both started |
| `SensorManager.Manager.Healthy` | src/SensorManager.cpp:60-62 | healthy iff both sensors initialised |
| `SensorManager.Manager.ReadTemperatureAt` | src/SensorManager.cpp:64-88 | the result and new state are `ReadTemperature` |
| `SensorManager.Manager.ReadHumidityAt` | src/SensorManager.cpp:90-115 | the result and new state are `ReadHumidity` |
| `SensorManager.Manager.ReadPressureAt` | src/SensorManager.cpp:117-145 | the result and new state are `ReadPressure` |
| `SensorManager.Manager.ReadCurrent1At` | src/SensorManager.cpp:147-175 | the result and new state are `ReadCurrent1` |
| `SensorManager.Manager.ReadCurrent2At` | src/SensorManager.cpp:177-197 | the result and new state are `ReadCurrent2` |
| `SensorManager.Manager.CalibratePressure` | src/SensorManager.cpp:199-202 | the pressure channel gets the two-point calibration |
| `SensorManager.Manager.CalibrateCurrent1` | src/SensorManager.cpp:204-207 | current 1 gets the two-point calibration |
| `SensorManager.Manager.CalibrateCurrent2` | src/SensorManager.cpp:209-212 | current 2 gets the two-point calibration |
| `SensorManager.Manager.SetCalibration` | src/SensorManager.cpp:214-223 | the three calibrations are stored as given |
| `SensorManager.Manager.CalibratePressureAtValue` | src/SensorManager.cpp:263-277 | single-point calibration of channel 2 from its reading (−1 without the ADC) |
| `SensorManager.Manager.CalibrateCurrent1AtValue` | src/SensorManager.cpp:279-293 | single-point calibration of channel 0 |
| `SensorManager.Manager.CalibrateCurrent2AtValue` | src/SensorManager.cpp:295-309 | single-point calibration of channel 1 |
| `DataCollector.Record` | src/DataCollector.cpp:185-201 | the record is valid iff all five reads succeeded and carries each read's value |
| `DataCollector.Enqueue` | src/DataCollector.cpp:208-212 | only a valid sample is appended, only when a queue exists and is not full; the length never exceeds 100 |
| `DataCollector.DutyCycle` | src/DataCollector.cpp:266-279 | the result is 0 or 100; it is 100 iff the filter is non-empty and its average exceeds the threshold |
| `DataCollector.AllOrNothing` | src/DataCollector.cpp:272-278 | when no or all iterations count, the percentage is exactly 0 or 100 |
| `DataCollector.Summarize` | src/DataCollector.cpp:220-248 | the summary spans lastAggregationTime to now; every non-empty channel has min ≤ avg ≤ max; both RMS are ≥ 0; the duty cycles are `DutyCycle` at the current thresholds |
| `DataCollector.Sample` | src/DataCollector.cpp:189-193 | the five reads in order, each on the state the previous one left; calibrations and initialisation flags unchanged, read times not past now |
| `DataCollector.HumidityTakenFromTemperatureRead` | src/DataCollector.cpp:189-190 | after a successful bus temperature read, the step's humidity is that event's humidity |
| `DataCollector.SampledValuesInRange` | src/DataCollector.cpp:189-193 | the pressure and current values of every successful step are in range, and the caches stay so |
| `DataCollector.AggregateWhenReady` | src/DataCollector.cpp:216-248 | when aggregation runs, the sample count (the smaller of the two gating counts) is at least 10 and the temperature and current 1 summaries are ordered |
| `DataCollector.Collector.constructor` | src/DataCollector.cpp:3-25 | five fresh, distinct, empty filters of 20 slots with their tunings; not running; zeroed records; thresholds 0.5 |
| `DataCollector.Collector.NewFilter` | src/DataCollector.cpp:6-10 | one `new NoiseFilter(FILTER_SIZE, …)`: a fresh, empty 20-slot filter with the given tuning |
| `DataCollector.Collector.NewFilters` | src/DataCollector.cpp:6-10 | the five filters: three with (2.0, 0.1), two with (1.5, 0.2), all fresh, distinct and with distinct buffers |
| `DataCollector.Collector.Begin` | src/DataCollector.cpp:37-82 | running: true, nothing changes; otherwise true iff all four creations succeed; a failed queue creation leaves a null queue handle; a failed mutex creation deletes the queue without clearing its handle; a failed task creation leaves the queue, the mutex and any created task allocated |
| `DataCollector.Collector.Stop` | src/DataCollector.cpp:84-110 | a no-op unless running; otherwise not running and every handle released |
| `DataCollector.Collector.GetCurrentData` | src/DataCollector.cpp:112-122 | true iff running, locked and the sample is valid; the copy is the current sample |
| `DataCollector.Collector.GetAggregatedData` | src/DataCollector.cpp:124-134 | true iff running, locked and sampleCount > 0; the copy is the last aggregate |
| `DataCollector.Collector.SetCurrentThresholds` | src/DataCollector.cpp:136-139 | both thresholds stored |
| `DataCollector.Collector.QueueLength` | src/DataCollector.cpp:141-144 | the queue's length when it exists, 0 when there is none |
| `DataCollector.Collector.CollectSensorData` | src/DataCollector.cpp:180-213 | nothing without a healthy manager; otherwise the manager takes the five reads, each filter is fed only on its own success, the lock decides the snapshot, and `Enqueue` decides the queue |
| `DataCollector.Collector.ReadChannels` | src/DataCollector.cpp:189-193 | the manager's five reads in order; the readings and the manager's new state are `Sample` |
| `DataCollector.Collector.Publish` | src/DataCollector.cpp:203-212 | the snapshot is replaced only when the lock is taken; the queue becomes `Enqueue` of the old queue |
| `DataCollector.Collector.FeedFilters` | src/DataCollector.cpp:195-199 | every filter's new state is `Feed` of its own reading |
| `DataCollector.Collector.FeedOne` | src/DataCollector.cpp:195 | `if (ok) filter->addSample(value)`: the filter's new state is `Feed` of its reading |
| `DataCollector.Collector.FeedTwo` | src/DataCollector.cpp:195-198 | two separate filters, each fed its own reading |
| `DataCollector.Collector.CalculateDutyCycle` | src/DataCollector.cpp:266-279 | the counting loop's result equals `DutyCycle` |
| `DataCollector.Collector.AggregateData` | src/DataCollector.cpp:215-264 | nothing unless both gating filters are ready; otherwise `Summarize` is published if locked and all five filters are reset either way |
| `DataCollector.Collector.AggregateReady` | src/DataCollector.cpp:220-259 | publishes the summary under the lock and resets all five filters |
| `DataCollector.Collector.PublishAggregate` | src/DataCollector.cpp:250-253 | the aggregate is stored only when the lock is taken |
| `DataCollector.Collector.ResetFilters` | src/DataCollector.cpp:255-259 | every filter becomes empty with its tuning kept |
| `DataCollector.Collector.ResetTwo` | src/DataCollector.cpp:255-258 | two separate filters, each emptied with its tuning kept |
| `DataCollector.Collector.Statistics` | src/DataCollector.cpp:223-233 | getMin, getMax and getAverage of a filter, ordered when non-empty |
| `DataCollector.Collector.CurrentStatistics` | src/DataCollector.cpp:235-247 | one current's statistics and its duty cycle (0 or 100) |
| `DataCollector.Collector.Summary` | src/DataCollector.cpp:220-248 | the record the filters give equals `Summarize` at the current thresholds |
| `DataCollector.Collector.AggregationTick` | src/DataCollector.cpp:166-178 | aggregates and restarts the interval only when 60000 ms have passed |
| `EventDetector.TypeNamesDistinct` | src/EventDetector.cpp:297-306 | different event types have different names |
| `EventDetector.TypeName` | src/EventDetector.cpp:297-306 | eventTypeToString; distinct types get distinct names by `EventDetector.TypeNamesDistinct` |
| `EventDetector.FindIndex` | src/EventDetector.cpp:277-284 | findEventIndex: −1 iff the type is absent, otherwise the first index holding it |
| `EventDetector.AddEvent` | src/EventDetector.cpp:245-260 | addEvent: the new record (active, duration 0, start now) comes last; below ten the old list is kept in front, at ten the oldest is dropped |
| `EventDetector.RemoveAt` | src/EventDetector.cpp:286-295 | removeEvent: an index past the end changes nothing; otherwise one shorter, earlier entries kept and later ones shifted left in order |
| `EventDetector.ClearKind` | src/EventDetector.cpp:262-267 | clearEvent: unchanged when the type is absent, otherwise one record shorter; which record goes is `EventDetector.ClearKindEffect` |
| `EventDetector.ClearKindEffect` | src/EventDetector.cpp:262-267 | with distinct types, clearEvent keeps them distinct and the records well formed, and a type is present afterwards iff it was present and is not the cleared one |
| `EventDetector.UpdateKind` | src/EventDetector.cpp:269-275 | updateEvent: only the first record of the type gets the new value and duration; type, flag, start and threshold of every record kept |
| `EventDetector.Debounce` | src/EventDetector.cpp:137-164 | the shared debounce/hysteresis step of the three timed checks; the timer never passes now; its branches are `DebounceArms`, `DebounceWaits`, `DebounceActivates`, `DebounceResets`, `DebounceHolds`, `DebounceClears` |
| `EventDetector.Transition` | src/EventDetector.cpp:140-158 | the arming, activation, clearing and disarming branches shared by the three checks; the timer never passes now and is kept while active |
| `EventDetector.CheckHighCurrent` | src/EventDetector.cpp:134-165 | `Debounce` on max(current1, current2) > threshold with a 3 s delay; keeps the timers before now |
| `EventDetector.CheckLowPressure` | src/EventDetector.cpp:167-197 | `Debounce` on pressure < threshold with a 10 s delay; keeps the timers before now |
| `EventDetector.CheckLowTemperature` | src/EventDetector.cpp:199-229 | `Debounce` on temperature < threshold with a 10 s delay; keeps the timers before now |
| `EventDetector.CheckSensorHealth` | src/EventDetector.cpp:231-243 | only the sensor-error flag and the list change, and the flag becomes !valid |
| `EventDetector.Evaluate` | src/EventDetector.cpp:46-49 | the four checks in order; keeps the timers before now |
| `EventDetector.Observe` | src/EventDetector.cpp:36-50 | update(): the state changes only when the collector runs, the lock is taken and the sample is valid |
| `EventDetector.DebounceArms` | src/EventDetector.cpp:140-144 | a first observation with timer 0 only arms the timer at now |
| `EventDetector.DebounceWaits` | src/EventDetector.cpp:140-150 | before the delay elapses, a present condition changes nothing |
| `EventDetector.DebounceActivates` | src/EventDetector.cpp:145-150 | once the delay has elapsed, one record is appended; its start is now and its duration is now − timer |
| `EventDetector.DebounceResets` | src/EventDetector.cpp:158-160 | an absent, inactive condition disarms its timer |
| `EventDetector.NoRecordBeforeDelay` | src/EventDetector.cpp:137-160 | an inactive condition that is absent, unarmed, or armed less than `delay` ago leaves the list unchanged, so a record appears only when present at least `delay` after arming |
| `EventDetector.DebounceHolds` | src/EventDetector.cpp:151-164 | an active condition inside the hysteresis band stays active; its record's value and duration are updated in place |
| `EventDetector.DebounceClears` | src/EventDetector.cpp:151-157 | past the hysteresis limit the condition clears, its record is removed and the timer disarmed |
| `EventDetector.AtMostFourEvents` | src/EventDetector.cpp:245-260 | under the invariant the list holds at most four records, so the full-list eviction never happens |
| `EventDetector.RemoveAtUnique` | src/EventDetector.cpp:286-295 | removing a record keeps the types distinct |
| `EventDetector.RemoveAtHas` | src/EventDetector.cpp:286-295 | after removal a type is present iff some other slot held it |
| `EventDetector.CheckHighCurrentConsistent` | src/EventDetector.cpp:134-165 | checkHighCurrent keeps the list invariant |
| `EventDetector.CheckLowPressureConsistent` | src/EventDetector.cpp:167-197 | checkLowPressure keeps the list invariant |
| `EventDetector.CheckLowTemperatureConsistent` | src/EventDetector.cpp:199-229 | checkLowTemperature keeps the list invariant |
| `EventDetector.CheckSensorHealthConsistent` | src/EventDetector.cpp:231-243 | checkSensorHealth keeps the list invariant |
| `EventDetector.EvaluateConsistent` | src/EventDetector.cpp:46-49 | one evaluation of the four checks keeps the invariant |
| `EventDetector.SensorHealthImmediate` | src/EventDetector.cpp:231-243 | the sensor error is raised on the call that sees valid = false and cleared on the one that sees true |
| `EventDetector.RunConsistent` | src/EventDetector.cpp:36-50 | every chronological run of update() keeps the invariant |
| `EventDetector.SensorErrorNeverRaised` | src/EventDetector.cpp:42-44 | through update(), the sensor error is never raised |
| `EventDetector.StatusNormalIffQuiet` | src/EventDetector.cpp:82-115 | "Normal" iff no condition is active; otherwise "ALERT: " and at least one name |
| `EventDetector.StatusString` | src/EventDetector.cpp:82-115 | "Normal", or "ALERT: " and the active conditions' names; stated by `EventDetector.StatusNormalIffQuiet` |
| `EventDetector.EventSummaryCount` | src/EventDetector.cpp:117-132 | the count in the summary text reads back as the number of records |
| `EventDetector.EventSummary` | src/EventDetector.cpp:117-132 | the count, then the records' names; stated by `EventDetector.EventSummaryCount` |
| `EventDetector.FindIndexIsFirst` | src/EventDetector.cpp:277-284 | the index found is the first holding the type |
| `EventDetector.Detector.constructor` | src/EventDetector.cpp:3-30 | the initial thresholds, hysteresis, timers and an empty, zeroed list |
| `EventDetector.Detector.SetThresholds` | src/EventDetector.cpp:52-56 | the three thresholds stored, nothing else changed |
| `EventDetector.Detector.SetHysteresis` | src/EventDetector.cpp:58-62 | the three margins stored, nothing else changed |
| `EventDetector.Detector.HasActiveEvents` | src/EventDetector.cpp:64-71 | true iff some record is active |
| `EventDetector.Detector.GetEvent` | src/EventDetector.cpp:73-80 | the record at index, or a zeroed record past the end |
| `EventDetector.Detector.FindEventIndex` | src/EventDetector.cpp:277-284 | the scan's result equals `FindIndex` |
| `EventDetector.Detector.RemoveEvent` | src/EventDetector.cpp:286-295 | the list becomes `RemoveAt`: later records shift left in order, and an index past the end changes nothing |
| `EventDetector.Detector.ShiftLeft` | src/EventDetector.cpp:289-291 | the loop: slots index..count−2 take their right neighbour's record, every other slot keeps its own |
| `EventDetector.Detector.AddEventRecord` | src/EventDetector.cpp:245-260 | the list becomes `AddEvent` |
| `EventDetector.Detector.ClearEvent` | src/EventDetector.cpp:262-267 | the list becomes `ClearKind` |
| `EventDetector.Detector.UpdateEvent` | src/EventDetector.cpp:269-275 | the list becomes `UpdateKind` |
| `EventDetector.Detector.CheckHighCurrentAt` | src/EventDetector.cpp:134-165 | the new state is `CheckHighCurrent` |
| `EventDetector.Detector.CheckLowPressureAt` | src/EventDetector.cpp:167-197 | the new state is `CheckLowPressure` |
| `EventDetector.Detector.CheckLowTemperatureAt` | src/EventDetector.cpp:199-229 | the new state is `CheckLowTemperature` |
| `EventDetector.Detector.CheckSensorHealthAt` | src/EventDetector.cpp:231-243 | the new state is `CheckSensorHealth` |
| `EventDetector.Detector.TransitionStep` | src/EventDetector.cpp:140-158 | the in-place branches give the new flag, timer and list that `Transition` gives |
| `EventDetector.Detector.DebounceStep` | src/EventDetector.cpp:140-163 | the branches followed by updateEvent while active give what `Debounce` gives |
| `EventDetector.Detector.Update` | src/EventDetector.cpp:36-50 | the new state is `Observe` of the collector; the sensor error is never newly raised |
| `EventDetector.Detector.GetStatusString` | src/EventDetector.cpp:82-115 | the built string equals `StatusString` |
| `EventDetector.Detector.GetEventSummary` | src/EventDetector.cpp:117-132 | the built string equals `EventSummary` |
| `EventDetector.Detector.JoinNames` | src/EventDetector.cpp:124-127 | the loop builds the records' names joined with ", " |
| `Delivery.Elapsed` | src/APIClient.cpp:374 | unsigned 32-bit difference; it is now − since when no wrap occurred |
| `Delivery.Succeeded` | src/APIClient.cpp:220 | a request succeeds on 200 or 201 |
| `Delivery.Backoff` | src/APIClient.cpp:394-397 | base·2^min(retryCount, 4) capped at 300000; never below the base |
| `Delivery.BackoffMonotone` | src/APIClient.cpp:394-397 | the delay never shrinks as retryCount grows |
| `Delivery.BackoffSaturates` | src/MongoDBClient.cpp:341-344 | from retryCount 4 on, the delay no longer grows |
| `Delivery.Added` | src/APIClient.cpp:314-325 | the slot at the index becomes valid with the data and no other slot changes; the index advances mod size; the count saturates at size |
| `Delivery.AddedPhantom` | src/APIClient.cpp:314-325 | how an add changes the gap between the count and the waiting records |
| `Delivery.AddedSound` | src/APIClient.cpp:314-325 | an add keeps "waiting ≤ counted" |
| `Delivery.Scan` | src/APIClient.cpp:337-357 | processBuffer's loop from slot i: never sends more than the waiting records or the count allows, and keeps what was sent before; its meaning is `ScanSendsInOrder`, `ScanAnswers`, `ScanReachesGoal`, `ScanLeaves` |
| `Delivery.Processed` | src/APIClient.cpp:327-360 | processBuffer on the state: the ring stays well formed and the write index is untouched; its meaning is `Delivery.ProcessDelivers` |
| `Delivery.ScanSendsInOrder` | src/APIClient.cpp:337-357 | a pass sends the next waiting records, in slot order |
| `Delivery.ScanAnswers` | src/APIClient.cpp:337-357 | every request of a pass succeeds except a last, failed one |
| `Delivery.ScanReachesGoal` | src/APIClient.cpp:337-357 | a pass succeeds iff it sent min(remaining count, waiting) records |
| `Delivery.ScanClearsFlags` | src/APIClient.cpp:337-357 | a pass only clears valid flags |
| `Delivery.ScanLeaves` | src/APIClient.cpp:337-357 | after a pass, the records still waiting are the unsent rest |
| `Delivery.ProcessDelivers` | src/APIClient.cpp:327-360 | processBuffer: true and no change when the count is 0 or the link is down; otherwise the waiting records in slot order, stopping at the first failure; the count drops by the number sent |
| `Delivery.ProcessPhantom` | src/APIClient.cpp:327-360 | a pass keeps the phantom part of the count |
| `Delivery.ProcessSound` | src/APIClient.cpp:327-360 | processBuffer keeps "waiting ≤ counted" |
| `Delivery.ProcessStuck` | src/APIClient.cpp:327-360 | with nothing waiting, processBuffer reports success and leaves the count |
| `Delivery.FillEmpty` | src/APIClient.cpp:314-325 | k adds to an empty ring fill slots 0..k−1 and count k |
| `Delivery.PhantomReachable` | src/MongoDBClient.cpp:277-312 | a reachable state whose count stays at 1 with nothing left to send |
| `Delivery.FirstSentSecondFails` | src/MongoDBClient.cpp:288-312 | "success, then failure" frees slot 0 only and returns false |
| `Delivery.SlotBuffer.constructor` | src/APIClient.cpp:22-24 | every slot free, index and count 0 |
| `Delivery.SlotBuffer.Add` | src/APIClient.cpp:314-325 | the in-place write equals `Added` |
| `Delivery.SlotBuffer.Process` | src/APIClient.cpp:327-360 | the loop's new state and result equal `Processed` |
| `Delivery.Probe` | src/APIClient.cpp:106-147 | without an HTTP client it fails; within the interval it answers the cached state; otherwise the code decides, and a success resets the retry count |
| `Delivery.Reconnect` | src/APIClient.cpp:372-385 | update()'s reconnection step; keeps the link valid and the ring well formed; its cases are `UpdateWaitsForBackoff` and `UpdateCountsFailure` |
| `Delivery.Update` | src/APIClient.cpp:366-392 | update(): reconnection, then a flush while connected with something counted; keeps the link valid and the ring well formed, and `UpdateSound` keeps the count honest |
| `Delivery.UpdateWaitsForBackoff` | src/APIClient.cpp:366-392 | while the backoff runs, a disconnected client changes nothing |
| `Delivery.UpdateCountsFailure` | src/APIClient.cpp:366-392 | a failed reconnection counts one more retry and restarts the delay at now |
| `Delivery.UpdateSound` | src/APIClient.cpp:366-392 | update() keeps "waiting ≤ counted" |
| `Delivery.ConnectionStatus` | src/APIClient.cpp:399-413 | "Not initialized" iff uninitialised; "Connected" iff connected with nothing buffered; "Failed (max retries exceeded)" iff down beyond maxRetries; otherwise the count or the retry ratio |
| `Delivery.StatusShowsCount` | src/MongoDBClient.cpp:346-360 | the connected status text determines the buffered count |
| `ApiClient.FormatTimestamp` | src/APIClient.cpp:300-312 | decimal digits reading back as timestamp·1000 above 1600000000, "0" otherwise |
| `ApiClient.FormatTimestampInjective` | src/APIClient.cpp:300-312 | distinct synchronised timestamps are written differently |
| `ApiClient.MakeRequest` | src/APIClient.cpp:194-235 | success iff a client exists, the method is POST or GET, and the code is 200 or 201 |
| `ApiClient.RetryDelays` | src/APIClient.cpp:394-397 | the delay is one of 5000, 10000, 20000, 40000, 80000 |
| `ApiClient.Client.constructor` | src/APIClient.cpp:3-28 | configuration copied; uninitialised, disconnected link; 3 retries; empty 20-slot buffer |
| `ApiClient.Client.ValidateConfiguration` | src/APIClient.cpp:59-63 | true iff base URL, device name and location are non-empty |
| `ApiClient.Client.GetRetryDelay` | src/APIClient.cpp:394-397 | `Backoff(5000, retryCount)`, one of the five API delays |
| `ApiClient.Client.GetConnectionStatus` | src/APIClient.cpp:399-413 | the text is `ConnectionStatus` of the fields |
| `ApiClient.Client.TestConnection` | src/APIClient.cpp:106-147 | the new link and the result are `Probe` |
| `ApiClient.Client.Disconnect` | src/APIClient.cpp:153-156 | no HTTP client and not connected |
| `ApiClient.Client.Begin` | src/APIClient.cpp:38-57 | true at once when initialised; false on an invalid configuration; otherwise set up, then `Probe` |
| `ApiClient.Client.SetCredentials` | src/APIClient.cpp:65-75 | settings copied; an initialised client is disconnected and uninitialised |
| `ApiClient.Client.SendSensorData` | src/APIClient.cpp:158-173 | true iff initialised, connected and the post succeeds; then nothing is buffered and retries reset; `Added` otherwise |
| `ApiClient.Client.SendEvent` | src/APIClient.cpp:175-182 | true iff initialised, connected and the post succeeds; never buffers |
| `ApiClient.Client.ProcessBuffer` | src/APIClient.cpp:327-360 | the buffer and result are `Processed` |
| `ApiClient.Client.Update` | src/APIClient.cpp:366-392 | link and buffer become `Delivery.Update` with a 30 s test interval and a 5 s base delay |
| `MongoClient.FormatTimestamp` | src/MongoDBClient.cpp:270-275 | decimal digits reading back as the timestamp |
| `MongoClient.FormatTimestampInjective` | src/MongoDBClient.cpp:270-275 | distinct timestamps are written differently |
| `MongoClient.InsertDocument` | src/MongoDBClient.cpp:166-200 | success iff a client exists and the code is 200 or 201 |
| `MongoClient.RetryDelays` | src/MongoDBClient.cpp:341-344 | 30000·2^retryCount below 4; 300000 iff retryCount ≥ 4 |
| `MongoClient.Client.constructor` | src/MongoDBClient.cpp:3-33 | configuration copied; uninitialised link; 3 retries; empty 10-slot buffer |
| `MongoClient.Client.ValidateConfiguration` | src/MongoDBClient.cpp:61-67 | true iff URL, API key, data source, database and device name are non-empty |
| `MongoClient.Client.GetRetryDelay` | src/MongoDBClient.cpp:341-344 | `Backoff(30000, retryCount)` |
| `MongoClient.Client.GetConnectionStatus` | src/MongoDBClient.cpp:346-360 | the text is `ConnectionStatus` of the fields |
| `MongoClient.Client.TestConnection` | src/MongoDBClient.cpp:82-117 | the new link and the result are `Probe` |
| `MongoClient.Client.Disconnect` | src/MongoDBClient.cpp:124-131 | no HTTP client and not connected |
| `MongoClient.Client.Begin` | src/MongoDBClient.cpp:43-59 | true at once when initialised; false on an invalid configuration; otherwise set up, then `Probe` |
| `MongoClient.Client.SetCredentials` | src/MongoDBClient.cpp:69-80 | settings copied; an initialised client is disconnected and uninitialised |
| `MongoClient.Client.WriteAggregatedData` | src/MongoDBClient.cpp:133-146 | true iff initialised, connected and the insert succeeds; `Added` otherwise |
| `MongoClient.Client.WriteEvent` | src/MongoDBClient.cpp:148-154 | true iff initialised, connected and the insert succeeds; never buffers |
| `MongoClient.Client.ProcessBuffer` | src/MongoDBClient.cpp:288-312 | the buffer and result are `Processed` |
| `MongoClient.Client.Update` | src/MongoDBClient.cpp:318-339 | link and buffer become `Delivery.Update` with a 5 min test interval and a 30 s base delay |

## Left out

- IEEE `float` rounding: values are `real`. NaN and the infinities appear only as `NoiseFilter.Float` inputs to addSample.
- `sqrt` in getRMS: the RMS fields hold the mean of squares. `NoiseFilter.Filter.GetMeanSquare` and `AggregatedData.current*Rms` are therefore the squares of the firmware's values.
- FreeRTOS tasks, `vTaskDelayUntil`, queue and mutex handles. Handles are booleans, and each creation result or lock outcome is a parameter.
- `collectionTaskFunction`'s loop. `DataCollector.Collector.AggregationTick` models one pass of the aggregation loop.
- The task wrappers and the destructors of every class.
- `EventDetector::begin`: it only logs.
- `main.cpp` and everything in it: Wi-Fi, OTA, HTTP routes, display, LoRa, preferences.
- The AHT10 and ADS1115 drivers and `readADSChannel`'s voltage computation. The event or voltage a read would get is a parameter.
- `getRaw*Voltage` appear only as `SensorManager.RawVoltage`.
- The `SensorManager.h` getters.
- JSON payloads (`createSensorJSON`, `createEventJSON`, `createSensorDocument`, `createEventDocument`), HTTP headers, TLS setup and `Serial` logging.
- `delay(100)` in processBuffer.
- `getLastError` and the last HTTP status field.
- Each request's status code is a parameter: one `code`, or a `codes` sequence answering a loop's requests in order.
- `millis()` is one `now` per call. Where the firmware calls it twice in one function, both calls see the same value.
- 32-bit `millis()` wrap-around is modelled (`Delivery.Elapsed`) only in the two clients.
- SensorManager, EventDetector and `DataCollector.Collector.AggregationTick` require `now` not to precede their recorded times.
- Narrow integer counters (`uint8_t`, `uint16_t`) are unbounded `nat`, except the clients' `retryCount`, which wraps modulo 2^16. Every counter in the model stays far below its type's limit.
- Indeterminate values become zeros: memory the source leaves uninitialised, namely a failed read's field and a buffer slot's record.
- `SensorManager.Manager.CalibratePressure`, `CalibrateCurrent1`, `CalibrateCurrent2`: require a zero point other than 6.144 V. The firmware would divide by zero there.
- `SensorManager.Manager.CalibratePressureAtValue`, `CalibrateCurrent1AtValue`, `CalibrateCurrent2AtValue`: require a reading other than the offset when the known value is non-zero, for the same reason.
- Statement order differs in four places. None is observable, since no operation involved changes what the others read:
  - The check methods set the tracking fields after the list operation.
  - The three debounced checks share `DebounceStep`.
  - `Summary` takes each duty cycle next to that current's statistics.
  - The collector constructor allocates its five filters in one helper.
- `NoiseFilter.Filter.GetFiltered`, `GetSampleCount` and `IsReady` are plain field reads with no contract. `IsReady`'s meaning is `NoiseFilter.Ready`, covered by `NoiseFilter.ReadyPersists` and `NoiseFilter.EmptyState`.
