/** The sampling and aggregation pipeline: one sampling step reads the five
    channels through the sensor manager, feeds the five noise filters and records
    the sample; one aggregation step summarises the filters and resets them.
    Task creation, the mutex and the FreeRTOS queue are replaced by boolean
    inputs and a bounded sequence. */
module DataCollector {
  import opened Wrappers
  import opened NoiseFilter
  import opened SensorManager

  const QueueSize: nat := 100
  const FilterSize: nat := 20
  const AggregationInterval: nat := 60000

  /** One sample of the five channels. */
  datatype SensorData = SensorData(
    temperature: real,
    humidity: real,
    pressure: real,
    current1: real,
    current2: real,
    timestamp: nat,
    valid: bool)

  /** The all-zero record the constructor's memset leaves. */
  function ZeroData(): SensorData {
    SensorData(0.0, 0.0, 0.0, 0.0, 0.0, 0, false)
  }

  /** One aggregation window's summary. The two RMS fields hold the mean of squares. */
  datatype AggregatedData = AggregatedData(
    tempMin: real, tempMax: real, tempAvg: real,
    humMin: real, humMax: real, humAvg: real,
    pressMin: real, pressMax: real, pressAvg: real,
    current1Min: real, current1Max: real, current1Avg: real, current1Rms: real,
    current2Min: real, current2Max: real, current2Avg: real, current2Rms: real,
    dutyCycle1: real, dutyCycle2: real,
    startTime: nat,
    endTime: nat,
    sampleCount: nat)

  function ZeroAggregate(): AggregatedData {
    AggregatedData(0.0, 0.0, 0.0, 0.0, 0.0, 0.0, 0.0, 0.0, 0.0, 0.0, 0.0, 0.0, 0.0,
                   0.0, 0.0, 0.0, 0.0, 0.0, 0.0, 0, 0, 0)
  }

  /** What the bus would answer to each read of one sampling step: the two AHT
      getEvent calls (temperature first, then humidity) and the three channel voltages. */
  datatype BusInputs = BusInputs(
    temperatureEvent: Option<AhtEvent>,
    humidityEvent: Option<AhtEvent>,
    pressureVolts: real,
    current1Volts: real,
    current2Volts: real)

  /** The five read results, None where the read returned false. */
  datatype Readings = Readings(
    temperature: Option<real>,
    humidity: Option<real>,
    pressure: Option<real>,
    current1: Option<real>,
    current2: Option<real>)

  datatype Sampled = Sampled(readings: Readings, next: SensorState)

  /** A field the failed read did not write; the firmware leaves it indeterminate. */
  function ValueOr(o: Option<real>): real {
    if o.Some? then o.value else 0.0
  }

  predicate AllRead(r: Readings) {
    r.temperature.Some? && r.humidity.Some? && r.pressure.Some? && r.current1.Some? && r.current2.Some?
  }

  /** The record built by one sampling step. */
  function Record(r: Readings, now: nat): (d: SensorData)
    ensures d.valid <==> AllRead(r)
    ensures d.timestamp == now
    ensures r.temperature.Some? ==> d.temperature == r.temperature.value
    ensures r.humidity.Some? ==> d.humidity == r.humidity.value
    ensures r.pressure.Some? ==> d.pressure == r.pressure.value
    ensures r.current1.Some? ==> d.current1 == r.current1.value
    ensures r.current2.Some? ==> d.current2 == r.current2.value
  {
    SensorData(ValueOr(r.temperature), ValueOr(r.humidity), ValueOr(r.pressure),
               ValueOr(r.current1), ValueOr(r.current2), now, AllRead(r))
  }

  predicate ReadTimesBefore(st: SensorState, now: nat) {
    now >= st.lastTempRead && now >= st.lastPressureRead && now >= st.lastCurrentRead
  }

  /** The five reads of collectSensorData, in order, each seeing the state the
      previous one left. */
  function Sample(st: SensorState, now: nat, bus: BusInputs): (r: Sampled)
    requires ReadTimesBefore(st, now)
    ensures ReadTimesBefore(r.next, now)
    ensures r.next.pressureCal == st.pressureCal && r.next.current1Cal == st.current1Cal &&
            r.next.current2Cal == st.current2Cal
    ensures r.next.ahtInitialized == st.ahtInitialized && r.next.adsInitialized == st.adsInitialized
  {
    var t := ReadTemperature(st, now, bus.temperatureEvent);
    var h := ReadHumidity(t.next, now, bus.humidityEvent);
    var p := ReadPressure(h.next, now, bus.pressureVolts);
    var c1 := ReadCurrent1(p.next, now, bus.current1Volts);
    var c2 := ReadCurrent2(c1.next, bus.current2Volts);
    Sampled(Readings(t.value, h.value, p.value, c1.value, c2.value), c2.next)
  }

  /** A filter is fed a reading only when its read succeeded. */
  function Feed(st: FilterState, reading: Option<real>): FilterState
    requires WellFormed(st)
  {
    if reading.Some? then Offer(st, Finite(reading.value)) else st
  }

  /** The five filters' states, in the order the firmware declares them. */
  datatype Bank = Bank(
    temperature: FilterState,
    humidity: FilterState,
    pressure: FilterState,
    current1: FilterState,
    current2: FilterState)

  predicate BankWellFormed(b: Bank) {
    WellFormed(b.temperature) && WellFormed(b.humidity) && WellFormed(b.pressure) &&
    WellFormed(b.current1) && WellFormed(b.current2)
  }

  /** Every filter fed its own reading. */
  function FeedAll(b: Bank, r: Readings): Bank
    requires BankWellFormed(b)
  {
    Bank(Feed(b.temperature, r.temperature), Feed(b.humidity, r.humidity),
         Feed(b.pressure, r.pressure), Feed(b.current1, r.current1), Feed(b.current2, r.current2))
  }

  /** A filter after reset(): empty, with its tuning kept. */
  function Cleared(st: FilterState): FilterState {
    Empty(FilterSize, st.outlierThreshold, st.smoothing)
  }

  function ClearAll(b: Bank): Bank {
    Bank(Cleared(b.temperature), Cleared(b.humidity), Cleared(b.pressure),
         Cleared(b.current1), Cleared(b.current2))
  }

  /** aggregateData runs only once both gating filters are half full. */
  predicate ReadyToAggregate(b: Bank) {
    Ready(b.temperature) && Ready(b.current1)
  }

  /** The enqueue at the end of collectSensorData: valid samples only, dropped when full. */
  function Enqueue(queue: seq<SensorData>, hasQueue: bool, d: SensorData): (q: seq<SensorData>)
    ensures |queue| <= QueueSize ==> |q| <= QueueSize
    ensures q == queue || q == queue + [d]
    ensures q != queue <==> d.valid && hasQueue && |queue| < QueueSize
  {
    if d.valid && hasQueue && |queue| < QueueSize then queue + [d] else queue
  }

  // ---------------------------------------------------------------------------
  // Aggregation
  // ---------------------------------------------------------------------------

  /** calculateDutyCycle as the loop computes it: every iteration tests the same
      average, so the result is 0 or 100. */
  function DutyCycle(st: FilterState, threshold: real): (d: real)
    requires st.count <= |st.slots|
    ensures d == 0.0 || d == 100.0
    ensures d == 100.0 <==> st.count > 0 && Mean(Window(st)) > threshold
  {
    if st.count == 0 then 0.0
    else if Mean(Window(st)) > threshold then 100.0
    else 0.0
  }

  /** The percentage of `above` out of `total` iterations, when all or none counted. */
  lemma AllOrNothing(above: nat, total: nat)
    requires total > 0 && (above == 0 || above == total)
    ensures (above as real) / (total as real) * 100.0 == if above == total then 100.0 else 0.0
  {
    if above == total {
      assert (above as real) / (total as real) == 1.0;
    }
  }

  function Min(a: nat, b: nat): nat {
    if a <= b then a else b
  }

  /** The summary aggregateData builds from the five filters. */
  function Summarize(b: Bank, threshold1: real, threshold2: real, start: nat, end: nat): (a: AggregatedData)
    requires BankWellFormed(b)
    ensures var t, h, p, c1, c2 := b.temperature, b.humidity, b.pressure, b.current1, b.current2;
            a.sampleCount == Min(t.count, c1.count)
    ensures a.startTime == start && a.endTime == end
    ensures b.temperature.count > 0 ==> a.tempMin <= a.tempAvg <= a.tempMax
    ensures b.humidity.count > 0 ==> a.humMin <= a.humAvg <= a.humMax
    ensures b.pressure.count > 0 ==> a.pressMin <= a.pressAvg <= a.pressMax
    ensures b.current1.count > 0 ==> a.current1Min <= a.current1Avg <= a.current1Max
    ensures b.current2.count > 0 ==> a.current2Min <= a.current2Avg <= a.current2Max
    ensures a.current1Rms >= 0.0 && a.current2Rms >= 0.0
    ensures a.dutyCycle1 == DutyCycle(b.current1, threshold1) && a.dutyCycle2 == DutyCycle(b.current2, threshold2)
  {
    var t, h, p, c1, c2 := b.temperature, b.humidity, b.pressure, b.current1, b.current2;
    assert t.count > 0 ==> Minimum(Window(t)) <= Mean(Window(t)) <= Maximum(Window(t)) by {
      if t.count > 0 { MeanBetweenMinAndMax(Window(t)); }
    }
    assert h.count > 0 ==> Minimum(Window(h)) <= Mean(Window(h)) <= Maximum(Window(h)) by {
      if h.count > 0 { MeanBetweenMinAndMax(Window(h)); }
    }
    assert p.count > 0 ==> Minimum(Window(p)) <= Mean(Window(p)) <= Maximum(Window(p)) by {
      if p.count > 0 { MeanBetweenMinAndMax(Window(p)); }
    }
    assert c1.count > 0 ==> Minimum(Window(c1)) <= Mean(Window(c1)) <= Maximum(Window(c1)) by {
      if c1.count > 0 { MeanBetweenMinAndMax(Window(c1)); }
    }
    assert c2.count > 0 ==> Minimum(Window(c2)) <= Mean(Window(c2)) <= Maximum(Window(c2)) by {
      if c2.count > 0 { MeanBetweenMinAndMax(Window(c2)); }
    }
    MeanSquareNonNegative(Window(c1));
    MeanSquareNonNegative(Window(c2));
    AggregatedData(
      Minimum(Window(t)), Maximum(Window(t)), Mean(Window(t)),
      Minimum(Window(h)), Maximum(Window(h)), Mean(Window(h)),
      Minimum(Window(p)), Maximum(Window(p)), Mean(Window(p)),
      Minimum(Window(c1)), Maximum(Window(c1)), Mean(Window(c1)), MeanSquare(Window(c1)),
      Minimum(Window(c2)), Maximum(Window(c2)), Mean(Window(c2)), MeanSquare(Window(c2)),
      DutyCycle(c1, threshold1), DutyCycle(c2, threshold2),
      start, end, Min(t.count, c1.count))
  }

  // ---------------------------------------------------------------------------
  // Properties
  // ---------------------------------------------------------------------------

  /** Once more than five seconds have passed, a temperature read that succeeds
      from the bus caches that event's humidity, and the humidity read of the same
      step returns it from the cache: the humidity recorded is never checked
      against [0, 100] and the second bus answer is never used. */
  lemma {:induction false} HumidityTakenFromTemperatureRead(st: SensorState, now: nat, bus: BusInputs)
    requires ReadTimesBefore(st, now) && now >= st.lastTempRead + TempReadInterval
    requires ReadTemperature(st, now, bus.temperatureEvent).value.Some?
    ensures bus.temperatureEvent.Some?
    ensures Sample(st, now, bus).readings.humidity == Some(bus.temperatureEvent.value.humidity)
  {
    var t := ReadTemperature(st, now, bus.temperatureEvent);
    TemperatureFromBus(st, now, bus.temperatureEvent);
    HumidityFollowsTemperature(st, now, bus.temperatureEvent.value, bus.humidityEvent);
    assert ReadHumidity(t.next, now, bus.humidityEvent).value == Some(bus.temperatureEvent.value.humidity);
  }

  /** The pressure and current values of every successful sampling step are in
      range, and the caches stay so. */
  lemma {:induction false} SampledValuesInRange(st: SensorState, now: nat, bus: BusInputs)
    requires ReadTimesBefore(st, now) && CachesInRange(st)
    ensures var s := Sample(st, now, bus);
            CachesInRange(s.next) &&
            (s.readings.pressure.Some? ==> ValidPressure(s.readings.pressure.value)) &&
            (s.readings.current1.Some? ==> ValidCurrent(s.readings.current1.value)) &&
            (s.readings.current2.Some? ==> ValidCurrent(s.readings.current2.value))
  {
    var t := ReadTemperature(st, now, bus.temperatureEvent);
    var h := ReadHumidity(t.next, now, bus.humidityEvent);
    var p := ReadPressure(h.next, now, bus.pressureVolts);
    var c1 := ReadCurrent1(p.next, now, bus.current1Volts);
    CachesStayInRange(st, now, bus.temperatureEvent, 0.0);
    CachesStayInRange(t.next, now, bus.humidityEvent, 0.0);
    CachesStayInRange(h.next, now, bus.humidityEvent, bus.pressureVolts);
    ReportedValuesInRange(h.next, now, bus.pressureVolts);
    CachesStayInRange(p.next, now, bus.humidityEvent, bus.current1Volts);
    ReportedValuesInRange(p.next, now, bus.current1Volts);
    CachesStayInRange(c1.next, now, bus.humidityEvent, bus.current2Volts);
    ReportedValuesInRange(c1.next, now, bus.current2Volts);
  }

  /** When aggregation runs both gating filters are at least half full, so the
      window holds at least ten samples of each and the temperature and current 1
      summaries are ordered. */
  lemma AggregateWhenReady(b: Bank, threshold1: real, threshold2: real, start: nat, end: nat)
    requires BankWellFormed(b) && ReadyToAggregate(b)
    requires |b.temperature.slots| == FilterSize && |b.current1.slots| == FilterSize
    ensures var a := Summarize(b, threshold1, threshold2, start, end);
            a.sampleCount >= FilterSize / 2 &&
            a.tempMin <= a.tempAvg <= a.tempMax && a.current1Min <= a.current1Avg <= a.current1Max
  {
  }

  // ---------------------------------------------------------------------------
  // The object
  // ---------------------------------------------------------------------------

  class Collector {
    const sensorManager: Manager?
    const tempFilter: Filter
    const humFilter: Filter
    const pressFilter: Filter
    const current1Filter: Filter
    const current2Filter: Filter

    var running: bool
    /** Whether the queue, mutex and task handles are non-null. */
    var queueAllocated: bool
    var mutexAllocated: bool
    var collectionTask: bool
    var aggregationTask: bool
    /** The samples waiting in the queue, oldest first. */
    var queue: seq<SensorData>
    var currentData: SensorData
    var lastAggregated: AggregatedData
    var lastAggregationTime: nat
    var currentThreshold1: real
    var currentThreshold2: real

    /** The five filters and their buffers are distinct objects. */
    ghost predicate Separate() {
      tempFilter != humFilter && tempFilter != pressFilter && tempFilter != current1Filter &&
      tempFilter != current2Filter && humFilter != pressFilter && humFilter != current1Filter &&
      humFilter != current2Filter && pressFilter != current1Filter && pressFilter != current2Filter &&
      current1Filter != current2Filter &&
      tempFilter.buffer != humFilter.buffer && tempFilter.buffer != pressFilter.buffer &&
      tempFilter.buffer != current1Filter.buffer && tempFilter.buffer != current2Filter.buffer &&
      humFilter.buffer != pressFilter.buffer && humFilter.buffer != current1Filter.buffer &&
      humFilter.buffer != current2Filter.buffer && pressFilter.buffer != current1Filter.buffer &&
      pressFilter.buffer != current2Filter.buffer && current1Filter.buffer != current2Filter.buffer
    }

    ghost predicate FiltersValid()
      reads tempFilter, humFilter, pressFilter, current1Filter, current2Filter
      reads tempFilter.buffer, humFilter.buffer, pressFilter.buffer, current1Filter.buffer, current2Filter.buffer
    {
      tempFilter.Valid() && humFilter.Valid() && pressFilter.Valid() &&
      current1Filter.Valid() && current2Filter.Valid() &&
      tempFilter.bufferSize == FilterSize && humFilter.bufferSize == FilterSize &&
      pressFilter.bufferSize == FilterSize && current1Filter.bufferSize == FilterSize &&
      current2Filter.bufferSize == FilterSize
    }

    /** The five filters' states. */
    ghost function Filters(): Bank
      reads tempFilter, humFilter, pressFilter, current1Filter, current2Filter
      reads tempFilter.buffer, humFilter.buffer, pressFilter.buffer, current1Filter.buffer, current2Filter.buffer
    {
      Bank(tempFilter.State(), humFilter.State(), pressFilter.State(), current1Filter.State(), current2Filter.State())
    }

    /** The collector's own invariant; the filters' invariants are FiltersValid. */
    ghost predicate Valid()
      reads this, sensorManager
    {
      Separate() &&
      (sensorManager != null ==> sensorManager.Valid()) &&
      |queue| <= QueueSize &&
      (!queueAllocated ==> queue == [])
    }

    constructor (manager: Manager?)
      requires manager != null ==> manager.Valid()
      ensures Valid() && FiltersValid() && sensorManager == manager
      ensures !running && !queueAllocated && !mutexAllocated && !collectionTask && !aggregationTask
      ensures queue == [] && currentData == ZeroData() && lastAggregated == ZeroAggregate()
      ensures lastAggregationTime == 0 && currentThreshold1 == 0.5 && currentThreshold2 == 0.5
      ensures Filters() == Bank(Empty(FilterSize, 2.0, 0.1), Empty(FilterSize, 2.0, 0.1), Empty(FilterSize, 2.0, 0.1),
                                Empty(FilterSize, 1.5, 0.2), Empty(FilterSize, 1.5, 0.2))
    {
      sensorManager := manager;
      var t, h, p, c1, c2 := NewFilters();
      tempFilter, humFilter, pressFilter, current1Filter, current2Filter := t, h, p, c1, c2;
      queueAllocated, queue := false, [];
      mutexAllocated := false;
      collectionTask := false;
      aggregationTask := false;
      running := false;
      lastAggregationTime := 0;
      currentThreshold1 := 0.5;
      currentThreshold2 := 0.5;
      currentData := ZeroData();
      lastAggregated := ZeroAggregate();
    }

    /** One of the collector's filters, empty and with the given tuning. */
    static method NewFilter(outlierThreshold: real, smoothing: real) returns (f: Filter)
      ensures fresh(f) && fresh(f.buffer) && f.Valid() && f.bufferSize == FilterSize
      ensures f.State() == Empty(FilterSize, outlierThreshold, smoothing)
    {
      f := new Filter(FilterSize, outlierThreshold, smoothing);
    }

    /** The constructor's five allocations: three environment filters and two
        current filters, each with its own buffer. */
    static method NewFilters() returns (t: Filter, h: Filter, p: Filter, c1: Filter, c2: Filter)
      ensures fresh(t) && fresh(t.buffer) && t.Valid() && t.bufferSize == FilterSize && t.State() == Empty(FilterSize, 2.0, 0.1)
      ensures fresh(h) && fresh(h.buffer) && h.Valid() && h.bufferSize == FilterSize && h.State() == Empty(FilterSize, 2.0, 0.1)
      ensures fresh(p) && fresh(p.buffer) && p.Valid() && p.bufferSize == FilterSize && p.State() == Empty(FilterSize, 2.0, 0.1)
      ensures fresh(c1) && fresh(c1.buffer) && c1.Valid() && c1.bufferSize == FilterSize && c1.State() == Empty(FilterSize, 1.5, 0.2)
      ensures fresh(c2) && fresh(c2.buffer) && c2.Valid() && c2.bufferSize == FilterSize && c2.State() == Empty(FilterSize, 1.5, 0.2)
      ensures t != h && t != p && t != c1 && t != c2 && h != p && h != c1 && h != c2 && p != c1 && p != c2 && c1 != c2
      ensures t.buffer != h.buffer && t.buffer != p.buffer && t.buffer != c1.buffer && t.buffer != c2.buffer
      ensures h.buffer != p.buffer && h.buffer != c1.buffer && h.buffer != c2.buffer
      ensures p.buffer != c1.buffer && p.buffer != c2.buffer && c1.buffer != c2.buffer
    {
      t := NewFilter(2.0, 0.1);
      h := NewFilter(2.0, 0.1);
      p := NewFilter(2.0, 0.1);
      c1 := NewFilter(1.5, 0.2);
      c2 := NewFilter(1.5, 0.2);
    }

    /** begin. The four creation results are parameters. When task creation fails
        the internal stop() finds the collector not running and returns at once,
        so the queue, the mutex and any task that was created stay allocated. */
    method Begin(queueCreated: bool, mutexCreated: bool, collectionCreated: bool, aggregationCreated: bool,
                 now: nat) returns (ok: bool)
      requires Valid()
      modifies this`running, this`queueAllocated, this`mutexAllocated, this`collectionTask,
               this`aggregationTask, this`queue, this`lastAggregationTime
      ensures Valid()
      ensures old(running) ==> ok && unchanged(this)
      ensures !old(running) ==> ok == (queueCreated && mutexCreated && collectionCreated && aggregationCreated)
      ensures !old(running) && ok ==>
                running && queueAllocated && mutexAllocated && collectionTask && aggregationTask &&
                queue == [] && lastAggregationTime == now
      ensures !old(running) && !ok ==> !running && lastAggregationTime == old(lastAggregationTime)
      ensures !old(running) && !queueCreated ==>
                !queueAllocated && queue == [] && running == old(running) &&
                mutexAllocated == old(mutexAllocated) && collectionTask == old(collectionTask) &&
                aggregationTask == old(aggregationTask) && lastAggregationTime == old(lastAggregationTime)
      ensures !old(running) && queueCreated && !ok ==>
                queueAllocated && queue == [] &&
                mutexAllocated == mutexCreated &&
                (mutexCreated ==> collectionTask == collectionCreated && aggregationTask == aggregationCreated) &&
                (!mutexCreated ==> collectionTask == old(collectionTask) && aggregationTask == old(aggregationTask))
    {
      if running {
        return true;
      }
      if !queueCreated {
        // xQueueCreate's NULL is stored in the handle before the test
        queueAllocated, queue := false, [];
        return false;
      }
      queueAllocated, queue := true, [];
      if !mutexCreated {
        // vQueueDelete releases the queue but the handle is not cleared
        mutexAllocated := false;
        return false;
      }
      mutexAllocated := true;
      collectionTask := collectionCreated;
      aggregationTask := aggregationCreated;
      if !collectionCreated || !aggregationCreated {
        Stop();
        return false;
      }
      running := true;
      lastAggregationTime := now;
      return true;
    }

    /** stop: a no-op unless running; otherwise deletes the tasks, the queue and the mutex. */
    method Stop()
      requires Valid()
      modifies this`running, this`queueAllocated, this`mutexAllocated, this`collectionTask,
               this`aggregationTask, this`queue
      ensures Valid()
      ensures !old(running) ==> unchanged(this)
      ensures old(running) ==>
                !running && !queueAllocated && !mutexAllocated && !collectionTask && !aggregationTask &&
                queue == []
    {
      if !running {
        return;
      }
      running := false;
      collectionTask := false;
      aggregationTask := false;
      queueAllocated, queue := false, [];
      mutexAllocated := false;
    }

    /** getCurrentData; `lockTaken` is whether the mutex was obtained in time. */
    method GetCurrentData(lockTaken: bool) returns (ok: bool, data: SensorData)
      ensures ok <==> running && lockTaken && currentData.valid
      ensures running && lockTaken ==> data == currentData
    {
      if !running {
        return false, ZeroData();
      }
      if lockTaken {
        data := currentData;
        return data.valid, data;
      }
      return false, ZeroData();
    }

    /** getAggregatedData; `lockTaken` is whether the mutex was obtained in time. */
    method GetAggregatedData(lockTaken: bool) returns (ok: bool, data: AggregatedData)
      ensures ok <==> running && lockTaken && lastAggregated.sampleCount > 0
      ensures running && lockTaken ==> data == lastAggregated
    {
      if !running {
        return false, ZeroAggregate();
      }
      if lockTaken {
        data := lastAggregated;
        return data.sampleCount > 0, data;
      }
      return false, ZeroAggregate();
    }

    method SetCurrentThresholds(threshold1: real, threshold2: real)
      modifies this`currentThreshold1, this`currentThreshold2
      ensures currentThreshold1 == threshold1 && currentThreshold2 == threshold2
    {
      currentThreshold1 := threshold1;
      currentThreshold2 := threshold2;
    }

    /** getQueueSize. */
    function QueueLength(): (n: nat)
      reads this
      ensures n <= |queue|
      ensures queueAllocated ==> n == |queue|
      ensures !queueAllocated ==> n == 0
    {
      if queueAllocated then |queue| else 0
    }

    /** collectSensorData; `bus` gives what each read would get from the hardware and
        `lockTaken` whether the mutex was obtained in time. */
    method CollectSensorData(now: nat, bus: BusInputs, lockTaken: bool)
      requires Valid() && FiltersValid()
      requires sensorManager != null ==> ReadTimesBefore(sensorManager.State(), now)
      modifies this`currentData, this`queue, sensorManager
      modifies tempFilter, humFilter, pressFilter, current1Filter, current2Filter
      modifies tempFilter.buffer, humFilter.buffer, pressFilter.buffer, current1Filter.buffer, current2Filter.buffer
      ensures Valid() && FiltersValid()
      ensures sensorManager == null || !IsHealthy(old(sensorManager.State())) ==>
                unchanged(this) && (sensorManager != null ==> unchanged(sensorManager)) &&
                unchanged(tempFilter, humFilter, pressFilter, current1Filter, current2Filter) &&
                unchanged(tempFilter.buffer, humFilter.buffer, pressFilter.buffer,
                          current1Filter.buffer, current2Filter.buffer)
      ensures sensorManager != null && IsHealthy(old(sensorManager.State())) ==>
                var s := Sample(old(sensorManager.State()), now, bus);
                var d := Record(s.readings, now);
                sensorManager.State() == s.next &&
                Filters() == FeedAll(old(Filters()), s.readings) &&
                currentData == (if lockTaken then d else old(currentData)) &&
                queue == Enqueue(old(queue), queueAllocated, d)
    {
      if sensorManager == null {
        return;
      }
      var healthy := sensorManager.Healthy();
      if !healthy {
        return;
      }
      var readings := ReadChannels(now, bus);
      FeedFilters(readings);
      var data := Record(readings, now);
      Publish(data, lockTaken);
    }

    /** The tail of collectSensorData: the snapshot under the mutex, then the queue. */
    method Publish(data: SensorData, lockTaken: bool)
      requires |queue| <= QueueSize
      modifies this`currentData, this`queue
      ensures currentData == (if lockTaken then data else old(currentData))
      ensures queue == Enqueue(old(queue), queueAllocated, data)
    {
      if lockTaken {
        currentData := data;
      }
      if data.valid && queueAllocated {
        if |queue| < QueueSize {
          queue := queue + [data];
        }
        // otherwise the queue is full and the sample is dropped
      }
    }

    /** The five reads of collectSensorData, in order. */
    method ReadChannels(now: nat, bus: BusInputs) returns (readings: Readings)
      requires sensorManager != null && sensorManager.Valid() && ReadTimesBefore(sensorManager.State(), now)
      modifies sensorManager
      ensures sensorManager.Valid()
      ensures Sampled(readings, sensorManager.State()) == Sample(old(sensorManager.State()), now, bus)
    {
      var temperature := sensorManager.ReadTemperatureAt(now, bus.temperatureEvent);
      var humidity := sensorManager.ReadHumidityAt(now, bus.humidityEvent);
      var pressure := sensorManager.ReadPressureAt(now, bus.pressureVolts);
      var current1 := sensorManager.ReadCurrent1At(now, bus.current1Volts);
      var current2 := sensorManager.ReadCurrent2At(bus.current2Volts);
      readings := Readings(temperature, humidity, pressure, current1, current2);
    }

    /** Each filter is fed its reading when the read succeeded. */
    method FeedFilters(readings: Readings)
      requires Separate() && FiltersValid()
      modifies tempFilter, humFilter, pressFilter, current1Filter, current2Filter
      modifies tempFilter.buffer, humFilter.buffer, pressFilter.buffer, current1Filter.buffer, current2Filter.buffer
      ensures FiltersValid()
      ensures Filters() == FeedAll(old(Filters()), readings)
    {
      FeedTwo(tempFilter, readings.temperature, humFilter, readings.humidity);
      FeedTwo(pressFilter, readings.pressure, current1Filter, readings.current1);
      FeedOne(current2Filter, readings.current2);
    }

    static method FeedTwo(a: Filter, ra: Option<real>, b: Filter, rb: Option<real>)
      requires a.Valid() && b.Valid() && a != b && a.buffer != b.buffer
      modifies a, a.buffer, b, b.buffer
      ensures a.Valid() && b.Valid()
      ensures a.State() == Feed(old(a.State()), ra)
      ensures b.State() == Feed(old(b.State()), rb)
    {
      FeedOne(a, ra);
      FeedOne(b, rb);
    }

    /** `if (ok) filter->addSample(value)`. */
    static method FeedOne(filter: Filter, reading: Option<real>)
      requires filter.Valid()
      modifies filter, filter.buffer
      ensures filter.Valid()
      ensures filter.State() == Feed(old(filter.State()), reading)
    {
      if reading.Some? {
        filter.AddSample(Finite(reading.value));
      }
    }

    /** calculateDutyCycle: counts the iterations whose average exceeds the
        threshold, then scales to a percentage. */
    method CalculateDutyCycle(filter: Filter, threshold: real) returns (duty: real)
      requires filter.Layout()
      ensures duty == DutyCycle(filter.State(), threshold)
    {
      var total := filter.GetSampleCount();
      if total == 0 {
        return 0.0;
      }
      ghost var mean := Mean(Window(filter.State()));
      var above: nat := 0;
      for i := 0 to total
        invariant above == if mean > threshold then i else 0
      {
        var avg := filter.GetAverage();
        if avg > threshold {
          above := above + 1;
        }
      }
      AllOrNothing(above, total);
      return (above as real) / (total as real) * 100.0;
    }

    /** aggregateData: nothing unless the temperature and current 1 filters are
        ready; otherwise the summary is published when the lock is taken and the
        five filters are reset in any case. */
    method AggregateData(now: nat, lockTaken: bool)
      requires Valid() && FiltersValid()
      modifies this`lastAggregated
      modifies tempFilter, humFilter, pressFilter, current1Filter, current2Filter
      modifies tempFilter.buffer, humFilter.buffer, pressFilter.buffer, current1Filter.buffer, current2Filter.buffer
      ensures Valid() && FiltersValid()
      ensures !ReadyToAggregate(old(Filters())) ==>
                unchanged(this) &&
                unchanged(tempFilter, humFilter, pressFilter, current1Filter, current2Filter) &&
                unchanged(tempFilter.buffer, humFilter.buffer, pressFilter.buffer,
                          current1Filter.buffer, current2Filter.buffer)
      ensures ReadyToAggregate(old(Filters())) ==>
                lastAggregated == (if lockTaken
                                   then Summarize(old(Filters()), currentThreshold1, currentThreshold2,
                                                  lastAggregationTime, now)
                                   else old(lastAggregated)) &&
                Filters() == ClearAll(old(Filters()))
    {
      if !tempFilter.IsReady() || !current1Filter.IsReady() {
        return;
      }
      AggregateReady(now, lockTaken);
    }

    /** aggregateData past its readiness test. */
    method AggregateReady(now: nat, lockTaken: bool)
      requires Valid() && FiltersValid()
      modifies this`lastAggregated
      modifies tempFilter, humFilter, pressFilter, current1Filter, current2Filter
      modifies tempFilter.buffer, humFilter.buffer, pressFilter.buffer, current1Filter.buffer, current2Filter.buffer
      ensures Valid() && FiltersValid()
      ensures lastAggregated == (if lockTaken
                                 then Summarize(old(Filters()), currentThreshold1, currentThreshold2,
                                                lastAggregationTime, now)
                                 else old(lastAggregated))
      ensures Filters() == ClearAll(old(Filters()))
    {
      var aggregated := Summary(now);
      PublishAggregate(aggregated, lockTaken);
      ResetFilters();
    }

    /** The mutex-guarded store of the new summary. */
    method PublishAggregate(aggregated: AggregatedData, lockTaken: bool)
      requires FiltersValid()
      modifies this`lastAggregated
      ensures FiltersValid() && Filters() == old(Filters())
      ensures lastAggregated == (if lockTaken then aggregated else old(lastAggregated))
    {
      if lockTaken {
        lastAggregated := aggregated;
      }
    }

    /** The five reset() calls at the end of aggregateData. */
    method ResetFilters()
      requires Separate() && FiltersValid()
      modifies tempFilter, humFilter, pressFilter, current1Filter, current2Filter
      modifies tempFilter.buffer, humFilter.buffer, pressFilter.buffer, current1Filter.buffer, current2Filter.buffer
      ensures FiltersValid()
      ensures Filters() == ClearAll(old(Filters()))
    {
      ResetTwo(tempFilter, humFilter);
      ResetTwo(pressFilter, current1Filter);
      current2Filter.Reset();
    }

    static method ResetTwo(a: Filter, b: Filter)
      requires a.Valid() && b.Valid() && a != b && a.buffer != b.buffer
      modifies a, a.buffer, b, b.buffer
      ensures a.Valid() && b.Valid()
      ensures a.State() == Empty(a.bufferSize, old(a.outlierThreshold), old(a.smoothingFactor))
      ensures b.State() == Empty(b.bufferSize, old(b.outlierThreshold), old(b.smoothingFactor))
    {
      a.Reset();
      b.Reset();
    }

    /** getMin, getMax and getAverage of one filter. */
    method Statistics(filter: Filter) returns (lo: real, hi: real, avg: real)
      requires filter.Layout()
      ensures var w := Window(filter.State());
              lo == Minimum(w) && hi == Maximum(w) && avg == Mean(w)
      ensures filter.samplesCount > 0 ==> lo <= avg <= hi
    {
      lo := filter.GetMin();
      hi := filter.GetMax();
      avg := filter.GetAverage();
      if filter.samplesCount > 0 {
        MeanBetweenMinAndMax(Window(filter.State()));
      }
    }

    /** The statistics of a current filter: getMin, getMax, getAverage,
        getRMS and the duty cycle against its threshold. */
    method CurrentStatistics(filter: Filter, threshold: real) returns (lo: real, hi: real, avg: real, rms: real, duty: real)
      requires filter.Layout()
      ensures var w := Window(filter.State());
              lo == Minimum(w) && hi == Maximum(w) && avg == Mean(w) && rms == MeanSquare(w)
      ensures duty == DutyCycle(filter.State(), threshold)
      ensures duty == 0.0 || duty == 100.0
    {
      lo, hi, avg := Statistics(filter);
      rms := filter.GetMeanSquare();
      duty := CalculateDutyCycle(filter, threshold);
    }

    /** The statistics half of aggregateData, read from the five filters. No
        read changes a filter, so the duty cycles are taken with each current's
        statistics rather than after both. */
    method Summary(now: nat) returns (a: AggregatedData)
      requires FiltersValid()
      ensures a == Summarize(Filters(), currentThreshold1, currentThreshold2, lastAggregationTime, now)
    {
      var tMin, tMax, tAvg := Statistics(tempFilter);
      var hMin, hMax, hAvg := Statistics(humFilter);
      var pMin, pMax, pAvg := Statistics(pressFilter);
      var c1Min, c1Max, c1Avg, c1Rms, duty1 := CurrentStatistics(current1Filter, currentThreshold1);
      var c2Min, c2Max, c2Avg, c2Rms, duty2 := CurrentStatistics(current2Filter, currentThreshold2);
      var count := Min(tempFilter.GetSampleCount(), current1Filter.GetSampleCount());
      a := AggregatedData(tMin, tMax, tAvg, hMin, hMax, hAvg, pMin, pMax, pAvg,
                          c1Min, c1Max, c1Avg, c1Rms, c2Min, c2Max, c2Avg, c2Rms,
                          duty1, duty2, lastAggregationTime, now, count);
    }

    /** One pass of the aggregation task: aggregate once a full interval has passed
        since the last aggregation, then restart the interval. */
    method AggregationTick(now: nat, lockTaken: bool)
      requires Valid() && FiltersValid() && now >= lastAggregationTime
      modifies this`lastAggregated, this`lastAggregationTime
      modifies tempFilter, humFilter, pressFilter, current1Filter, current2Filter
      modifies tempFilter.buffer, humFilter.buffer, pressFilter.buffer, current1Filter.buffer, current2Filter.buffer
      ensures Valid() && FiltersValid()
      ensures lastAggregationTime == if now - old(lastAggregationTime) >= AggregationInterval then now
                                     else old(lastAggregationTime)
      ensures now - old(lastAggregationTime) < AggregationInterval ==>
                unchanged(this) && Filters() == old(Filters())
      ensures now - old(lastAggregationTime) >= AggregationInterval && !ReadyToAggregate(old(Filters())) ==>
                Filters() == old(Filters()) && lastAggregated == old(lastAggregated)
      ensures now - old(lastAggregationTime) >= AggregationInterval && ReadyToAggregate(old(Filters())) ==>
                Filters() == ClearAll(old(Filters())) &&
                lastAggregated == (if lockTaken
                                   then Summarize(old(Filters()), currentThreshold1, currentThreshold2,
                                                  old(lastAggregationTime), now)
                                   else old(lastAggregated))
    {
      if now - lastAggregationTime >= AggregationInterval {
        AggregateData(now, lockTaken);
        lastAggregationTime := now;
      }
    }
  }
}
