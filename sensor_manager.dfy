/** Calibrated, range-checked and rate-limited reads of the AHT10 temperature and
    humidity sensor and of three ADS1115 channels (pressure, current 1, current 2).
    The bus results (an AHT event, a channel voltage) are parameters. */
module SensorManager {
  import opened Wrappers

  const TempReadInterval: nat := 5000
  const PressureReadInterval: nat := 3000
  const CurrentReadInterval: nat := 1000
  /** The ADC full-scale voltage at gain 2/3, the upper end of two-point calibration. */
  const FullScaleVolts: real := 6.144

  /** One getEvent result: temperature in °C and relative humidity in %. */
  datatype AhtEvent = AhtEvent(celsius: real, humidity: real)

  /** A linear channel: value = (volts - offset) * scale. */
  datatype Calibration = Calibration(offset: real, scale: real)

  predicate ValidTemperature(t: real) { -40.0 <= t <= 150.0 }
  predicate ValidHumidity(h: real) { 0.0 <= h <= 100.0 }
  predicate ValidPressure(p: real) { 0.0 <= p <= 150.0 }
  /** Bidirectional Hall sensors: negative currents are allowed. */
  predicate ValidCurrent(c: real) { -50.0 <= c <= 50.0 }

  function Fahrenheit(celsius: real): real {
    celsius * 9.0 / 5.0 + 32.0
  }

  function Convert(volts: real, cal: Calibration): real {
    (volts - cal.offset) * cal.scale
  }

  /** Every field of a SensorManager. */
  datatype SensorState = SensorState(
    pressureCal: Calibration,
    current1Cal: Calibration,
    current2Cal: Calibration,
    ahtInitialized: bool,
    adsInitialized: bool,
    lastTempRead: nat,
    lastPressureRead: nat,
    lastCurrentRead: nat,
    lastTemperature: real,
    lastHumidity: real,
    lastPressure: real,
    lastCurrent1: real,
    lastCurrent2: real)

  /** The state the constructor leaves: default calibrations, nothing initialised,
      zero timestamps and caches. */
  function Initial(): SensorState {
    SensorState(Calibration(0.5, 25.0), Calibration(2.5, 30.0), Calibration(2.5, 30.0),
                false, false, 0, 0, 0, 0.0, 0.0, 0.0, 0.0, 0.0)
  }

  /** The outcome of one read: the value when it returned true, and the new state. */
  datatype Reading = Reading(value: Option<real>, next: SensorState)

  predicate IsHealthy(st: SensorState) {
    st.ahtInitialized && st.adsInitialized
  }

  /** readTemperature. */
  function ReadTemperature(st: SensorState, now: nat, event: Option<AhtEvent>): (r: Reading)
    requires now >= st.lastTempRead
    ensures r.next == st.(lastTemperature := r.next.lastTemperature, lastHumidity := r.next.lastHumidity,
                          lastTempRead := r.next.lastTempRead)
    ensures r.next.lastTempRead == st.lastTempRead || r.next.lastTempRead == now
    ensures r.value.Some? && r.next != st ==> ValidTemperature(r.value.value)
  {
    if now - st.lastTempRead < TempReadInterval then Reading(Some(st.lastTemperature), st)
    else if !st.ahtInitialized || event.None? then Reading(None, st)
    else
      var t := Fahrenheit(event.value.celsius);
      if !ValidTemperature(t) then Reading(None, st)
      else Reading(Some(t), st.(lastTemperature := t, lastHumidity := event.value.humidity, lastTempRead := now))
  }

  /** readHumidity. */
  function ReadHumidity(st: SensorState, now: nat, event: Option<AhtEvent>): (r: Reading)
    requires now >= st.lastTempRead
    ensures r.next == st.(lastTemperature := r.next.lastTemperature, lastHumidity := r.next.lastHumidity,
                          lastTempRead := r.next.lastTempRead)
    ensures r.next.lastTempRead == st.lastTempRead || r.next.lastTempRead == now
    ensures r.value.Some? && r.next != st ==> ValidHumidity(r.value.value)
  {
    if now - st.lastTempRead < TempReadInterval then Reading(Some(st.lastHumidity), st)
    else if !st.ahtInitialized || event.None? then Reading(None, st)
    else
      var h := event.value.humidity;
      if !ValidHumidity(h) then Reading(None, st)
      else Reading(Some(h), st.(lastHumidity := h, lastTemperature := Fahrenheit(event.value.celsius),
                                lastTempRead := now))
  }

  /** readPressure; `volts` is what the ADC channel 2 read returned. */
  function ReadPressure(st: SensorState, now: nat, volts: real): (r: Reading)
    requires now >= st.lastPressureRead
    ensures r.next == st.(lastPressure := r.next.lastPressure, lastPressureRead := r.next.lastPressureRead)
    ensures r.next.lastPressureRead == st.lastPressureRead || r.next.lastPressureRead == now
    ensures r.value.Some? && r.next != st ==> ValidPressure(r.value.value)
  {
    if now - st.lastPressureRead < PressureReadInterval then Reading(Some(st.lastPressure), st)
    else if !st.adsInitialized || volts < 0.0 then Reading(None, st)
    else
      var p := Convert(volts, st.pressureCal);
      if !ValidPressure(p) then Reading(None, st)
      else Reading(Some(p), st.(lastPressure := p, lastPressureRead := now))
  }

  /** readCurrent1; `volts` is what the ADC channel 0 read returned. */
  function ReadCurrent1(st: SensorState, now: nat, volts: real): (r: Reading)
    requires now >= st.lastCurrentRead
    ensures r.next == st.(lastCurrent1 := r.next.lastCurrent1, lastCurrentRead := r.next.lastCurrentRead)
    ensures r.next.lastCurrentRead == st.lastCurrentRead || r.next.lastCurrentRead == now
    ensures r.value.Some? && r.next != st ==> ValidCurrent(r.value.value)
  {
    if now - st.lastCurrentRead < CurrentReadInterval then Reading(Some(st.lastCurrent1), st)
    else if !st.adsInitialized || volts < 0.0 then Reading(None, st)
    else
      var c := Convert(volts, st.current1Cal);
      if !ValidCurrent(c) then Reading(None, st)
      else Reading(Some(c), st.(lastCurrent1 := c, lastCurrentRead := now))
  }

  /** readCurrent2: no rate limit and no cached shortcut; `volts` is what the ADC
      channel 1 read returned. */
  function ReadCurrent2(st: SensorState, volts: real): (r: Reading)
    ensures r.next == st.(lastCurrent2 := r.next.lastCurrent2)
    ensures r.value.Some? ==> ValidCurrent(r.value.value) && r.next.lastCurrent2 == r.value.value
  {
    if !st.adsInitialized || volts < 0.0 then Reading(None, st)
    else
      var c := Convert(volts, st.current2Cal);
      if !ValidCurrent(c) then Reading(None, st)
      else Reading(Some(c), st.(lastCurrent2 := c))
  }

  /** calibrate*: the zero point maps to 0 and the ADC full scale to `fullScale`. */
  function TwoPoint(zeroPoint: real, fullScale: real): (cal: Calibration)
    requires zeroPoint != FullScaleVolts
    ensures Convert(zeroPoint, cal) == 0.0
    ensures Convert(FullScaleVolts, cal) == fullScale
  {
    var span := FullScaleVolts - zeroPoint;
    assert fullScale / span * span == fullScale;
    Calibration(zeroPoint, fullScale / span)
  }

  /** calibrate*AtValue. `raw` is what the channel read returned (-1 when the ADC
      is not initialised). */
  function AtValue(cal: Calibration, raw: real, known: real): (r: Calibration)
    requires raw > 0.0 && known != 0.0 ==> raw != cal.offset
    ensures raw <= 0.0 ==> r == cal
    ensures raw > 0.0 ==> Convert(raw, r) == known
    ensures raw > 0.0 && known == 0.0 ==> r.offset == raw && r.scale == cal.scale
    ensures known != 0.0 ==> r.offset == cal.offset
  {
    if raw <= 0.0 then cal
    else if known == 0.0 then cal.(offset := raw)
    else
      var span := raw - cal.offset;
      assert known / span * span == known;
      cal.(scale := known / span)
  }

  /** The channel reading the calibration routines use: readADSChannel returns -1
      when the ADC is not initialised. */
  function RawVoltage(st: SensorState, volts: real): real {
    if st.adsInitialized then volts else -1.0
  }

  /** The pressure and current caches only ever hold values that passed validation. */
  predicate CachesInRange(st: SensorState) {
    ValidPressure(st.lastPressure) && ValidCurrent(st.lastCurrent1) && ValidCurrent(st.lastCurrent2)
  }

  // ---------------------------------------------------------------------------
  // Properties of the reads
  // ---------------------------------------------------------------------------

  /** Inside the 5 s window both AHT reads answer from the cache without touching
      the bus, even when the sensor never initialised. */
  lemma AhtCacheWindow(st: SensorState, now: nat, event: Option<AhtEvent>)
    requires now >= st.lastTempRead && now - st.lastTempRead < TempReadInterval
    ensures ReadTemperature(st, now, event) == Reading(Some(st.lastTemperature), st)
    ensures ReadHumidity(st, now, event) == Reading(Some(st.lastHumidity), st)
  {
  }

  /** A failed read leaves every field as it was. */
  lemma FailedReadsChangeNothing(st: SensorState, now: nat, event: Option<AhtEvent>, volts: real)
    requires now >= st.lastTempRead && now >= st.lastPressureRead && now >= st.lastCurrentRead
    ensures ReadTemperature(st, now, event).value.None? ==> ReadTemperature(st, now, event).next == st
    ensures ReadHumidity(st, now, event).value.None? ==> ReadHumidity(st, now, event).next == st
    ensures ReadPressure(st, now, volts).value.None? ==> ReadPressure(st, now, volts).next == st
    ensures ReadCurrent1(st, now, volts).value.None? ==> ReadCurrent1(st, now, volts).next == st
    ensures ReadCurrent2(st, volts).value.None? ==> ReadCurrent2(st, volts).next == st
  {
  }

  /** A bus read of the temperature succeeds exactly when the sensor is up, the event
      arrived and its Fahrenheit value is in range; it then also overwrites the
      humidity cache with the unvalidated humidity and restarts the window. */
  lemma TemperatureFromBus(st: SensorState, now: nat, event: Option<AhtEvent>)
    requires now >= st.lastTempRead + TempReadInterval
    ensures var r := ReadTemperature(st, now, event);
            r.value.Some? <==> st.ahtInitialized && event.Some? && ValidTemperature(Fahrenheit(event.value.celsius))
    ensures var r := ReadTemperature(st, now, event);
            r.value.Some? ==>
              r.value.value == Fahrenheit(event.value.celsius) &&
              r.next == st.(lastTemperature := r.value.value, lastHumidity := event.value.humidity,
                            lastTempRead := now)
  {
  }

  /** The mirror image for humidity: validated in [0, 100]; the temperature cache
      is overwritten unvalidated. */
  lemma HumidityFromBus(st: SensorState, now: nat, event: Option<AhtEvent>)
    requires now >= st.lastTempRead + TempReadInterval
    ensures var r := ReadHumidity(st, now, event);
            r.value.Some? <==> st.ahtInitialized && event.Some? && ValidHumidity(event.value.humidity)
    ensures var r := ReadHumidity(st, now, event);
            r.value.Some? ==>
              r.value.value == event.value.humidity &&
              r.next == st.(lastHumidity := event.value.humidity,
                            lastTemperature := Fahrenheit(event.value.celsius), lastTempRead := now)
  {
  }

  /** A successful bus read of the temperature is followed, at the same instant, by a
      humidity "read" that returns the humidity of that same event from the cache,
      whether or not it lies in [0, 100]. */
  lemma HumidityFollowsTemperature(st: SensorState, now: nat, event: AhtEvent, other: Option<AhtEvent>)
    requires now >= st.lastTempRead + TempReadInterval
    requires ReadTemperature(st, now, Some(event)).value.Some?
    ensures var t := ReadTemperature(st, now, Some(event));
            ReadHumidity(t.next, now, other) == Reading(Some(event.humidity), t.next)
  {
  }

  /** An out-of-range humidity the temperature read cached is indeed handed out. */
  lemma UnvalidatedHumidityWitness()
    ensures var st := Initial().(ahtInitialized := true);
            var t := ReadTemperature(st, TempReadInterval, Some(AhtEvent(20.0, 250.0)));
            t.value == Some(68.0) &&
            ReadHumidity(t.next, TempReadInterval, None).value == Some(250.0) &&
            !ValidHumidity(250.0)
  {
  }

  /** For the first five seconds after construction the AHT reads report a
      cached 0 and true. */
  lemma BootWindow(now: nat, event: Option<AhtEvent>)
    requires now < TempReadInterval
    ensures ReadTemperature(Initial(), now, event).value == Some(0.0)
    ensures ReadHumidity(Initial(), now, event).value == Some(0.0)
  {
  }

  /** Inside the 3 s window readPressure answers from the cache and changes nothing. */
  lemma PressureCacheWindow(st: SensorState, now: nat, volts: real)
    requires now >= st.lastPressureRead && now - st.lastPressureRead < PressureReadInterval
    ensures ReadPressure(st, now, volts) == Reading(Some(st.lastPressure), st)
  {
  }

  /** readPressure outside its 3 s window: fails on a negative voltage or an
      out-of-range result, otherwise reports (raw - offset)·scale and caches it. */
  lemma PressureFromBus(st: SensorState, now: nat, volts: real)
    requires now >= st.lastPressureRead + PressureReadInterval
    ensures var r := ReadPressure(st, now, volts);
            r.value.Some? <==> st.adsInitialized && volts >= 0.0 && ValidPressure(Convert(volts, st.pressureCal))
    ensures var r := ReadPressure(st, now, volts);
            r.value.Some? ==> r.value.value == Convert(volts, st.pressureCal) &&
                              r.next == st.(lastPressure := r.value.value, lastPressureRead := now)
  {
  }

  /** readCurrent1 is rate limited by lastCurrentRead; readCurrent2 is not, and its
      answer depends only on the voltage and its calibration. */
  lemma CurrentReads(st: SensorState, now: nat, volts: real)
    requires now >= st.lastCurrentRead
    ensures now - st.lastCurrentRead < CurrentReadInterval ==>
              ReadCurrent1(st, now, volts) == Reading(Some(st.lastCurrent1), st)
    ensures now - st.lastCurrentRead >= CurrentReadInterval ==>
              (ReadCurrent1(st, now, volts).value.Some? <==>
                 st.adsInitialized && volts >= 0.0 && ValidCurrent(Convert(volts, st.current1Cal)))
    ensures ReadCurrent2(st, volts).value.Some? <==>
              st.adsInitialized && volts >= 0.0 && ValidCurrent(Convert(volts, st.current2Cal))
    ensures ReadCurrent2(st, volts).value.Some? ==> ReadCurrent2(st, volts).value.value == Convert(volts, st.current2Cal)
  {
  }

  /** Whatever the readings, the pressure and current caches stay in range. */
  lemma CachesStayInRange(st: SensorState, now: nat, event: Option<AhtEvent>, volts: real)
    requires CachesInRange(st)
    requires now >= st.lastTempRead && now >= st.lastPressureRead && now >= st.lastCurrentRead
    ensures CachesInRange(ReadTemperature(st, now, event).next)
    ensures CachesInRange(ReadHumidity(st, now, event).next)
    ensures CachesInRange(ReadPressure(st, now, volts).next)
    ensures CachesInRange(ReadCurrent1(st, now, volts).next)
    ensures CachesInRange(ReadCurrent2(st, volts).next)
  {
  }

  /** Every successful pressure or current read, cached or fresh, lies in range. */
  lemma ReportedValuesInRange(st: SensorState, now: nat, volts: real)
    requires CachesInRange(st)
    requires now >= st.lastPressureRead && now >= st.lastCurrentRead
    ensures ReadPressure(st, now, volts).value.Some? ==> ValidPressure(ReadPressure(st, now, volts).value.value)
    ensures ReadCurrent1(st, now, volts).value.Some? ==> ValidCurrent(ReadCurrent1(st, now, volts).value.value)
    ensures ReadCurrent2(st, volts).value.Some? ==> ValidCurrent(ReadCurrent2(st, volts).value.value)
  {
  }

  // ---------------------------------------------------------------------------
  // The object
  // ---------------------------------------------------------------------------

  class Manager {
    var pressureCal: Calibration
    var current1Cal: Calibration
    var current2Cal: Calibration
    var ahtInitialized: bool
    var adsInitialized: bool
    var lastTempRead: nat
    var lastPressureRead: nat
    var lastCurrentRead: nat
    var lastTemperature: real
    var lastHumidity: real
    var lastPressure: real
    var lastCurrent1: real
    var lastCurrent2: real

    ghost function State(): SensorState
      reads this
    {
      SensorState(pressureCal, current1Cal, current2Cal, ahtInitialized, adsInitialized,
                  lastTempRead, lastPressureRead, lastCurrentRead,
                  lastTemperature, lastHumidity, lastPressure, lastCurrent1, lastCurrent2)
    }

    ghost predicate Valid()
      reads this
    {
      CachesInRange(State())
    }

    constructor ()
      ensures Valid() && State() == Initial()
    {
      pressureCal := Calibration(0.5, 25.0);
      current1Cal := Calibration(2.5, 30.0);
      current2Cal := Calibration(2.5, 30.0);
      ahtInitialized := false;
      adsInitialized := false;
      lastTempRead := 0;
      lastPressureRead := 0;
      lastCurrentRead := 0;
      lastTemperature := 0.0;
      lastHumidity := 0.0;
      lastPressure := 0.0;
      lastCurrent1 := 0.0;
      lastCurrent2 := 0.0;
    }

    /** begin: the driver start-up results are parameters. */
    method Begin(ahtStarted: bool, adsStarted: bool) returns (ok: bool)
      requires Valid()
      modifies this`ahtInitialized, this`adsInitialized
      ensures Valid()
      ensures ahtInitialized == ahtStarted && adsInitialized == adsStarted
      ensures ok == IsHealthy(State()) && (ok <==> ahtStarted && adsStarted)
    {
      ahtInitialized := ahtStarted;
      if !adsStarted {
        adsInitialized := false;
        return false;
      }
      adsInitialized := true;
      return ahtInitialized && adsInitialized;
    }

    predicate Healthy()
      reads this
      ensures Healthy() == IsHealthy(State())
    {
      ahtInitialized && adsInitialized
    }

    method ReadTemperatureAt(now: nat, event: Option<AhtEvent>) returns (temperature: Option<real>)
      requires Valid() && now >= lastTempRead
      modifies this
      ensures Valid()
      ensures Reading(temperature, State()) == ReadTemperature(old(State()), now, event)
    {
      if now - lastTempRead < TempReadInterval {
        return Some(lastTemperature);
      }
      if !ahtInitialized || event.None? {
        return None;
      }
      var temp := event.value.celsius * 9.0 / 5.0 + 32.0;
      if !(-40.0 <= temp <= 150.0) {
        return None;
      }
      lastTemperature := temp;
      lastHumidity := event.value.humidity;
      lastTempRead := now;
      return Some(temp);
    }

    method ReadHumidityAt(now: nat, event: Option<AhtEvent>) returns (humidity: Option<real>)
      requires Valid() && now >= lastTempRead
      modifies this
      ensures Valid()
      ensures Reading(humidity, State()) == ReadHumidity(old(State()), now, event)
    {
      if now - lastTempRead < TempReadInterval {
        return Some(lastHumidity);
      }
      if !ahtInitialized || event.None? {
        return None;
      }
      var hum := event.value.humidity;
      if !(0.0 <= hum <= 100.0) {
        return None;
      }
      lastHumidity := hum;
      lastTemperature := event.value.celsius * 9.0 / 5.0 + 32.0;
      lastTempRead := now;
      return Some(hum);
    }

    method ReadPressureAt(now: nat, volts: real) returns (pressure: Option<real>)
      requires Valid() && now >= lastPressureRead
      modifies this
      ensures Valid()
      ensures Reading(pressure, State()) == ReadPressure(old(State()), now, volts)
    {
      if now - lastPressureRead < PressureReadInterval {
        return Some(lastPressure);
      }
      if !adsInitialized || volts < 0.0 {
        return None;
      }
      var value := (volts - pressureCal.offset) * pressureCal.scale;
      if !(0.0 <= value <= 150.0) {
        return None;
      }
      lastPressure := value;
      lastPressureRead := now;
      return Some(value);
    }

    method ReadCurrent1At(now: nat, volts: real) returns (current: Option<real>)
      requires Valid() && now >= lastCurrentRead
      modifies this
      ensures Valid()
      ensures Reading(current, State()) == ReadCurrent1(old(State()), now, volts)
    {
      if now - lastCurrentRead < CurrentReadInterval {
        return Some(lastCurrent1);
      }
      if !adsInitialized || volts < 0.0 {
        return None;
      }
      var value := (volts - current1Cal.offset) * current1Cal.scale;
      if !(-50.0 <= value <= 50.0) {
        return None;
      }
      lastCurrent1 := value;
      lastCurrentRead := now;
      return Some(value);
    }

    method ReadCurrent2At(volts: real) returns (current: Option<real>)
      requires Valid()
      modifies this
      ensures Valid()
      ensures Reading(current, State()) == ReadCurrent2(old(State()), volts)
    {
      if !adsInitialized || volts < 0.0 {
        return None;
      }
      var value := (volts - current2Cal.offset) * current2Cal.scale;
      if !(-50.0 <= value <= 50.0) {
        return None;
      }
      lastCurrent2 := value;
      return Some(value);
    }

    method CalibratePressure(zeroPoint: real, fullScale: real)
      requires zeroPoint != FullScaleVolts
      modifies this`pressureCal
      ensures pressureCal == TwoPoint(zeroPoint, fullScale)
    {
      pressureCal := Calibration(zeroPoint, fullScale / (FullScaleVolts - zeroPoint));
    }

    method CalibrateCurrent1(zeroPoint: real, fullScale: real)
      requires zeroPoint != FullScaleVolts
      modifies this`current1Cal
      ensures current1Cal == TwoPoint(zeroPoint, fullScale)
    {
      current1Cal := Calibration(zeroPoint, fullScale / (FullScaleVolts - zeroPoint));
    }

    method CalibrateCurrent2(zeroPoint: real, fullScale: real)
      requires zeroPoint != FullScaleVolts
      modifies this`current2Cal
      ensures current2Cal == TwoPoint(zeroPoint, fullScale)
    {
      current2Cal := Calibration(zeroPoint, fullScale / (FullScaleVolts - zeroPoint));
    }

    method SetCalibration(pressure: Calibration, current1: Calibration, current2: Calibration)
      modifies this`pressureCal, this`current1Cal, this`current2Cal
      ensures pressureCal == pressure && current1Cal == current1 && current2Cal == current2
    {
      pressureCal := pressure;
      current1Cal := current1;
      current2Cal := current2;
    }

    /** calibratePressureAtValue; `volts` is what ADC channel 2 would read. */
    method CalibratePressureAtValue(known: real, volts: real)
      requires RawVoltage(State(), volts) > 0.0 && known != 0.0 ==> volts != pressureCal.offset
      modifies this`pressureCal
      ensures pressureCal == AtValue(old(pressureCal), RawVoltage(State(), volts), known)
    {
      var raw := if adsInitialized then volts else -1.0;
      if raw > 0.0 {
        if known == 0.0 {
          pressureCal := pressureCal.(offset := raw);
        } else {
          pressureCal := pressureCal.(scale := known / (raw - pressureCal.offset));
        }
      }
    }

    /** calibrateCurrent1AtValue; `volts` is what ADC channel 0 would read. */
    method CalibrateCurrent1AtValue(known: real, volts: real)
      requires RawVoltage(State(), volts) > 0.0 && known != 0.0 ==> volts != current1Cal.offset
      modifies this`current1Cal
      ensures current1Cal == AtValue(old(current1Cal), RawVoltage(State(), volts), known)
    {
      var raw := if adsInitialized then volts else -1.0;
      if raw > 0.0 {
        if known == 0.0 {
          current1Cal := current1Cal.(offset := raw);
        } else {
          current1Cal := current1Cal.(scale := known / (raw - current1Cal.offset));
        }
      }
    }

    /** calibrateCurrent2AtValue; `volts` is what ADC channel 1 would read. */
    method CalibrateCurrent2AtValue(known: real, volts: real)
      requires RawVoltage(State(), volts) > 0.0 && known != 0.0 ==> volts != current2Cal.offset
      modifies this`current2Cal
      ensures current2Cal == AtValue(old(current2Cal), RawVoltage(State(), volts), known)
    {
      var raw := if adsInitialized then volts else -1.0;
      if raw > 0.0 {
        if known == 0.0 {
          current2Cal := current2Cal.(offset := raw);
        } else {
          current2Cal := current2Cal.(scale := known / (raw - current2Cal.offset));
        }
      }
    }
  }
}
