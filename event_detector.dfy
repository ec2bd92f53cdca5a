/** Alarm detection over the latest sample: three debounced threshold
    conditions with hysteresis (high motor current, low pressure, low pump-house
    temperature), an immediate sensor-error condition, and the bounded,
    order-preserving list of active event records. `millis()` is the `now`
    parameter; one evaluation uses one `now` for all four checks. */
module EventDetector {
  import opened Text
  import opened DataCollector

  const MaxEvents: nat := 10
  const CurrentEventDelay: nat := 3000
  const PressureEventDelay: nat := 10000
  const TemperatureEventDelay: nat := 10000

  const HighCurrentText: string := "High current detected on pump motor"
  const LowPressureText: string := "Low pressure detected in system"
  const LowTemperatureText: string := "Low temperature detected in pump house"
  const SensorErrorText: string := "Sensor communication error detected"

  datatype EventType = NoEvent | HighCurrent | LowPressure | LowTemperature | SensorError | SystemError

  datatype Event = Event(
    kind: EventType,
    value: real,
    threshold: real,
    startTime: nat,
    duration: nat,
    active: bool,
    description: string)

  /** The zeroed record memset leaves. */
  function Blank(): Event {
    Event(NoEvent, 0.0, 0.0, 0, 0, false, "")
  }

  /** One debounced condition: its arming time (0 = not armed), the duration
      noted at activation, and whether it is active. */
  datatype Track = Track(timer: nat, duration: nat, active: bool)

  datatype DetectorState = DetectorState(
    highCurrentThreshold: real,
    lowPressureThreshold: real,
    lowTemperatureThreshold: real,
    pressureHysteresis: real,
    currentHysteresis: real,
    temperatureHysteresis: real,
    current: Track,
    pressure: Track,
    temperature: Track,
    sensorErrorActive: bool,
    events: seq<Event>)

  /** The constructor's state. */
  function Initial(): DetectorState {
    DetectorState(7.2, 5.0, 38.0, 2.0, 1.0, 2.0,
                  Track(0, 0, false), Track(0, 0, false), Track(0, 0, false), false, [])
  }

  /** eventTypeToString. */
  function TypeName(kind: EventType): string {
    match kind
    case HighCurrent => "High Current"
    case LowPressure => "Low Pressure"
    case LowTemperature => "Low Temperature"
    case SensorError => "Sensor Error"
    case SystemError => "System Error"
    case NoEvent => "Unknown"
  }

  /** Different event types have different names. */
  lemma TypeNamesDistinct(a: EventType, b: EventType)
    requires TypeName(a) == TypeName(b)
    ensures a == b
  {
    var na, nb := TypeName(a), TypeName(b);
    assert na[|na| - 1] == nb[|nb| - 1] && |na| == |nb| && na[0] == nb[0];
  }

  // ---------------------------------------------------------------------------
  // The event list
  // ---------------------------------------------------------------------------

  predicate Has(events: seq<Event>, kind: EventType) {
    exists i :: 0 <= i < |events| && events[i].kind == kind
  }

  /** removeEvent: the entries after `index` move one place left; an index
      past the end changes nothing. */
  function RemoveAt(events: seq<Event>, index: nat): (r: seq<Event>)
    ensures index >= |events| ==> r == events
    ensures index < |events| ==> |r| == |events| - 1
    ensures index < |events| ==> forall j :: 0 <= j < index ==> r[j] == events[j]
    ensures index < |events| ==> forall j :: index <= j < |r| ==> r[j] == events[j + 1]
  {
    if index >= |events| then events else events[..index] + events[index + 1..]
  }

  /** findEventIndex: the first index holding `kind`, or -1. */
  function FindIndex(events: seq<Event>, kind: EventType): (idx: int)
    ensures -1 <= idx < |events|
    ensures idx == -1 <==> !Has(events, kind)
    ensures idx >= 0 ==> events[idx].kind == kind && forall j :: 0 <= j < idx ==> events[j].kind != kind
    decreases |events|
  {
    if events == [] then -1
    else if events[0].kind == kind then 0
    else
      var rest := FindIndex(events[1..], kind);
      assert forall j :: 1 <= j < |events| ==> events[1..][j - 1] == events[j];
      if rest == -1 then -1 else rest + 1
  }

  /** addEvent: evict the oldest record when the list is full, then append a
      fresh active record with duration 0. */
  function AddEvent(events: seq<Event>, kind: EventType, value: real, threshold: real,
                    now: nat, description: string): (r: seq<Event>)
    ensures |r| == if |events| >= MaxEvents then |events| else |events| + 1
    ensures r[|r| - 1] == Event(kind, value, threshold, now, 0, true, description)
    ensures |events| < MaxEvents ==> r[..|events|] == events
    ensures |events| >= MaxEvents ==> r[..|r| - 1] == events[1..]
  {
    (if |events| >= MaxEvents then RemoveAt(events, 0) else events) +
    [Event(kind, value, threshold, now, 0, true, description)]
  }

  /** clearEvent: remove the first record of `kind`, if any. */
  function ClearKind(events: seq<Event>, kind: EventType): (r: seq<Event>)
    ensures !Has(events, kind) ==> r == events
    ensures Has(events, kind) ==> |r| == |events| - 1
  {
    var i := FindIndex(events, kind);
    if i >= 0 then RemoveAt(events, i) else events
  }

  /** updateEvent: overwrite value and duration of the first record of `kind`. */
  function UpdateKind(events: seq<Event>, kind: EventType, value: real, duration: nat): (r: seq<Event>)
    ensures |r| == |events|
    ensures forall i :: 0 <= i < |r| ==>
              r[i].kind == events[i].kind && r[i].active == events[i].active &&
              r[i].startTime == events[i].startTime && r[i].threshold == events[i].threshold
    ensures Has(events, kind) ==>
              var i := FindIndex(events, kind);
              r[i].value == value && r[i].duration == duration &&
              forall j :: 0 <= j < |r| && j != i ==> r[j] == events[j]
    ensures !Has(events, kind) ==> r == events
  {
    var i := FindIndex(events, kind);
    if i >= 0 then events[i := events[i].(value := value, duration := duration)] else events
  }

  // ---------------------------------------------------------------------------
  // Debouncing
  // ---------------------------------------------------------------------------

  datatype Checked = Checked(track: Track, events: seq<Event>)

  /** The shared shape of checkHighCurrent, checkLowPressure and
      checkLowTemperature: `present` is the alarm condition and `clears` the
      hysteresis condition under which an active alarm ends. */
  function Debounce(t: Track, events: seq<Event>, present: bool, clears: bool, kind: EventType,
                    value: real, threshold: real, delay: nat, now: nat, description: string): (r: Checked)
    requires t.timer <= now
    ensures r.track.timer <= now
  {
    var next := Transition(t, events, present, clears, kind, value, threshold, delay, now, description);
    if next.track.active
    then Checked(next.track, UpdateKind(next.events, kind, value, now - next.track.timer))
    else next
  }

  /** The arming, activation, clearing and disarming branches, before the
      refresh of an active record. */
  function Transition(t: Track, events: seq<Event>, present: bool, clears: bool, kind: EventType,
                      value: real, threshold: real, delay: nat, now: nat, description: string): (r: Checked)
    requires t.timer <= now
    ensures r.track.timer <= now
    ensures r.track.active ==> r.track.timer == t.timer
  {
    if present && !t.active then
      if t.timer == 0 then Checked(t.(timer := now), events)
      else if now - t.timer >= delay then
        Checked(Track(t.timer, now - t.timer, true), AddEvent(events, kind, value, threshold, now, description))
      else Checked(t, events)
    else if !present && t.active then
      if clears then Checked(t.(active := false, timer := 0), ClearKind(events, kind))
      else Checked(t, events)
    else if !present then Checked(t.(timer := 0), events)
    else Checked(t, events)
  }

  function Larger(a: real, b: real): (m: real)
    ensures m >= a && m >= b && (m == a || m == b)
  {
    if a > b then a else b
  }

  predicate TimersBefore(st: DetectorState, now: nat) {
    st.current.timer <= now && st.pressure.timer <= now && st.temperature.timer <= now
  }

  /** checkHighCurrent: the larger motor current above the threshold; clears
      below threshold minus hysteresis. */
  function CheckHighCurrent(st: DetectorState, d: SensorData, now: nat): (r: DetectorState)
    requires st.current.timer <= now
    ensures TimersBefore(st, now) ==> TimersBefore(r, now)
  {
    var maxCurrent := Larger(d.current1, d.current2);
    var c := Debounce(st.current, st.events, maxCurrent > st.highCurrentThreshold,
                      maxCurrent < st.highCurrentThreshold - st.currentHysteresis,
                      HighCurrent, maxCurrent, st.highCurrentThreshold, CurrentEventDelay, now, HighCurrentText);
    st.(current := c.track, events := c.events)
  }

  /** checkLowPressure: pressure below the threshold; clears above threshold plus hysteresis. */
  function CheckLowPressure(st: DetectorState, d: SensorData, now: nat): (r: DetectorState)
    requires st.pressure.timer <= now
    ensures TimersBefore(st, now) ==> TimersBefore(r, now)
  {
    var c := Debounce(st.pressure, st.events, d.pressure < st.lowPressureThreshold,
                      d.pressure > st.lowPressureThreshold + st.pressureHysteresis,
                      LowPressure, d.pressure, st.lowPressureThreshold, PressureEventDelay, now, LowPressureText);
    st.(pressure := c.track, events := c.events)
  }

  /** checkLowTemperature: temperature below the threshold; clears above threshold plus hysteresis. */
  function CheckLowTemperature(st: DetectorState, d: SensorData, now: nat): (r: DetectorState)
    requires st.temperature.timer <= now
    ensures TimersBefore(st, now) ==> TimersBefore(r, now)
  {
    var c := Debounce(st.temperature, st.events, d.temperature < st.lowTemperatureThreshold,
                      d.temperature > st.lowTemperatureThreshold + st.temperatureHysteresis,
                      LowTemperature, d.temperature, st.lowTemperatureThreshold, TemperatureEventDelay, now,
                      LowTemperatureText);
    st.(temperature := c.track, events := c.events)
  }

  /** checkSensorHealth: raised and cleared on the evaluation that sees the change, with no timer. */
  function CheckSensorHealth(st: DetectorState, d: SensorData, now: nat): (r: DetectorState)
    ensures r == st.(sensorErrorActive := r.sensorErrorActive, events := r.events)
    ensures r.sensorErrorActive == !d.valid
  {
    if !d.valid && !st.sensorErrorActive then
      st.(sensorErrorActive := true, events := AddEvent(st.events, SensorError, 0.0, 0.0, now, SensorErrorText))
    else if d.valid && st.sensorErrorActive then
      st.(sensorErrorActive := false, events := ClearKind(st.events, SensorError))
    else st
  }

  /** The four checks of update(), in order, on one sample. */
  function Evaluate(st: DetectorState, d: SensorData, now: nat): (r: DetectorState)
    requires TimersBefore(st, now)
    ensures TimersBefore(r, now)
  {
    var s1 := CheckHighCurrent(st, d, now);
    var s2 := CheckLowPressure(s1, d, now);
    var s3 := CheckLowTemperature(s2, d, now);
    CheckSensorHealth(s3, d, now)
  }

  /** update() with a collector: nothing unless getCurrentData succeeds,
      which it does only for a running collector, a taken lock and a valid sample. */
  function Observe(st: DetectorState, running: bool, lockTaken: bool, sample: SensorData, now: nat): (r: DetectorState)
    requires TimersBefore(st, now)
    ensures TimersBefore(r, now)
    ensures r != st ==> running && lockTaken && sample.valid
  {
    if running && lockTaken && sample.valid then Evaluate(st, sample, now) else st
  }

  // ---------------------------------------------------------------------------
  // Debounce properties
  // ---------------------------------------------------------------------------

  /** The first observation of a condition only arms the timer at `now`. */
  lemma DebounceArms(t: Track, events: seq<Event>, present: bool, clears: bool, kind: EventType,
                     value: real, threshold: real, delay: nat, now: nat, description: string)
    requires present && !t.active && t.timer == 0
    ensures Debounce(t, events, present, clears, kind, value, threshold, delay, now, description) ==
            Checked(t.(timer := now), events)
  {
  }

  /** While the delay has not elapsed nothing changes. */
  lemma DebounceWaits(t: Track, events: seq<Event>, present: bool, clears: bool, kind: EventType,
                      value: real, threshold: real, delay: nat, now: nat, description: string)
    requires t.timer <= now && present && !t.active && t.timer != 0 && now - t.timer < delay
    ensures Debounce(t, events, present, clears, kind, value, threshold, delay, now, description) ==
            Checked(t, events)
  {
  }

  lemma FindAppended(events: seq<Event>, e: Event)
    requires !Has(events, e.kind)
    ensures FindIndex(events + [e], e.kind) == |events|
  {
    var s := events + [e];
    assert s[|events|].kind == e.kind;
    assert forall j :: 0 <= j < |events| ==> s[j] == events[j];
  }

  /** Once the delay has elapsed the condition activates: one record is
      appended, starting now, whose duration the same evaluation sets to the
      time since arming. */
  lemma {:induction false} DebounceActivates(t: Track, events: seq<Event>, present: bool, clears: bool,
                                             kind: EventType, value: real, threshold: real, delay: nat,
                                             now: nat, description: string)
    requires t.timer <= now && present && !t.active && t.timer != 0 && now - t.timer >= delay
    requires !Has(events, kind) && |events| < MaxEvents
    ensures Debounce(t, events, present, clears, kind, value, threshold, delay, now, description) ==
            Checked(Track(t.timer, now - t.timer, true),
                    events + [Event(kind, value, threshold, now, now - t.timer, true, description)])
  {
    var added := AddEvent(events, kind, value, threshold, now, description);
    var e := Event(kind, value, threshold, now, 0, true, description);
    assert added == events + [e];
    FindAppended(events, e);
    assert UpdateKind(added, kind, value, now - t.timer) ==
           events + [Event(kind, value, threshold, now, now - t.timer, true, description)];
  }

  /** A condition absent while inactive disarms the timer. */
  lemma DebounceResets(t: Track, events: seq<Event>, present: bool, clears: bool, kind: EventType,
                       value: real, threshold: real, delay: nat, now: nat, description: string)
    requires t.timer <= now && !present && !t.active
    ensures Debounce(t, events, present, clears, kind, value, threshold, delay, now, description) ==
            Checked(t.(timer := 0), events)
  {
  }

  /** An inactive condition creates a record only when it is present on an
      evaluation at least `delay` after it was armed. */
  lemma NoRecordBeforeDelay(t: Track, events: seq<Event>, present: bool, clears: bool, kind: EventType,
                            value: real, threshold: real, delay: nat, now: nat, description: string)
    requires t.timer <= now && !t.active
    requires !present || t.timer == 0 || now - t.timer < delay
    ensures Debounce(t, events, present, clears, kind, value, threshold, delay, now, description).events == events
  {
  }

  /** An active condition that is present, or absent without passing the
      hysteresis limit, stays active and its record is updated in place. */
  lemma DebounceHolds(t: Track, events: seq<Event>, present: bool, clears: bool, kind: EventType,
                      value: real, threshold: real, delay: nat, now: nat, description: string)
    requires t.timer <= now && t.active && (present || !clears)
    ensures Debounce(t, events, present, clears, kind, value, threshold, delay, now, description) ==
            Checked(t, UpdateKind(events, kind, value, now - t.timer))
  {
  }

  /** An active condition past the hysteresis limit clears: timer disarmed and
      its record removed. */
  lemma DebounceClears(t: Track, events: seq<Event>, present: bool, clears: bool, kind: EventType,
                       value: real, threshold: real, delay: nat, now: nat, description: string)
    requires t.timer <= now && t.active && !present && clears
    ensures Debounce(t, events, present, clears, kind, value, threshold, delay, now, description) ==
            Checked(Track(0, t.duration, false), ClearKind(events, kind))
  {
  }

  // ---------------------------------------------------------------------------
  // The list invariant
  // ---------------------------------------------------------------------------

  predicate Tracked(kind: EventType) {
    kind == HighCurrent || kind == LowPressure || kind == LowTemperature || kind == SensorError
  }

  predicate Unique(events: seq<Event>) {
    forall i, j :: 0 <= i < j < |events| ==> events[i].kind != events[j].kind
  }

  /** Every record is active and of a tracked type. */
  predicate Records(events: seq<Event>) {
    forall i :: 0 <= i < |events| ==> Tracked(events[i].kind) && events[i].active
  }

  /** Each type occurs at most once, and a record of a type exists exactly
      while that type's flag is set. */
  predicate Consistent(st: DetectorState) {
    Unique(st.events) && Records(st.events) &&
    (Has(st.events, HighCurrent) <==> st.current.active) &&
    (Has(st.events, LowPressure) <==> st.pressure.active) &&
    (Has(st.events, LowTemperature) <==> st.temperature.active) &&
    (Has(st.events, SensorError) <==> st.sensorErrorActive) &&
    !Has(st.events, NoEvent) && !Has(st.events, SystemError)
  }

  function Kinds(events: seq<Event>): set<EventType>
    decreases |events|
  {
    if events == [] then {} else Kinds(events[..|events| - 1]) + {events[|events| - 1].kind}
  }

  lemma {:induction false} KindsCount(events: seq<Event>)
    requires Unique(events) && Records(events)
    ensures |Kinds(events)| == |events|
    ensures Kinds(events) <= {HighCurrent, LowPressure, LowTemperature, SensorError}
    decreases |events|
  {
    if events != [] {
      var init := events[..|events| - 1];
      assert forall i :: 0 <= i < |init| ==> init[i] == events[i];
      KindsCount(init);
      KindsMembers(init);
    }
  }

  lemma {:induction false} KindsMembers(events: seq<Event>)
    ensures forall k :: k in Kinds(events) ==> Has(events, k)
    decreases |events|
  {
    if events != [] {
      var init := events[..|events| - 1];
      KindsMembers(init);
      forall k | k in Kinds(events)
        ensures Has(events, k)
      {
        if k in Kinds(init) {
          var i :| 0 <= i < |init| && init[i].kind == k;
          assert events[i].kind == k;
        } else {
          assert events[|events| - 1].kind == k;
        }
      }
    }
  }

  lemma SubsetCard(a: set<EventType>, b: set<EventType>)
    requires a <= b
    ensures |a| <= |b|
  {
    assert b == a + (b - a);
  }

  /** The list never holds more than the four tracked types, so addEvent's
      eviction of the oldest record is never reached. */
  lemma AtMostFourEvents(st: DetectorState)
    requires Consistent(st)
    ensures |st.events| <= 4
  {
    KindsCount(st.events);
    var all := {HighCurrent, LowPressure, LowTemperature, SensorError};
    SubsetCard(Kinds(st.events), all);
  }

  /** Appending a record of a type not yet listed keeps the types distinct. */
  lemma AppendedUnique(events: seq<Event>, e: Event)
    requires Unique(events) && !Has(events, e.kind)
    ensures Unique(events + [e])
  {
    var s := events + [e];
    forall i, j | 0 <= i < j < |s|
      ensures s[i].kind != s[j].kind
    {
      assert s[i] == events[i];
      if j < |events| {
        assert s[j] == events[j];
      }
    }
  }

  lemma HasAppended(events: seq<Event>, e: Event, k: EventType)
    ensures Has(events + [e], k) <==> Has(events, k) || e.kind == k
  {
    var s := events + [e];
    if Has(events, k) {
      var i :| 0 <= i < |events| && events[i].kind == k;
      assert s[i].kind == k;
    }
    if e.kind == k {
      assert s[|events|].kind == k;
    }
  }

  /** Removing a record keeps the types distinct. */
  lemma RemoveAtUnique(events: seq<Event>, i: nat)
    requires i < |events| && Unique(events)
    ensures Unique(RemoveAt(events, i))
  {
    var r := RemoveAt(events, i);
    forall a, b | 0 <= a < b < |r|
      ensures r[a].kind != r[b].kind
    {
      assert r[a] == events[if a < i then a else a + 1];
      assert r[b] == events[if b < i then b else b + 1];
    }
  }

  /** Removing a record keeps every remaining one active and tracked. */
  lemma RemoveAtRecords(events: seq<Event>, i: nat)
    requires i < |events| && Records(events)
    ensures Records(RemoveAt(events, i))
  {
    var r := RemoveAt(events, i);
    forall a | 0 <= a < |r|
      ensures Tracked(r[a].kind) && r[a].active
    {
      assert r[a] == events[if a < i then a else a + 1];
    }
  }

  /** After removing slot `i`, a type is present exactly when some other slot held it. */
  lemma RemoveAtHas(events: seq<Event>, i: nat, k: EventType)
    requires i < |events|
    ensures Has(RemoveAt(events, i), k) <==> exists j :: 0 <= j < |events| && j != i && events[j].kind == k
  {
    var r := RemoveAt(events, i);
    if Has(r, k) {
      var j :| 0 <= j < |r| && r[j].kind == k;
      var src := if j < i then j else j + 1;
      assert events[src].kind == k && src != i;
    }
    if exists j :: 0 <= j < |events| && j != i && events[j].kind == k {
      var j :| 0 <= j < |events| && j != i && events[j].kind == k;
      assert r[if j < i then j else j - 1].kind == k;
    }
  }

  lemma ClearKindEffect(events: seq<Event>, kind: EventType, k: EventType)
    requires Unique(events)
    ensures Unique(ClearKind(events, kind))
    ensures Records(events) ==> Records(ClearKind(events, kind))
    ensures Has(ClearKind(events, kind), k) <==> Has(events, k) && k != kind
  {
    var i := FindIndex(events, kind);
    if i >= 0 {
      RemoveAtUnique(events, i);
      if Records(events) {
        RemoveAtRecords(events, i);
      }
      RemoveAtHas(events, i, k);
      if Has(events, k) && k != kind {
        var j :| 0 <= j < |events| && events[j].kind == k;
        assert j != i;
      }
    }
  }

  lemma UpdateKindEffect(events: seq<Event>, kind: EventType, value: real, duration: nat, k: EventType)
    ensures Unique(events) ==> Unique(UpdateKind(events, kind, value, duration))
    ensures Records(events) ==> Records(UpdateKind(events, kind, value, duration))
    ensures Has(UpdateKind(events, kind, value, duration), k) <==> Has(events, k)
  {
    var r := UpdateKind(events, kind, value, duration);
    if Has(r, k) {
      var j :| 0 <= j < |r| && r[j].kind == k;
      assert events[j].kind == k;
    }
    if Has(events, k) {
      var j :| 0 <= j < |events| && events[j].kind == k;
      assert r[j].kind == k;
    }
  }

  /** The list facts one debounced check keeps: its own record exists exactly
      while it is active and the other types' records are untouched. */
  lemma {:induction false} DebounceKeepsList(t: Track, events: seq<Event>, present: bool, clears: bool,
                                             kind: EventType, value: real, threshold: real, delay: nat,
                                             now: nat, description: string, k: EventType)
    requires t.timer <= now && Tracked(kind) && k != kind
    requires Unique(events) && Records(events) && |events| < MaxEvents && (Has(events, kind) <==> t.active)
    ensures var r := Debounce(t, events, present, clears, kind, value, threshold, delay, now, description);
            Unique(r.events) && Records(r.events) && (Has(r.events, kind) <==> r.track.active) &&
            (Has(r.events, k) <==> Has(events, k))
  {
    var r := Debounce(t, events, present, clears, kind, value, threshold, delay, now, description);
    if present && !t.active && t.timer != 0 && now - t.timer >= delay {
      DebounceActivates(t, events, present, clears, kind, value, threshold, delay, now, description);
      var e := Event(kind, value, threshold, now, now - t.timer, true, description);
      assert r.events == events + [e];
      HasAppended(events, e, kind);
      HasAppended(events, e, k);
      AppendedUnique(events, e);
    } else if !present && t.active && clears {
      DebounceClears(t, events, present, clears, kind, value, threshold, delay, now, description);
      ClearKindEffect(events, kind, kind);
      ClearKindEffect(events, kind, k);
    } else if t.active {
      DebounceHolds(t, events, present, clears, kind, value, threshold, delay, now, description);
      UpdateKindEffect(events, kind, value, now - t.timer, kind);
      UpdateKindEffect(events, kind, value, now - t.timer, k);
    } else {
      assert r.events == events;
    }
  }

  /** Checks on a consistent state keep it consistent. */
  lemma CheckHighCurrentConsistent(st: DetectorState, d: SensorData, now: nat)
    requires Consistent(st) && st.current.timer <= now
    ensures Consistent(CheckHighCurrent(st, d, now))
  {
    AtMostFourEvents(st);
    var m := Larger(d.current1, d.current2);
    var present, clears := m > st.highCurrentThreshold, m < st.highCurrentThreshold - st.currentHysteresis;
    forall k | k != HighCurrent
      ensures var r := Debounce(st.current, st.events, present, clears, HighCurrent, m,
                                st.highCurrentThreshold, CurrentEventDelay, now, HighCurrentText);
              Unique(r.events) && Records(r.events) && (Has(r.events, HighCurrent) <==> r.track.active) &&
              (Has(r.events, k) <==> Has(st.events, k))
    {
      DebounceKeepsList(st.current, st.events, present, clears, HighCurrent, m,
                        st.highCurrentThreshold, CurrentEventDelay, now, HighCurrentText, k);
    }
  }

  lemma CheckLowPressureConsistent(st: DetectorState, d: SensorData, now: nat)
    requires Consistent(st) && st.pressure.timer <= now
    ensures Consistent(CheckLowPressure(st, d, now))
  {
    AtMostFourEvents(st);
    var present, clears := d.pressure < st.lowPressureThreshold,
                           d.pressure > st.lowPressureThreshold + st.pressureHysteresis;
    forall k | k != LowPressure
      ensures var r := Debounce(st.pressure, st.events, present, clears, LowPressure, d.pressure,
                                st.lowPressureThreshold, PressureEventDelay, now, LowPressureText);
              Unique(r.events) && Records(r.events) && (Has(r.events, LowPressure) <==> r.track.active) &&
              (Has(r.events, k) <==> Has(st.events, k))
    {
      DebounceKeepsList(st.pressure, st.events, present, clears, LowPressure, d.pressure,
                        st.lowPressureThreshold, PressureEventDelay, now, LowPressureText, k);
    }
  }

  lemma CheckLowTemperatureConsistent(st: DetectorState, d: SensorData, now: nat)
    requires Consistent(st) && st.temperature.timer <= now
    ensures Consistent(CheckLowTemperature(st, d, now))
  {
    AtMostFourEvents(st);
    var present, clears := d.temperature < st.lowTemperatureThreshold,
                           d.temperature > st.lowTemperatureThreshold + st.temperatureHysteresis;
    forall k | k != LowTemperature
      ensures var r := Debounce(st.temperature, st.events, present, clears, LowTemperature, d.temperature,
                                st.lowTemperatureThreshold, TemperatureEventDelay, now, LowTemperatureText);
              Unique(r.events) && Records(r.events) && (Has(r.events, LowTemperature) <==> r.track.active) &&
              (Has(r.events, k) <==> Has(st.events, k))
    {
      DebounceKeepsList(st.temperature, st.events, present, clears, LowTemperature, d.temperature,
                        st.lowTemperatureThreshold, TemperatureEventDelay, now, LowTemperatureText, k);
    }
  }

  lemma CheckSensorHealthConsistent(st: DetectorState, d: SensorData, now: nat)
    requires Consistent(st)
    ensures Consistent(CheckSensorHealth(st, d, now))
  {
    if !d.valid && !st.sensorErrorActive {
      RaiseSensorErrorConsistent(st, now);
    } else if d.valid && st.sensorErrorActive {
      ClearSensorErrorConsistent(st);
    }
  }

  /** Raising the sensor error appends its record to a list that lacks one. */
  lemma RaiseSensorErrorConsistent(st: DetectorState, now: nat)
    requires Consistent(st) && !st.sensorErrorActive
    ensures Consistent(st.(sensorErrorActive := true,
                           events := AddEvent(st.events, SensorError, 0.0, 0.0, now, SensorErrorText)))
  {
    AtMostFourEvents(st);
    var e := Event(SensorError, 0.0, 0.0, now, 0, true, SensorErrorText);
    var evs := AddEvent(st.events, SensorError, 0.0, 0.0, now, SensorErrorText);
    assert evs == st.events + [e];
    HasAppended(st.events, e, HighCurrent);
    HasAppended(st.events, e, LowPressure);
    HasAppended(st.events, e, LowTemperature);
    HasAppended(st.events, e, SensorError);
    HasAppended(st.events, e, NoEvent);
    HasAppended(st.events, e, SystemError);
    assert Unique(evs) by {
      forall i | 0 <= i < |st.events|
        ensures evs[i] == st.events[i] && evs[i].kind != SensorError
      {
        assert evs[i] == st.events[i];
      }
    }
  }

  /** Clearing the sensor error removes its record and no other. */
  lemma ClearSensorErrorConsistent(st: DetectorState)
    requires Consistent(st) && st.sensorErrorActive
    ensures Consistent(st.(sensorErrorActive := false, events := ClearKind(st.events, SensorError)))
  {
    ClearKindEffect(st.events, SensorError, HighCurrent);
    ClearKindEffect(st.events, SensorError, LowPressure);
    ClearKindEffect(st.events, SensorError, LowTemperature);
    ClearKindEffect(st.events, SensorError, SensorError);
    ClearKindEffect(st.events, SensorError, NoEvent);
    ClearKindEffect(st.events, SensorError, SystemError);
  }

  /** One evaluation keeps the list invariant. */
  lemma EvaluateConsistent(st: DetectorState, d: SensorData, now: nat)
    requires Consistent(st) && TimersBefore(st, now)
    ensures Consistent(Evaluate(st, d, now))
  {
    var s1 := CheckHighCurrent(st, d, now);
    CheckHighCurrentConsistent(st, d, now);
    var s2 := CheckLowPressure(s1, d, now);
    CheckLowPressureConsistent(s1, d, now);
    var s3 := CheckLowTemperature(s2, d, now);
    CheckLowTemperatureConsistent(s2, d, now);
    CheckSensorHealthConsistent(s3, d, now);
  }

  /** A sensor error is raised on the evaluation that sees an invalid sample and
      cleared on the one that sees a valid sample. */
  lemma SensorHealthImmediate(st: DetectorState, d: SensorData, now: nat)
    requires Consistent(st)
    ensures var r := CheckSensorHealth(st, d, now);
            (r.sensorErrorActive <==> !d.valid) && (Has(r.events, SensorError) <==> !d.valid)
  {
    CheckSensorHealthConsistent(st, d, now);
  }

  // ---------------------------------------------------------------------------
  // Runs of update()
  // ---------------------------------------------------------------------------

  /** What one call of update() sees: the collector's running flag, whether the
      mutex was taken, the collector's current sample, and the time. */
  datatype Observation = Observation(running: bool, lockTaken: bool, sample: SensorData, now: nat)

  /** Times never go backwards, starting after every armed timer. */
  predicate Chronological(st: DetectorState, obs: seq<Observation>) {
    (obs != [] ==> TimersBefore(st, obs[0].now)) &&
    forall i :: 0 < i < |obs| ==> obs[i - 1].now <= obs[i].now
  }

  function Run(st: DetectorState, obs: seq<Observation>): DetectorState
    requires Chronological(st, obs)
    decreases |obs|
  {
    if obs == [] then st
    else
      var o := obs[0];
      var next := Observe(st, o.running, o.lockTaken, o.sample, o.now);
      assert Chronological(next, obs[1..]) by {
        assert forall i :: 0 < i < |obs[1..]| ==> obs[1..][i - 1] == obs[i] && obs[1..][i] == obs[i + 1];
        if |obs| > 1 {
          assert obs[1..][0] == obs[1];
        }
      }
      Run(next, obs[1..])
  }

  /** Every run of update() keeps the list invariant. */
  lemma {:induction false} RunConsistent(st: DetectorState, obs: seq<Observation>)
    requires Consistent(st) && Chronological(st, obs)
    ensures Consistent(Run(st, obs))
    decreases |obs|
  {
    if obs != [] {
      var o := obs[0];
      var next := Observe(st, o.running, o.lockTaken, o.sample, o.now);
      if o.running && o.lockTaken && o.sample.valid {
        EvaluateConsistent(st, o.sample, o.now);
      }
      RunConsistent(next, obs[1..]);
    }
  }

  /** getCurrentData only succeeds on a valid sample and update() returns early
      otherwise, so checkSensorHealth never sees an invalid sample: starting
      without a sensor error, no run of update() ever raises one or lists one. */
  lemma {:induction false} SensorErrorNeverRaised(st: DetectorState, obs: seq<Observation>)
    requires Consistent(st) && !st.sensorErrorActive && Chronological(st, obs)
    ensures !Run(st, obs).sensorErrorActive && !Has(Run(st, obs).events, SensorError)
    decreases |obs|
  {
    if obs != [] {
      var o := obs[0];
      var next := Observe(st, o.running, o.lockTaken, o.sample, o.now);
      if o.running && o.lockTaken && o.sample.valid {
        EvaluateConsistent(st, o.sample, o.now);
      }
      SensorErrorNeverRaised(next, obs[1..]);
    } else {
      assert Run(st, obs) == st;
    }
  }

  // ---------------------------------------------------------------------------
  // Status strings
  // ---------------------------------------------------------------------------

  predicate AnyActive(events: seq<Event>) {
    exists i :: 0 <= i < |events| && events[i].active
  }

  /** The names getStatusString lists: the active flags, in declaration order. */
  function ActiveNames(st: DetectorState): seq<string> {
    (if st.current.active then [TypeName(HighCurrent)] else []) +
    (if st.pressure.active then [TypeName(LowPressure)] else []) +
    (if st.temperature.active then [TypeName(LowTemperature)] else []) +
    (if st.sensorErrorActive then [TypeName(SensorError)] else [])
  }

  function StatusString(st: DetectorState): string {
    if !AnyActive(st.events) then "Normal" else "ALERT: " + JoinComma(ActiveNames(st))
  }

  /** The status reads "Normal" exactly when no condition is active, and
      otherwise names at least one. */
  lemma StatusNormalIffQuiet(st: DetectorState)
    requires Consistent(st)
    ensures StatusString(st) == "Normal" <==> ActiveNames(st) == []
    ensures StatusString(st) != "Normal" ==> ActiveNames(st) != []
  {
    if st.events != [] {
      assert st.events[0].active;
      assert Has(st.events, st.events[0].kind);
    }
    if ActiveNames(st) != [] {
      var k := if st.current.active then HighCurrent else if st.pressure.active then LowPressure
               else if st.temperature.active then LowTemperature else SensorError;
      assert Has(st.events, k);
      var i :| 0 <= i < |st.events| && st.events[i].kind == k;
      assert st.events[i].active;
      assert StatusString(st)[0] == 'A';
    }
  }

  function Names(events: seq<Event>): (names: seq<string>)
    ensures |names| == |events|
    decreases |events|
  {
    if events == [] then [] else Names(events[..|events| - 1]) + [TypeName(events[|events| - 1].kind)]
  }

  /** getEventSummary. */
  function EventSummary(events: seq<Event>): string {
    "Events: " + DecimalString(|events|) + " active" +
    (if |events| > 0 then " (" + JoinComma(Names(events)) + ")" else "")
  }

  /** The count in the summary reads back as the number of records. */
  lemma {:induction false} EventSummaryCount(events: seq<Event>)
    ensures var s := EventSummary(events);
            var k := |DecimalString(|events|)|;
            8 + k <= |s| && (forall i :: 8 <= i < 8 + k ==> IsDigit(s[i])) &&
            ParseDecimal(s[8..8 + k]) == |events|
  {
    var s := EventSummary(events);
    var d := DecimalString(|events|);
    assert s[8..8 + |d|] == d;
    ParseDecimalString(|events|);
  }

  // ---------------------------------------------------------------------------
  // The object
  // ---------------------------------------------------------------------------

  class Detector {
    const dataCollector: Collector?

    var highCurrentThreshold: real
    var lowPressureThreshold: real
    var lowTemperatureThreshold: real
    var pressureHysteresis: real
    var currentHysteresis: real
    var temperatureHysteresis: real

    var currentEventTime: nat
    var pressureEventTime: nat
    var temperatureEventTime: nat
    var currentEventDuration: nat
    var pressureEventDuration: nat
    var temperatureEventDuration: nat

    /** currentEvents[10]; the first eventCount slots are the list. */
    const currentEvents: array<Event>
    var eventCount: nat
    /** The list the first eventCount slots hold. */
    ghost var events: seq<Event>

    var highCurrentActive: bool
    var lowPressureActive: bool
    var lowTemperatureActive: bool
    var sensorErrorActive: bool

    /** The array has its ten slots and every slot past the list is zeroed. */
    ghost predicate Shape()
      reads this, currentEvents
    {
      currentEvents.Length == MaxEvents && eventCount <= MaxEvents &&
      |events| == eventCount && (forall i :: 0 <= i < eventCount ==> currentEvents[i] == events[i]) &&
      forall i :: eventCount <= i < MaxEvents ==> currentEvents[i] == Blank()
    }

    ghost function State(): DetectorState
      reads this
    {
      DetectorState(highCurrentThreshold, lowPressureThreshold, lowTemperatureThreshold,
                    pressureHysteresis, currentHysteresis, temperatureHysteresis,
                    Track(currentEventTime, currentEventDuration, highCurrentActive),
                    Track(pressureEventTime, pressureEventDuration, lowPressureActive),
                    Track(temperatureEventTime, temperatureEventDuration, lowTemperatureActive),
                    sensorErrorActive, events)
    }

    ghost predicate Valid()
      reads this, currentEvents
    {
      Shape() && Consistent(State())
    }

    constructor (collector: Collector?)
      ensures Valid() && fresh(currentEvents) && dataCollector == collector
      ensures State() == Initial()
    {
      dataCollector := collector;
      highCurrentThreshold, lowPressureThreshold, lowTemperatureThreshold := 7.2, 5.0, 38.0;
      pressureHysteresis, currentHysteresis, temperatureHysteresis := 2.0, 1.0, 2.0;
      currentEventTime, pressureEventTime, temperatureEventTime := 0, 0, 0;
      currentEventDuration, pressureEventDuration, temperatureEventDuration := 0, 0, 0;
      eventCount, events := 0, [];
      highCurrentActive, lowPressureActive, lowTemperatureActive, sensorErrorActive := false, false, false, false;
      currentEvents := new Event[MaxEvents](_ => Blank());
    }

    method SetThresholds(highCurrent: real, lowPressure: real, lowTemp: real)
      requires Shape()
      modifies this`highCurrentThreshold, this`lowPressureThreshold, this`lowTemperatureThreshold
      ensures Shape()
      ensures State() == old(State()).(highCurrentThreshold := highCurrent, lowPressureThreshold := lowPressure,
                                       lowTemperatureThreshold := lowTemp)
    {
      highCurrentThreshold := highCurrent;
      lowPressureThreshold := lowPressure;
      lowTemperatureThreshold := lowTemp;
    }

    method SetHysteresis(pressureHyst: real, currentHyst: real, tempHyst: real)
      requires Shape()
      modifies this`pressureHysteresis, this`currentHysteresis, this`temperatureHysteresis
      ensures Shape()
      ensures State() == old(State()).(pressureHysteresis := pressureHyst, currentHysteresis := currentHyst,
                                       temperatureHysteresis := tempHyst)
    {
      pressureHysteresis := pressureHyst;
      currentHysteresis := currentHyst;
      temperatureHysteresis := tempHyst;
    }

    /** hasActiveEvents: scans the list for an active record. */
    method HasActiveEvents() returns (found: bool)
      requires Shape()
      ensures found <==> AnyActive(events)
    {
      for i := 0 to eventCount
        invariant forall j :: 0 <= j < i ==> !currentEvents[j].active
      {
        if currentEvents[i].active {
          assert events[i].active;
          return true;
        }
      }
      return false;
    }

    /** getEvent: the record at `index`, or a zeroed record past the end. */
    method GetEvent(index: nat) returns (e: Event)
      requires Shape()
      ensures index < |events| ==> e == events[index]
      ensures index >= |events| ==> e == Blank()
    {
      if index < eventCount {
        return currentEvents[index];
      }
      return Blank();
    }

    /** findEventIndex: a linear scan from the front. */
    method FindEventIndex(kind: EventType) returns (idx: int)
      requires Shape()
      ensures idx == FindIndex(events, kind)
    {
      for i := 0 to eventCount
        invariant forall j :: 0 <= j < i ==> currentEvents[j].kind != kind
      {
        if currentEvents[i].kind == kind {
          FindIndexIsFirst(events, kind, i);
          return i;
        }
      }
      assert !Has(events, kind);
      return -1;
    }

    /** removeEvent: shift the later records one place left, shorten the list
        and zero the freed slot. */
    method RemoveEvent(index: nat)
      requires Shape()
      modifies this`eventCount, this`events, currentEvents
      ensures Shape()
      ensures events == RemoveAt(old(events), index)
    {
      if index >= eventCount {
        return;
      }
      ShiftLeft(index, eventCount);
      eventCount := eventCount - 1;
      currentEvents[eventCount] := Blank();
      events := RemoveAt(events, index);
    }

    /** The loop of removeEvent: the slots from `index` to `count - 2` take
        their right neighbour's record and every other slot keeps its own. */
    method ShiftLeft(index: nat, count: nat)
      requires currentEvents.Length == MaxEvents && index < count <= MaxEvents
      modifies currentEvents
      ensures forall j :: 0 <= j < MaxEvents ==>
                currentEvents[j] == if index <= j < count - 1 then old(currentEvents[j + 1]) else old(currentEvents[j])
    {
      for i := index to count - 1
        invariant forall j :: 0 <= j < MaxEvents ==>
                    currentEvents[j] == if index <= j < i then old(currentEvents[j + 1]) else old(currentEvents[j])
      {
        currentEvents[i] := currentEvents[i + 1];
      }
    }

    /** addEvent. */
    method AddEventRecord(kind: EventType, value: real, threshold: real, description: string, now: nat)
      requires Shape()
      modifies this`eventCount, this`events, currentEvents
      ensures Shape()
      ensures events == AddEvent(old(events), kind, value, threshold, now, description)
    {
      if eventCount >= MaxEvents {
        RemoveEvent(0);
      }
      currentEvents[eventCount] := Event(kind, value, threshold, now, 0, true, description);
      eventCount := eventCount + 1;
      events := events + [Event(kind, value, threshold, now, 0, true, description)];
    }

    /** clearEvent. */
    method ClearEvent(kind: EventType)
      requires Shape()
      modifies this`eventCount, this`events, currentEvents
      ensures Shape()
      ensures events == ClearKind(old(events), kind)
    {
      var index := FindEventIndex(kind);
      if index < 0 {
        return;
      }
      RemoveEvent(index);
    }

    /** updateEvent. */
    method UpdateEvent(kind: EventType, value: real, duration: nat)
      requires Shape()
      modifies this`events, currentEvents
      ensures Shape()
      ensures events == UpdateKind(old(events), kind, value, duration)
    {
      var index := FindEventIndex(kind);
      if index >= 0 {
        currentEvents[index] := currentEvents[index].(value := value, duration := duration);
        events := events[index := events[index].(value := value, duration := duration)];
      }
    }

    /** The arming, activation, clearing and disarming branches shared by the
        three debounced checks, acting on the list; returns the condition's new
        timer, duration and flag. */
    method TransitionStep(t: Track, present: bool, clears: bool, kind: EventType, value: real, threshold: real,
                          delay: nat, now: nat, description: string) returns (next: Track)
      requires Shape() && t.timer <= now
      modifies this`eventCount, this`events, currentEvents
      ensures Shape()
      ensures Checked(next, events) == Transition(t, old(events), present, clears, kind, value, threshold, delay, now, description)
    {
      next := t;
      if present && !t.active {
        if t.timer == 0 {
          next := t.(timer := now);
        } else if now - t.timer >= delay {
          next := Track(t.timer, now - t.timer, true);
          AddEventRecord(kind, value, threshold, description, now);
        }
      } else if !present && t.active {
        if clears {
          next := t.(active := false, timer := 0);
          ClearEvent(kind);
        }
      } else if !present {
        next := t.(timer := 0);
      }
    }

    /** One debounced check on the list: the transition, then the refresh of
        the record while the condition is active. */
    method DebounceStep(t: Track, present: bool, clears: bool, kind: EventType, value: real, threshold: real,
                        delay: nat, now: nat, description: string) returns (next: Track)
      requires Shape() && t.timer <= now
      modifies this`eventCount, this`events, currentEvents
      ensures Shape()
      ensures Checked(next, events) == Debounce(t, old(events), present, clears, kind, value, threshold, delay, now, description)
    {
      ghost var mid := Transition(t, events, present, clears, kind, value, threshold, delay, now, description);
      next := TransitionStep(t, present, clears, kind, value, threshold, delay, now, description);
      assert Checked(next, events) == mid;
      if next.active {
        UpdateEvent(kind, value, now - next.timer);
      }
    }

    /** checkHighCurrent. */
    method CheckHighCurrentAt(data: SensorData, now: nat)
      requires Shape() && currentEventTime <= now
      modifies this`currentEventTime, this`currentEventDuration, this`highCurrentActive,
               this`eventCount, this`events, currentEvents
      ensures Shape()
      ensures State() == CheckHighCurrent(old(State()), data, now)
    {
      var maxCurrent := Larger(data.current1, data.current2);
      ghost var st := State();
      var t := DebounceStep(Track(currentEventTime, currentEventDuration, highCurrentActive),
                            maxCurrent > highCurrentThreshold, maxCurrent < highCurrentThreshold - currentHysteresis,
                            HighCurrent, maxCurrent, highCurrentThreshold, CurrentEventDelay, now, HighCurrentText);
      ghost var evs := events;
      currentEventTime, currentEventDuration, highCurrentActive := t.timer, t.duration, t.active;
      assert State() == st.(current := t, events := evs);
    }

    /** checkLowPressure. */
    method CheckLowPressureAt(data: SensorData, now: nat)
      requires Shape() && pressureEventTime <= now
      modifies this`pressureEventTime, this`pressureEventDuration, this`lowPressureActive,
               this`eventCount, this`events, currentEvents
      ensures Shape()
      ensures State() == CheckLowPressure(old(State()), data, now)
    {
      ghost var st := State();
      var t := DebounceStep(Track(pressureEventTime, pressureEventDuration, lowPressureActive),
                            data.pressure < lowPressureThreshold, data.pressure > lowPressureThreshold + pressureHysteresis,
                            LowPressure, data.pressure, lowPressureThreshold, PressureEventDelay, now, LowPressureText);
      ghost var evs := events;
      pressureEventTime, pressureEventDuration, lowPressureActive := t.timer, t.duration, t.active;
      assert State() == st.(pressure := t, events := evs);
    }

    /** checkLowTemperature. */
    method CheckLowTemperatureAt(data: SensorData, now: nat)
      requires Shape() && temperatureEventTime <= now
      modifies this`temperatureEventTime, this`temperatureEventDuration, this`lowTemperatureActive,
               this`eventCount, this`events, currentEvents
      ensures Shape()
      ensures State() == CheckLowTemperature(old(State()), data, now)
    {
      ghost var st := State();
      var t := DebounceStep(Track(temperatureEventTime, temperatureEventDuration, lowTemperatureActive),
                            data.temperature < lowTemperatureThreshold, data.temperature > lowTemperatureThreshold + temperatureHysteresis,
                            LowTemperature, data.temperature, lowTemperatureThreshold, TemperatureEventDelay, now,
                            LowTemperatureText);
      ghost var evs := events;
      temperatureEventTime, temperatureEventDuration, lowTemperatureActive := t.timer, t.duration, t.active;
      assert State() == st.(temperature := t, events := evs);
    }

    /** checkSensorHealth. */
    method CheckSensorHealthAt(data: SensorData, now: nat)
      requires Shape()
      modifies this`sensorErrorActive, this`eventCount, this`events, currentEvents
      ensures Shape()
      ensures State() == CheckSensorHealth(old(State()), data, now)
    {
      var sensorError := !data.valid;
      if sensorError && !sensorErrorActive {
        sensorErrorActive := true;
        AddEventRecord(SensorError, 0.0, 0.0, SensorErrorText, now);
      } else if !sensorError && sensorErrorActive {
        sensorErrorActive := false;
        ClearEvent(SensorError);
      }
    }

    /** update: evaluate the collector's current sample, if it can be had. */
    method Update(lockTaken: bool, now: nat)
      requires Valid() && TimersBefore(State(), now)
      modifies this, currentEvents
      ensures Valid()
      ensures dataCollector == null ==> State() == old(State())
      ensures dataCollector != null ==>
                State() == Observe(old(State()), dataCollector.running, lockTaken, dataCollector.currentData, now)
      ensures sensorErrorActive ==> old(sensorErrorActive)
    {
      if dataCollector == null || !dataCollector.running {
        return;
      }
      var ok, data := dataCollector.GetCurrentData(lockTaken);
      if !ok {
        return;
      }
      ghost var st := State();
      CheckHighCurrentAt(data, now);
      CheckLowPressureAt(data, now);
      CheckLowTemperatureAt(data, now);
      CheckSensorHealthAt(data, now);
      EvaluateConsistent(st, data, now);
    }

    /** getStatusString: "Normal", or "ALERT: " and the active conditions' names. */
    method GetStatusString() returns (status: string)
      requires Shape()
      ensures status == StatusString(State())
    {
      var active := HasActiveEvents();
      if !active {
        return "Normal";
      }
      status := "ALERT: ";
      var first := true;
      ghost var names: seq<string> := [];
      if highCurrentActive {
        status, first := AppendPart(status, first, "High Current", names);
        names := names + ["High Current"];
      }
      if lowPressureActive {
        status, first := AppendPart(status, first, "Low Pressure", names);
        names := names + ["Low Pressure"];
      }
      if lowTemperatureActive {
        status, first := AppendPart(status, first, "Low Temperature", names);
        names := names + ["Low Temperature"];
      }
      if sensorErrorActive {
        status, first := AppendPart(status, first, "Sensor Error", names);
        names := names + ["Sensor Error"];
      }
      assert names == ActiveNames(State());
    }

    /** One `if (!first) status += ", "; status += part; first = false;` step. */
    static method AppendPart(status: string, first: bool, part: string, ghost names: seq<string>)
      returns (extended: string, stillFirst: bool)
      requires status == "ALERT: " + JoinComma(names) && (first <==> names == [])
      ensures extended == "ALERT: " + JoinComma(names + [part]) && !stillFirst
    {
      extended := status;
      if !first {
        extended := extended + ", ";
      }
      extended := extended + part;
      stillFirst := false;
      JoinCommaSnoc(names, part);
    }

    /** getEventSummary: the count, then the records' type names in list order. */
    method GetEventSummary() returns (summary: string)
      requires Shape()
      ensures summary == EventSummary(events)
    {
      summary := "Events: ";
      summary := summary + DecimalString(eventCount);
      summary := summary + " active";
      if eventCount > 0 {
        summary := summary + " (";
        var names := JoinNames();
        summary := summary + names + ")";
      }
    }

    /** The loop of getEventSummary: type names joined with ", ". */
    method JoinNames() returns (names: string)
      requires Shape()
      ensures names == JoinComma(Names(events))
    {
      names := "";
      for i := 0 to eventCount
        invariant names == JoinComma(Names(events[..i]))
      {
        if i > 0 {
          names := names + ", ";
        }
        names := names + TypeName(currentEvents[i].kind);
        assert events[..i + 1][..i] == events[..i];
        JoinCommaSnoc(Names(events[..i]), TypeName(events[i].kind));
      }
      assert events[..eventCount] == events;
    }
  }

  lemma FindIndexIsFirst(events: seq<Event>, kind: EventType, i: nat)
    requires i < |events| && events[i].kind == kind
    requires forall j :: 0 <= j < i ==> events[j].kind != kind
    ensures FindIndex(events, kind) == i
  {
  }
}
