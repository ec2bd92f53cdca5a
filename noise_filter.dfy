/** The per-channel rolling filter: a fixed-capacity circular buffer of samples
    with bootstrap-then-relative outlier rejection, an exponentially smoothed
    value and min/max/average/mean-square statistics over the filled prefix.

    The pure half (FilterState, Offer, Insert and the statistics functions)
    is the specification; class Filter is the in-place implementation and is
    proved against it. */
module NoiseFilter {

  /** A sample as the firmware's `float` carries it: a finite value, NaN or an infinity. */
  datatype Float = Finite(value: real) | NaN | Infinity(negative: bool)

  /** Accepted samples before outlier rejection starts: the test applies only once count > 3. */
  const BootstrapCount: nat := 3
  /** Smallest deviation band of the outlier test, in the channel's own units. */
  const OutlierFloor: real := 0.1
  /** Range setSmoothingFactor clamps to. */
  const MinSmoothing: real := 0.01
  const MaxSmoothing: real := 1.0

  function Abs(x: real): real {
    if x > 0.0 then x else -x
  }

  /** Arduino's constrain(x, lo, hi). */
  function Constrain(x: real, lo: real, hi: real): (r: real)
    requires lo <= hi
    ensures lo <= r <= hi
    ensures lo <= x <= hi ==> r == x
    ensures x < lo ==> r == lo
    ensures x > hi ==> r == hi
  {
    if x < lo then lo else if x > hi then hi else x
  }

  // ---------------------------------------------------------------------------
  // Statistics over a sequence of samples (each is 0 on the empty sequence)
  // ---------------------------------------------------------------------------

  function Sum(s: seq<real>): real {
    if s == [] then 0.0 else Sum(s[..|s| - 1]) + s[|s| - 1]
  }

  function SumOfSquares(s: seq<real>): real {
    if s == [] then 0.0 else SumOfSquares(s[..|s| - 1]) + s[|s| - 1] * s[|s| - 1]
  }

  function Mean(s: seq<real>): real {
    if s == [] then 0.0 else Sum(s) / (|s| as real)
  }

  /** The square of the root-mean-square value. */
  function MeanSquare(s: seq<real>): real {
    if s == [] then 0.0 else SumOfSquares(s) / (|s| as real)
  }

  /** The smallest element, found by the same left-to-right scan as getMin. */
  function Minimum(s: seq<real>): (r: real)
    ensures s == [] ==> r == 0.0
    ensures s != [] ==> r in s && forall i :: 0 <= i < |s| ==> r <= s[i]
  {
    if |s| == 0 then 0.0
    else if |s| == 1 then s[0]
    else
      var p := s[..|s| - 1];
      var m := Minimum(p);
      assert s == p + [s[|s| - 1]];
      if s[|s| - 1] < m then s[|s| - 1] else m
  }

  /** The largest element, found by the same left-to-right scan as getMax. */
  function Maximum(s: seq<real>): (r: real)
    ensures s == [] ==> r == 0.0
    ensures s != [] ==> r in s && forall i :: 0 <= i < |s| ==> s[i] <= r
  {
    if |s| == 0 then 0.0
    else if |s| == 1 then s[0]
    else
      var p := s[..|s| - 1];
      var m := Maximum(p);
      assert s == p + [s[|s| - 1]];
      if s[|s| - 1] > m then s[|s| - 1] else m
  }

  /** One more step of the left-to-right scan. */
  lemma MinimumStep(s: seq<real>)
    requires |s| > 0
    ensures Minimum(s) == if |s| == 1 then s[0]
                            else if s[|s| - 1] < Minimum(s[..|s| - 1]) then s[|s| - 1]
                            else Minimum(s[..|s| - 1])
  {
  }

  lemma MaximumStep(s: seq<real>)
    requires |s| > 0
    ensures Maximum(s) == if |s| == 1 then s[0]
                            else if s[|s| - 1] > Maximum(s[..|s| - 1]) then s[|s| - 1]
                            else Maximum(s[..|s| - 1])
  {
  }

  lemma {:induction false} SumAppend(a: seq<real>, b: seq<real>)
    ensures Sum(a + b) == Sum(a) + Sum(b)
    decreases |b|
  {
    if b != [] {
      var c := a + b;
      var b' := b[..|b| - 1];
      assert c[..|c| - 1] == a + b';
      assert c[|c| - 1] == b[|b| - 1];
      SumAppend(a, b');
      assert Sum(c) == Sum(a + b') + b[|b| - 1];
      assert Sum(b) == Sum(b') + b[|b| - 1];
    } else {
      assert a + b == a;
    }
  }

  /** A sum of |s| values within [lo, hi] lies within [|s|·lo, |s|·hi]. */
  lemma {:induction false} SumBounds(s: seq<real>, lo: real, hi: real)
    requires forall i :: 0 <= i < |s| ==> lo <= s[i] <= hi
    ensures (|s| as real) * lo <= Sum(s) <= (|s| as real) * hi
    decreases |s|
  {
    if s != [] {
      var p := s[..|s| - 1];
      var n := |p| as real;
      assert forall i :: 0 <= i < |p| ==> p[i] == s[i];
      SumBounds(p, lo, hi);
      assert Sum(s) == Sum(p) + s[|s| - 1];
      assert (|s| as real) * lo == n * lo + lo;
      assert (|s| as real) * hi == n * hi + hi;
    }
  }

  lemma {:induction false} SumOfSquaresNonNegative(s: seq<real>)
    ensures SumOfSquares(s) >= 0.0
    decreases |s|
  {
    if s != [] {
      SumOfSquaresNonNegative(s[..|s| - 1]);
      var x := s[|s| - 1];
      if x < 0.0 {
        NonNegativeProduct(-x, -x);
      } else {
        NonNegativeProduct(x, x);
      }
    }
  }

  /** The squared RMS is never negative. */
  lemma MeanSquareNonNegative(s: seq<real>)
    ensures MeanSquare(s) >= 0.0
  {
    SumOfSquaresNonNegative(s);
    if s != [] {
      DivisionBounds(SumOfSquares(s), |s| as real, 0.0, SumOfSquares(s));
    }
  }

  /** On a non-empty window the average lies between the minimum and the maximum. */
  lemma MeanBetweenMinAndMax(s: seq<real>)
    requires s != []
    ensures Minimum(s) <= Mean(s) <= Maximum(s)
  {
    SumBounds(s, Minimum(s), Maximum(s));
    DivisionBounds(Sum(s), |s| as real, Minimum(s), Maximum(s));
  }

  lemma DivisionBounds(total: real, n: real, lo: real, hi: real)
    requires n > 0.0 && n * lo <= total <= n * hi
    ensures lo <= total / n <= hi
  {
    var q := total / n;
    assert total == n * q;
    assert n * lo <= n * q;
    assert n * q <= n * hi;
  }

  /** The statistics do not depend on where the ring wrapped. */
  lemma RotationKeepsMean(s: seq<real>, k: nat)
    requires k <= |s|
    ensures Mean(s[k..] + s[..k]) == Mean(s)
  {
    SumAppend(s[k..], s[..k]);
    SumAppend(s[..k], s[k..]);
    assert s[..k] + s[k..] == s;
  }

  lemma RotationKeepsExtremes(s: seq<real>, k: nat)
    requires k <= |s|
    ensures Minimum(s[k..] + s[..k]) == Minimum(s)
    ensures Maximum(s[k..] + s[..k]) == Maximum(s)
  {
    var t := s[k..] + s[..k];
    assert s[..k] + s[k..] == s;
    assert forall v :: v in t <==> v in s;
    if s != [] {
      assert Minimum(t) in s && Minimum(s) in t;
      assert Maximum(t) in s && Maximum(s) in t;
    }
  }

  // ---------------------------------------------------------------------------
  // The filter's state and the specification of its operations
  // ---------------------------------------------------------------------------

  /** Every field of a NoiseFilter (slots is the whole backing array). */
  datatype FilterState = FilterState(
    slots: seq<real>,
    index: nat,
    count: nat,
    outlierThreshold: real,
    smoothing: real,
    filtered: real,
    average: real,
    initialized: bool)

  /** Index/count bookkeeping of a circular buffer that has not yet wrapped
      while count < capacity. */
  predicate WellFormed(st: FilterState) {
    |st.slots| > 0 && st.index < |st.slots| && st.count <= |st.slots| &&
    (st.count < |st.slots| ==> st.index == st.count)
  }

  /** The filled prefix buffer[0..samplesCount) that every statistic scans. */
  function Window(st: FilterState): seq<real>
    requires st.count <= |st.slots|
  {
    st.slots[..st.count]
  }

  /** The filled slots in arrival order, oldest first. */
  function Ordered(st: FilterState): seq<real>
    requires WellFormed(st)
  {
    if st.count < |st.slots| then st.slots[..st.count]
    else st.slots[st.index..] + st.slots[..st.index]
  }

  /** The last n elements of h (all of h when it is shorter). */
  function Latest(h: seq<real>, n: nat): (r: seq<real>)
    ensures |r| == if |h| <= n then |h| else n
  {
    if |h| <= n then h else h[|h| - n..]
  }

  /** The state after construction or reset: zeroed slots, nothing counted. */
  function Empty(size: nat, outlierThreshold: real, smoothing: real): (st: FilterState)
    requires size > 0
    ensures WellFormed(st) && Window(st) == [] && |st.slots| == size
  {
    FilterState(seq(size, _ => 0.0), 0, 0, outlierThreshold, smoothing, 0.0, 0.0, false)
  }

  function OutlierLimit(threshold: real, average: real): real {
    if threshold * average < OutlierFloor then OutlierFloor else threshold * average
  }

  /** isOutlier: a deviation from the current average beyond the relative band. */
  predicate IsOutlierAt(st: FilterState, x: real)
    requires st.count <= |st.slots|
  {
    st.count != 0 &&
    Abs(x - Mean(Window(st))) > OutlierLimit(st.outlierThreshold, Mean(Window(st)))
  }

  /** Whether addSample keeps the sample. */
  predicate Accepts(st: FilterState, s: Float)
    requires st.count <= |st.slots|
  {
    s.Finite? && !(st.count > BootstrapCount && IsOutlierAt(st, s.value))
  }

  /** Advancing an index modulo the capacity wraps only at the end. */
  lemma NextIndex(b: nat, n: nat)
    requires b < n
    ensures (b + 1) % n == if b + 1 < n then b + 1 else 0
  {
    if b + 1 == n {
      assert (b + 1) % n == n % n == 0;
    }
  }

  /** The bookkeeping half of addSample: write at the index, advance it, count up to capacity. */
  function Store(st: FilterState, x: real): (r: FilterState)
    requires WellFormed(st)
    ensures WellFormed(r) && |r.slots| == |st.slots|
  {
    NextIndex(st.index, |st.slots|);
    st.(slots := st.slots[st.index := x],
        index := (st.index + 1) % |st.slots|,
        count := if st.count < |st.slots| then st.count + 1 else st.count)
  }

  /** updateStatistics: the first update copies the average, later ones smooth towards it. */
  function Refresh(st: FilterState): (r: FilterState)
    requires st.count <= |st.slots|
    ensures r.slots == st.slots && r.index == st.index && r.count == st.count
  {
    if st.count == 0 then st
    else
      var avg := Mean(Window(st));
      st.(filtered := if st.initialized then st.smoothing * avg + (1.0 - st.smoothing) * st.filtered else avg,
          average := avg,
          initialized := true)
  }

  /** Storing an accepted sample, then updateStatistics. */
  function Insert(st: FilterState, x: real): (r: FilterState)
    requires WellFormed(st)
    ensures WellFormed(r) && |r.slots| == |st.slots|
  {
    Refresh(Store(st, x))
  }

  /** addSample. */
  function Offer(st: FilterState, s: Float): (r: FilterState)
    requires WellFormed(st)
    ensures WellFormed(r) && |r.slots| == |st.slots|
    ensures st.count <= r.count
  {
    if Accepts(st, s) then Insert(st, s.value) else st
  }

  predicate Ready(st: FilterState) {
    st.count >= |st.slots| / 2
  }

  // ---------------------------------------------------------------------------
  // Properties of the specification
  // ---------------------------------------------------------------------------

  /** NaN and the infinities change nothing. */
  lemma NonFiniteIgnored(st: FilterState, s: Float)
    requires WellFormed(st) && !s.Finite?
    ensures Offer(st, s) == st
  {
  }

  /** Every finite sample is kept while the count is at most 3, i.e. the first four. */
  lemma BootstrapAcceptsAll(st: FilterState, x: real)
    requires WellFormed(st) && st.count <= BootstrapCount
    ensures Offer(st, Finite(x)) == Insert(st, x)
  {
  }

  /** After the bootstrap a finite sample is dropped exactly when it deviates from
      the current average by more than max(outlierThreshold·average, 0.1). */
  lemma OutlierRule(st: FilterState, x: real)
    requires WellFormed(st) && st.count > BootstrapCount
    ensures var avg := Mean(Window(st));
            var limit := if st.outlierThreshold * avg > OutlierFloor then st.outlierThreshold * avg else OutlierFloor;
            Accepts(st, Finite(x)) <==> Abs(x - avg) <= limit
  {
  }

  /** A sample within 0.1 of the current average is never rejected, whatever the threshold. */
  lemma NearAverageAccepted(st: FilterState, x: real)
    requires WellFormed(st) && Abs(x - Mean(Window(st))) <= OutlierFloor
    ensures Accepts(st, Finite(x))
  {
  }

  /** An accepted sample lands at the write index; the index advances modulo the
      capacity and the count grows by one up to the capacity. */
  lemma InsertBookkeeping(st: FilterState, x: real)
    requires WellFormed(st)
    ensures var r := Insert(st, x);
            r.slots[st.index] == x &&
            (forall i :: 0 <= i < |st.slots| && i != st.index ==> r.slots[i] == st.slots[i]) &&
            r.index == (st.index + 1) % |st.slots| &&
            r.count == (if st.count < |st.slots| then st.count + 1 else |st.slots|) &&
            r.count <= |st.slots| && r.count >= st.count
  {
  }

  lemma {:induction false} LatestStep(h: seq<real>, x: real, n: nat)
    requires n > 0
    ensures Latest(Latest(h, n) + [x], n) == Latest(h + [x], n)
  {
    if |h| > n {
      var t := h[|h| - n..];
      assert (t + [x])[1..] == h[|h| - n + 1..] + [x];
      assert (h + [x])[|h| + 1 - n..] == h[|h| - n + 1..] + [x];
    }
  }

  /** The arrival order depends on the slots, the index and the count only. */
  lemma SameRing(a: FilterState, b: FilterState)
    requires WellFormed(a) && b.slots == a.slots && b.index == a.index && b.count == a.count
    ensures WellFormed(b) && Ordered(b) == Ordered(a)
  {
  }

  /** The ring keeps the most recent `capacity` accepted samples in arrival order. */
  lemma StoreOrdered(st: FilterState, x: real)
    requires WellFormed(st)
    ensures Ordered(Store(st, x)) == Latest(Ordered(st) + [x], |st.slots|)
  {
    if st.count < |st.slots| {
      RingStepFilling(st.slots, st.count, x);
    } else {
      RingStepFull(st.slots, st.index, x);
    }
  }

  /** Storing a sample into a ring that holds the latest samples of h makes
      it hold the latest samples of h + [x]. */
  lemma StoreKeepsLatest(st: FilterState, h: seq<real>, x: real)
    requires WellFormed(st) && Ordered(st) == Latest(h, |st.slots|)
    ensures Ordered(Store(st, x)) == Latest(h + [x], |st.slots|)
  {
    StoreOrdered(st, x);
    LatestStep(h, x, |st.slots|);
  }

  /** One write into a ring that has not yet wrapped. */
  lemma RingStepFilling(slots: seq<real>, c: nat, x: real)
    requires c < |slots|
    ensures var n := |slots|;
            var c' := c + 1;
            var s' := slots[c := x];
            (if c' < n then s'[..c'] else s'[(c + 1) % n..] + s'[..(c + 1) % n])
              == Latest(slots[..c] + [x], n)
  {
    var n := |slots|;
    var s' := slots[c := x];
    assert Latest(slots[..c] + [x], n) == slots[..c] + [x];
    if c + 1 < n {
      assert s'[..c + 1] == slots[..c] + [x];
    } else {
      assert (c + 1) % n == 0;
      assert s'[0..] + s'[..0] == s';
      assert s' == slots[..c] + [x];
    }
  }

  /** One write into a full ring: the oldest sample gives way to the newest. */
  lemma RingStepFull(slots: seq<real>, b: nat, x: real)
    requires b < |slots|
    ensures var n := |slots|;
            var s' := slots[b := x];
            s'[(b + 1) % n..] + s'[..(b + 1) % n]
              == Latest(slots[b..] + slots[..b] + [x], n)
  {
    var n := |slots|;
    var s' := slots[b := x];
    var o := slots[b..] + slots[..b];
    assert |o + [x]| == n + 1;
    assert Latest(o + [x], n) == (o + [x])[1..];
    assert (o + [x])[1..] == slots[b + 1..] + slots[..b] + [x];
    if b + 1 < n {
      assert (b + 1) % n == b + 1;
      assert s'[b + 1..] == slots[b + 1..];
      assert s'[..b + 1] == slots[..b] + [x];
    } else {
      assert (b + 1) % n == 0;
      assert s'[0..] + s'[..0] == s';
      assert slots[b + 1..] == [];
      assert s' == slots[..b] + [x];
    }
  }

  /** The filled prefix and the arrival-ordered window have the same statistics. */
  lemma WindowMatchesOrdered(st: FilterState)
    requires WellFormed(st)
    ensures Mean(Window(st)) == Mean(Ordered(st))
    ensures Minimum(Window(st)) == Minimum(Ordered(st))
    ensures Maximum(Window(st)) == Maximum(Ordered(st))
  {
    if st.count == |st.slots| {
      assert Window(st) == st.slots;
      RotationKeepsMean(st.slots, st.index);
      RotationKeepsExtremes(st.slots, st.index);
    }
  }

  /** isReady never reverts between resets: addSample never lowers the count. */
  lemma ReadyPersists(st: FilterState, s: Float)
    requires WellFormed(st)
    ensures st.count <= Offer(st, s).count
    ensures Ready(st) ==> Ready(Offer(st, s))
  {
  }

  /** After reset a filter of capacity at least 2 is not ready and reports zeros. */
  lemma EmptyState(size: nat, outlierThreshold: real, smoothing: real)
    requires size >= 2
    ensures var e := Empty(size, outlierThreshold, smoothing);
            !Ready(e) && Mean(Window(e)) == 0.0 && Minimum(Window(e)) == 0.0 &&
            Maximum(Window(e)) == 0.0 && MeanSquare(Window(e)) == 0.0 && e.filtered == 0.0
  {
  }

  /** The first accepted sample copies the average into the filtered value; later
      ones move it part of the way towards the new average. */
  lemma SmoothingStep(st: FilterState, x: real)
    requires WellFormed(st)
    ensures var r := Insert(st, x);
            (!st.initialized ==> r.filtered == r.average) &&
            (st.initialized && 0.0 <= st.smoothing <= 1.0 ==>
               (st.filtered <= r.filtered <= r.average || r.average <= r.filtered <= st.filtered))
  {
    var s := Store(st, x);
    assert s.count > 0 && s.initialized == st.initialized;
    assert s.smoothing == st.smoothing && s.filtered == st.filtered;
    var avg := Mean(Window(s));
    var r := Insert(st, x);
    assert r == Refresh(s);
    assert r.average == avg;
    if st.initialized {
      if 0.0 <= st.smoothing <= 1.0 {
        ConvexStep(st.filtered, avg, st.smoothing, r.filtered);
      }
    } else {
      assert r.filtered == avg;
    }
  }

  lemma NonNegativeProduct(x: real, y: real)
    requires x >= 0.0 && y >= 0.0
    ensures x * y >= 0.0
  {
  }

  /** A smoothing step with a factor in [0, 1] lands between the previous value and the target. */
  lemma ConvexStep(prev: real, avg: real, a: real, next: real)
    requires 0.0 <= a <= 1.0
    requires next == a * avg + (1.0 - a) * prev
    ensures prev <= next <= avg || avg <= next <= prev
  {
    var d := avg - prev;
    assert a * avg + (1.0 - a) * prev == prev + a * d;
    assert avg == prev + d;
    assert d - a * d == (1.0 - a) * d;
    if d >= 0.0 {
      NonNegativeProduct(a, d);
      NonNegativeProduct(1.0 - a, d);
    } else {
      NonNegativeProduct(a, -d);
      NonNegativeProduct(1.0 - a, -d);
    }
  }

  // ---------------------------------------------------------------------------
  // The in-place implementation
  // ---------------------------------------------------------------------------

  class Filter {
    const buffer: array<real>
    const bufferSize: nat
    var bufferIndex: nat
    var samplesCount: nat
    var outlierThreshold: real
    var smoothingFactor: real
    var lastFiltered: real
    var lastAverage: real
    var initialized: bool
    /** Every sample accepted since construction or the last reset, oldest first. */
    ghost var History: seq<real>

    ghost function State(): FilterState
      reads this, buffer
    {
      FilterState(buffer[..], bufferIndex, samplesCount, outlierThreshold,
                  smoothingFactor, lastFiltered, lastAverage, initialized)
    }

    /** The buffer bookkeeping: the ring holds the latest accepted samples. */
    ghost predicate Layout()
      reads this, buffer
    {
      buffer.Length == bufferSize && WellFormed(State()) &&
      Ordered(State()) == Latest(History, bufferSize)
    }

    ghost predicate Valid()
      reads this, buffer
    {
      Layout() && initialized == (samplesCount > 0)
    }

    constructor (size: nat, outlierThresh: real, smoothing: real)
      requires 0 < size
      ensures Valid() && fresh(buffer) && bufferSize == size
      ensures State() == Empty(size, outlierThresh, smoothing) && History == []
    {
      var a := new real[size];
      for i := 0 to size
        invariant forall k :: 0 <= k < i ==> a[k] == 0.0
      {
        a[i] := 0.0;
      }
      assert a[..] == seq(size, _ => 0.0);
      bufferSize := size;
      buffer := a;
      bufferIndex := 0;
      samplesCount := 0;
      outlierThreshold := outlierThresh;
      smoothingFactor := smoothing;
      lastFiltered := 0.0;
      lastAverage := 0.0;
      initialized := false;
      History := [];
    }

    method Reset()
      requires Valid()
      modifies this, buffer
      ensures Valid() && History == []
      ensures State() == Empty(bufferSize, old(outlierThreshold), old(smoothingFactor))
    {
      bufferIndex := 0;
      samplesCount := 0;
      lastFiltered := 0.0;
      lastAverage := 0.0;
      initialized := false;
      History := [];
      for i := 0 to bufferSize
        invariant forall k :: 0 <= k < i ==> buffer[k] == 0.0
        modifies buffer
      {
        buffer[i] := 0.0;
      }
      assert buffer[..] == seq(bufferSize, _ => 0.0);
    }

    method AddSample(sample: Float)
      requires Valid()
      modifies this, buffer
      ensures Valid()
      ensures State() == Offer(old(State()), sample)
      ensures History == if Accepts(old(State()), sample) then old(History) + [sample.value] else old(History)
    {
      if !sample.Finite? {
        return;
      }
      var x := sample.value;
      if samplesCount > BootstrapCount {
        var outlier := IsOutlier(x);
        if outlier {
          return;
        }
      }
      InsertSample(x);
    }

    /** An accepted sample: store it, then updateStatistics. */
    method InsertSample(x: real)
      requires Valid()
      modifies this, buffer
      ensures Valid()
      ensures State() == Insert(old(State()), x)
      ensures History == old(History) + [x]
    {
      StoreSample(x);
      UpdateStatistics();
    }

    /** The bookkeeping half of addSample: write at the index, advance it modulo
        the capacity and count up to the capacity. */
    method StoreSample(x: real)
      requires Layout()
      modifies this`bufferIndex, this`samplesCount, this`History, buffer
      ensures Layout()
      ensures State() == Store(old(State()), x)
      ensures History == old(History) + [x]
    {
      ghost var before := State();
      StoreKeepsLatest(before, History, x);
      buffer[bufferIndex] := x;
      bufferIndex := (bufferIndex + 1) % bufferSize;
      if samplesCount < bufferSize {
        samplesCount := samplesCount + 1;
      }
      History := History + [x];
      assert buffer[..] == before.slots[before.index := x];
      assert State() == Store(before, x);
    }

    /** updateStatistics: refresh the smoothed value from the new average. */
    method UpdateStatistics()
      requires Layout()
      modifies this`lastFiltered, this`lastAverage, this`initialized
      ensures Layout()
      ensures State() == Refresh(old(State()))
    {
      if samplesCount == 0 {
        return;
      }
      ghost var before := State();
      var currentAvg := GetAverage();
      if !initialized {
        lastFiltered := currentAvg;
        lastAverage := currentAvg;
        initialized := true;
      } else {
        lastFiltered := (smoothingFactor * currentAvg) + ((1.0 - smoothingFactor) * lastFiltered);
        lastAverage := currentAvg;
      }
      assert State() == Refresh(before);
      SameRing(before, State());
    }

    /** isOutlier. */
    method IsOutlier(sample: real) returns (outlier: bool)
      requires Layout()
      ensures outlier == IsOutlierAt(State(), sample)
    {
      if samplesCount == 0 {
        return false;
      }
      var currentAvg := GetAverage();
      var deviation := Abs(sample - currentAvg);
      var threshold := outlierThreshold * currentAvg;
      if threshold < OutlierFloor {
        threshold := OutlierFloor;
      }
      return deviation > threshold;
    }

    /** getAverage: the mean of the filled prefix, which is the mean of the most
        recent accepted samples (at most bufferSize of them). */
    method GetAverage() returns (avg: real)
      requires Layout()
      ensures avg == Mean(buffer[..samplesCount]) == Mean(Window(State()))
      ensures avg == Mean(Latest(History, bufferSize))
    {
      WindowMatchesOrdered(State());
      if samplesCount == 0 {
        return 0.0;
      }
      var sum := 0.0;
      for i := 0 to samplesCount
        invariant sum == Sum(buffer[..i])
      {
        assert buffer[..i + 1][..i] == buffer[..i];
        sum := sum + buffer[i];
      }
      return sum / (samplesCount as real);
    }

    /** getMin: 0 when empty, otherwise the least element of the filled prefix. */
    method GetMin() returns (minVal: real)
      requires Layout()
      ensures minVal == Minimum(buffer[..samplesCount]) == Minimum(Window(State()))
      ensures minVal == Minimum(Latest(History, bufferSize))
    {
      WindowMatchesOrdered(State());
      if samplesCount == 0 {
        return 0.0;
      }
      minVal := buffer[0];
      MinimumStep(buffer[..1]);
      for i := 1 to samplesCount
        invariant minVal == Minimum(buffer[..i])
      {
        MinimumStep(buffer[..i + 1]);
        assert buffer[..i + 1][..i] == buffer[..i];
        if buffer[i] < minVal {
          minVal := buffer[i];
        }
      }
    }

    /** getMax: 0 when empty, otherwise the greatest element of the filled prefix. */
    method GetMax() returns (maxVal: real)
      requires Layout()
      ensures maxVal == Maximum(buffer[..samplesCount]) == Maximum(Window(State()))
      ensures maxVal == Maximum(Latest(History, bufferSize))
    {
      WindowMatchesOrdered(State());
      if samplesCount == 0 {
        return 0.0;
      }
      maxVal := buffer[0];
      MaximumStep(buffer[..1]);
      for i := 1 to samplesCount
        invariant maxVal == Maximum(buffer[..i])
      {
        MaximumStep(buffer[..i + 1]);
        assert buffer[..i + 1][..i] == buffer[..i];
        if buffer[i] > maxVal {
          maxVal := buffer[i];
        }
      }
    }

    /** getRMS without its final square root: the mean of the squares of the filled prefix. */
    method GetMeanSquare() returns (ms: real)
      requires Layout()
      ensures ms == MeanSquare(buffer[..samplesCount]) == MeanSquare(Window(State()))
      ensures ms >= 0.0
    {
      assert buffer[..samplesCount] == Window(State());
      MeanSquareNonNegative(buffer[..samplesCount]);
      if samplesCount == 0 {
        return 0.0;
      }
      var sumSquares := 0.0;
      for i := 0 to samplesCount
        invariant sumSquares == SumOfSquares(buffer[..i])
      {
        assert buffer[..i + 1][..i] == buffer[..i];
        sumSquares := sumSquares + buffer[i] * buffer[i];
      }
      return sumSquares / (samplesCount as real);
    }

    function GetFiltered(): real
      reads this
    {
      lastFiltered
    }

    function GetSampleCount(): nat
      reads this
    {
      samplesCount
    }

    /** isReady: at least half of the capacity (integer division) is filled. */
    predicate IsReady()
      reads this
    {
      samplesCount >= bufferSize / 2
    }

    method SetOutlierThreshold(threshold: real)
      modifies this`outlierThreshold
      ensures outlierThreshold == threshold
    {
      outlierThreshold := threshold;
    }

    /** Unlike the constructor, this clamps the factor to [0.01, 1.0]. */
    method SetSmoothingFactor(factor: real)
      modifies this`smoothingFactor
      ensures MinSmoothing <= smoothingFactor <= MaxSmoothing
      ensures smoothingFactor == Constrain(factor, MinSmoothing, MaxSmoothing)
    {
      smoothingFactor := Constrain(factor, MinSmoothing, MaxSmoothing);
    }
  }
}
