/** What the two cloud clients (the REST API client and the MongoDB Data API
    client) have in common: the store-and-forward ring of slots that holds
    aggregated records waiting for delivery, the rule that reads an HTTP status
    code as success, the exponential backoff between reconnection attempts, the
    connection test with its minimum interval, and the connection-status text.
    Every network answer is an HTTP status code handed in as an input; a missing
    answer counts as a failed request. */
module Delivery {
  import opened Text
  import opened DataCollector
  import NoiseFilter

  /** `unsigned long` on the ESP32 is 32 bits wide. */
  const TimeModulus: nat := 0x1_0000_0000
  /** `retryCount` is a `uint16_t`. */
  const RetryModulus: nat := 0x1_0000
  const MaxRetryDelay: nat := 300000
  const StatusOk: int := 200
  const StatusCreated: int := 201

  /** millis() - since, computed in unsigned 32-bit arithmetic. */
  function Elapsed(now: nat, since: nat): (e: nat)
    ensures e < TimeModulus
    ensures since <= now < since + TimeModulus ==> e == now - since
  {
    (now - since) % TimeModulus
  }

  /** Both clients accept 200 and 201 as a successful request. */
  predicate Succeeded(code: int) {
    code == StatusOk || code == StatusCreated
  }

  /** The answer to the k-th request of a sequence of requests. */
  predicate Answer(codes: seq<int>, k: nat) {
    k < |codes| && Succeeded(codes[k])
  }

  function Pow2(k: nat): (p: nat)
    ensures p >= 1
  {
    if k == 0 then 1 else 2 * Pow2(k - 1)
  }

  /** getRetryDelay: base·2^min(retryCount, 4), capped at five minutes. */
  function Backoff(base: nat, retryCount: nat): (d: nat)
    ensures d <= MaxRetryDelay
    ensures base <= MaxRetryDelay ==> base <= d
    ensures d == if base * Pow2(Min(retryCount, 4)) < MaxRetryDelay then base * Pow2(Min(retryCount, 4)) else MaxRetryDelay
  {
    var delay := base * Pow2(Min(retryCount, 4));
    if delay < MaxRetryDelay then delay else MaxRetryDelay
  }

  /** The delay never shrinks as the retry count grows. */
  lemma BackoffMonotone(base: nat, r1: nat, r2: nat)
    requires r1 <= r2
    ensures Backoff(base, r1) <= Backoff(base, r2)
  {
    Pow2Monotone(Min(r1, 4), Min(r2, 4));
    var p1, p2 := Pow2(Min(r1, 4)), Pow2(Min(r2, 4));
    assert base * p1 <= base * p2 by {
      assert base * p2 == base * p1 + base * (p2 - p1);
    }
  }

  lemma {:induction false} Pow2Monotone(i: nat, j: nat)
    requires i <= j
    ensures Pow2(i) <= Pow2(j)
    decreases j
  {
    if i < j {
      Pow2Monotone(i, j - 1);
    }
  }

  /** After four failed attempts the delay stops growing. */
  lemma BackoffSaturates(base: nat, r: nat)
    requires r >= 4
    ensures Backoff(base, r) == Backoff(base, 4)
  {
  }

  // ---------------------------------------------------------------------------
  // The slot ring
  // ---------------------------------------------------------------------------

  /** One DataBuffer entry. */
  datatype Slot = Slot(data: AggregatedData, timestamp: nat, valid: bool)

  /** A slot as the constructor leaves it. Only its valid flag is set in the
      source; its record and timestamp are modelled as zero. */
  function EmptySlot(): Slot {
    Slot(ZeroAggregate(), 0, false)
  }

  /** The whole slot array, the write index and bufferedCount. */
  datatype BufferState = BufferState(slots: seq<Slot>, index: nat, count: nat)

  predicate WellFormed(b: BufferState) {
    |b.slots| > 0 && b.index < |b.slots| && b.count <= |b.slots|
  }

  /** The records of the valid slots at positions i and above, in slot order. */
  function Pending(slots: seq<Slot>, i: nat): (r: seq<AggregatedData>)
    requires i <= |slots|
    ensures |r| <= |slots| - i
    decreases |slots| - i
  {
    if i == |slots| then []
    else if slots[i].valid then [slots[i].data] + Pending(slots, i + 1)
    else Pending(slots, i + 1)
  }

  /** How far bufferedCount overstates the records actually waiting. */
  function Phantom(b: BufferState): int
    requires WellFormed(b)
  {
    b.count - |Pending(b.slots, 0)|
  }

  /** The invariant the counters keep: never more waiting records than counted. */
  predicate Sound(b: BufferState) {
    WellFormed(b) && |Pending(b.slots, 0)| <= b.count
  }

  lemma {:induction false} PendingNone(slots: seq<Slot>, i: nat)
    requires i <= |slots|
    requires forall k :: i <= k < |slots| ==> !slots[k].valid
    ensures Pending(slots, i) == []
    decreases |slots| - i
  {
    if i < |slots| {
      PendingNone(slots, i + 1);
    }
  }

  lemma {:induction false} PendingAll(slots: seq<Slot>, i: nat)
    requires i <= |slots|
    requires forall k :: i <= k < |slots| ==> slots[k].valid
    ensures |Pending(slots, i)| == |slots| - i
    decreases |slots| - i
  {
    if i < |slots| {
      PendingAll(slots, i + 1);
    }
  }

  /** Pending depends only on the slots from i on. */
  lemma {:induction false} PendingAgree(s: seq<Slot>, t: seq<Slot>, i: nat)
    requires i <= |s| == |t|
    requires forall k :: i <= k < |s| ==> s[k] == t[k]
    ensures Pending(s, i) == Pending(t, i)
    decreases |s| - i
  {
    if i < |s| {
      PendingAgree(s, t, i + 1);
    }
  }

  /** Overwriting one slot changes the number of waiting records by the change of its flag. */
  lemma {:induction false} PendingUpdate(s: seq<Slot>, i: nat, j: nat, x: Slot)
    requires i <= j < |s|
    ensures |Pending(s[j := x], i)| + (if s[j].valid then 1 else 0) ==
            |Pending(s, i)| + (if x.valid then 1 else 0)
    decreases j - i
  {
    if i < j {
      PendingUpdate(s, i + 1, j, x);
    } else {
      PendingAgree(s[j := x], s, j + 1);
    }
  }

  /** The state the constructor leaves: every slot invalid, nothing counted. */
  function Empty(size: nat): (b: BufferState)
    requires size > 0
    ensures Sound(b) && |b.slots| == size && Pending(b.slots, 0) == [] && b.count == 0
  {
    var b := BufferState(seq(size, _ => EmptySlot()), 0, 0);
    PendingNone(b.slots, 0);
    b
  }

  /** addToBuffer: fill the slot at the write index, advance the index modulo the
      capacity, count up to the capacity. */
  function Added(b: BufferState, data: AggregatedData, now: nat): (r: BufferState)
    requires WellFormed(b)
    ensures WellFormed(r) && |r.slots| == |b.slots|
    ensures r.slots[b.index] == Slot(data, now, true)
    ensures forall k :: 0 <= k < |b.slots| && k != b.index ==> r.slots[k] == b.slots[k]
    ensures r.index == if b.index + 1 < |b.slots| then b.index + 1 else 0
    ensures r.count == Min(b.count + 1, |b.slots|)
  {
    NoiseFilter.NextIndex(b.index, |b.slots|);
    b.(slots := b.slots[b.index := Slot(data, now, true)],
       index := (b.index + 1) % |b.slots|,
       count := if b.count < |b.slots| then b.count + 1 else b.count)
  }

  /** The gap between the count and the waiting records grows exactly when a
      record overwrites one still waiting while the count is below capacity, and
      shrinks when a full count receives a record in a free slot. */
  lemma AddedPhantom(b: BufferState, data: AggregatedData, now: nat)
    requires WellFormed(b)
    ensures Phantom(Added(b, data, now)) ==
            Phantom(b) + (if b.slots[b.index].valid then 1 else 0) - (if b.count == |b.slots| then 1 else 0)
  {
    PendingUpdate(b.slots, 0, b.index, Slot(data, now, true));
  }

  lemma AddedSound(b: BufferState, data: AggregatedData, now: nat)
    requires Sound(b)
    ensures Sound(Added(b, data, now))
  {
    AddedPhantom(b, data, now);
  }

  // ---------------------------------------------------------------------------
  // processBuffer
  // ---------------------------------------------------------------------------

  /** What the loop of processBuffer leaves: the slots, the records delivered
      in order, and whether no request failed. */
  datatype Pass = Pass(slots: seq<Slot>, sent: seq<AggregatedData>, allSuccess: bool)

  /** The loop of processBuffer from slot i on, with `sent` delivered already:
      skip free slots, send each waiting record, free its slot on success, and
      stop at the first failure or once `count` records have gone out. */
  function Scan(slots: seq<Slot>, i: nat, count: nat, codes: seq<int>, sent: seq<AggregatedData>): (p: Pass)
    requires i <= |slots|
    ensures |p.slots| == |slots|
    ensures |sent| <= |p.sent| <= |sent| + |Pending(slots, i)| && p.sent[..|sent|] == sent
    ensures |sent| <= count ==> |p.sent| <= count
    decreases |slots| - i
  {
    if i == |slots| || |sent| >= count then Pass(slots, sent, true)
    else if !slots[i].valid then Scan(slots, i + 1, count, codes, sent)
    else if Answer(codes, |sent|) then
      var s := slots[i := slots[i].(valid := false)];
      PendingAgree(s, slots, i + 1);
      Scan(s, i + 1, count, codes, sent + [slots[i].data])
    else Pass(slots, sent, false)
  }

  /** The records a pass sends are the next waiting ones, in slot order. */
  lemma {:induction false} ScanSendsInOrder(slots: seq<Slot>, i: nat, count: nat, codes: seq<int>, sent: seq<AggregatedData>)
    requires i <= |slots|
    ensures var p := Scan(slots, i, count, codes, sent);
            p.sent == sent + Pending(slots, i)[..|p.sent| - |sent|]
    decreases |slots| - i
  {
    if i == |slots| || |sent| >= count {
    } else if !slots[i].valid {
      ScanSendsInOrder(slots, i + 1, count, codes, sent);
    } else if Answer(codes, |sent|) {
      var s := slots[i := slots[i].(valid := false)];
      var x := slots[i].data;
      PendingAgree(s, slots, i + 1);
      ScanSendsInOrder(s, i + 1, count, codes, sent + [x]);
      var n := |Scan(s, i + 1, count, codes, sent + [x]).sent| - |sent|;
      var rest := Pending(slots, i + 1);
      assert Pending(slots, i) == [x] + rest;
      assert ([x] + rest)[..n] == [x] + rest[..n - 1];
    }
  }

  /** Every request a pass makes succeeds except a last, failed one, which ends it. */
  lemma {:induction false} ScanAnswers(slots: seq<Slot>, i: nat, count: nat, codes: seq<int>, sent: seq<AggregatedData>)
    requires i <= |slots|
    ensures var p := Scan(slots, i, count, codes, sent);
            (forall k :: |sent| <= k < |p.sent| ==> Answer(codes, k)) &&
            (!p.allSuccess ==> !Answer(codes, |p.sent|))
    decreases |slots| - i
  {
    if i == |slots| || |sent| >= count {
    } else if !slots[i].valid {
      ScanAnswers(slots, i + 1, count, codes, sent);
    } else if Answer(codes, |sent|) {
      var s := slots[i := slots[i].(valid := false)];
      ScanAnswers(s, i + 1, count, codes, sent + [slots[i].data]);
    }
  }

  /** A pass reports success exactly when it sent all it set out to: the lesser
      of the remaining count and the records waiting. */
  lemma {:induction false} ScanReachesGoal(slots: seq<Slot>, i: nat, count: nat, codes: seq<int>, sent: seq<AggregatedData>)
    requires i <= |slots| && |sent| <= count
    ensures var p := Scan(slots, i, count, codes, sent);
            var goal := Min(count - |sent|, |Pending(slots, i)|);
            |p.sent| <= |sent| + goal && (p.allSuccess <==> |p.sent| == |sent| + goal)
    decreases |slots| - i
  {
    if i == |slots| || |sent| >= count {
    } else if !slots[i].valid {
      ScanReachesGoal(slots, i + 1, count, codes, sent);
    } else if Answer(codes, |sent|) {
      var s := slots[i := slots[i].(valid := false)];
      PendingAgree(s, slots, i + 1);
      ScanReachesGoal(s, i + 1, count, codes, sent + [slots[i].data]);
      assert |Pending(slots, i)| == 1 + |Pending(slots, i + 1)|;
    }
  }

  /** A pass leaves the slots before i untouched and only clears valid flags. */
  lemma {:induction false} ScanClearsFlags(slots: seq<Slot>, i: nat, count: nat, codes: seq<int>, sent: seq<AggregatedData>)
    requires i <= |slots|
    ensures var p := Scan(slots, i, count, codes, sent);
            (forall k :: 0 <= k < i ==> p.slots[k] == slots[k]) &&
            (forall k :: 0 <= k < |slots| ==>
               (p.slots[k].data == slots[k].data && p.slots[k].timestamp == slots[k].timestamp &&
                (p.slots[k].valid ==> slots[k].valid)))
    decreases |slots| - i
  {
    if i == |slots| || |sent| >= count {
    } else if !slots[i].valid {
      ScanClearsFlags(slots, i + 1, count, codes, sent);
    } else if Answer(codes, |sent|) {
      ScanClearsFlags(slots[i := slots[i].(valid := false)], i + 1, count, codes, sent + [slots[i].data]);
    }
  }

  /** After a pass the records still waiting are the unsent rest. */
  lemma {:induction false} ScanLeaves(slots: seq<Slot>, i: nat, count: nat, codes: seq<int>, sent: seq<AggregatedData>)
    requires i <= |slots|
    ensures var p := Scan(slots, i, count, codes, sent);
            Pending(p.slots, i) == Pending(slots, i)[|p.sent| - |sent|..]
    decreases |slots| - i
  {
    if i == |slots| || |sent| >= count {
    } else if !slots[i].valid {
      ScanLeaves(slots, i + 1, count, codes, sent);
      ScanClearsFlags(slots, i + 1, count, codes, sent);
      var p := Scan(slots, i + 1, count, codes, sent);
      assert p.slots[i] == slots[i];
      assert Pending(p.slots, i) == Pending(p.slots, i + 1);
    } else if Answer(codes, |sent|) {
      var s := slots[i := slots[i].(valid := false)];
      var x := slots[i].data;
      PendingAgree(s, slots, i + 1);
      ScanLeaves(s, i + 1, count, codes, sent + [x]);
      ScanClearsFlags(s, i + 1, count, codes, sent + [x]);
      var p := Scan(s, i + 1, count, codes, sent + [x]);
      assert p.slots[i] == s[i];
      assert Pending(p.slots, i) == Pending(p.slots, i + 1);
      var rest := Pending(slots, i + 1);
      var n := |p.sent| - |sent|;
      assert Pending(slots, i) == [x] + rest;
      assert ([x] + rest)[n..] == rest[n - 1..];
    }
  }

  /** The outcome of one processBuffer call. */
  datatype Flush = Flush(next: BufferState, sent: seq<AggregatedData>, allSuccess: bool)

  /** processBuffer: nothing to do when the count is zero or the link is down;
      otherwise one pass from slot 0, after which the count drops by the number sent. */
  function Processed(b: BufferState, connected: bool, codes: seq<int>): (f: Flush)
    requires WellFormed(b)
    ensures WellFormed(f.next) && |f.next.slots| == |b.slots| && f.next.index == b.index
  {
    if b.count == 0 || !connected then Flush(b, [], true)
    else
      var p := Scan(b.slots, 0, b.count, codes, []);
      Flush(BufferState(p.slots, b.index, b.count - |p.sent|), p.sent, p.allSuccess)
  }

  /** What processBuffer delivers: the oldest-positioned waiting records, in slot
      order, each by a successful request; it stops at the first failed request
      and reports success exactly when it sent all the count allowed and the slots held. */
  lemma ProcessDelivers(b: BufferState, connected: bool, codes: seq<int>)
    requires WellFormed(b)
    ensures var f := Processed(b, connected, codes);
            var waiting := Pending(b.slots, 0);
            ((b.count == 0 || !connected) ==> f == Flush(b, [], true)) &&
            f.sent == waiting[..|f.sent|] &&
            Pending(f.next.slots, 0) == waiting[|f.sent|..] &&
            f.next.count == b.count - |f.sent| &&
            (forall k :: 0 <= k < |f.sent| ==> Answer(codes, k)) &&
            (!f.allSuccess ==> !Answer(codes, |f.sent|)) &&
            (f.allSuccess <==> (b.count == 0 || !connected || |f.sent| == Min(b.count, |waiting|)))
  {
    if b.count != 0 && connected {
      ScanSendsInOrder(b.slots, 0, b.count, codes, []);
      ScanAnswers(b.slots, 0, b.count, codes, []);
      ScanReachesGoal(b.slots, 0, b.count, codes, []);
      ScanLeaves(b.slots, 0, b.count, codes, []);
    }
  }

  /** A pass leaves the phantom part of the count exactly as it was. */
  lemma ProcessPhantom(b: BufferState, connected: bool, codes: seq<int>)
    requires WellFormed(b)
    ensures Phantom(Processed(b, connected, codes).next) == Phantom(b)
  {
    ProcessDelivers(b, connected, codes);
  }

  lemma ProcessSound(b: BufferState, connected: bool, codes: seq<int>)
    requires Sound(b)
    ensures Sound(Processed(b, connected, codes).next)
  {
    ProcessPhantom(b, connected, codes);
  }

  /** With no record waiting but a positive count, processBuffer changes nothing
      and reports success, so the count never drains. */
  lemma ProcessStuck(b: BufferState, connected: bool, codes: seq<int>)
    requires WellFormed(b) && Pending(b.slots, 0) == []
    ensures Processed(b, connected, codes) == Flush(b, [], true)
  {
    ProcessDelivers(b, connected, codes);
    ScanClearsFlags(b.slots, 0, b.count, codes, []);
    var p := Scan(b.slots, 0, b.count, codes, []);
    forall k | 0 <= k < |b.slots|
      ensures p.slots[k] == b.slots[k]
    {
      if b.slots[k].valid {
        PendingValid(b.slots, 0, k);
      }
    }
  }

  lemma {:induction false} PendingValid(slots: seq<Slot>, i: nat, k: nat)
    requires i <= k < |slots| && slots[k].valid
    ensures Pending(slots, i) != []
    decreases k - i
  {
    if i < k && !slots[i].valid {
      PendingValid(slots, i + 1, k);
    }
  }

  // ---------------------------------------------------------------------------
  // The slot array of a client
  // ---------------------------------------------------------------------------

  /** The DataBuffer array, bufferIndex and bufferedCount of one client. */
  class SlotBuffer {
    const slots: array<Slot>
    const size: nat
    var index: nat
    var count: nat

    ghost function State(): BufferState
      reads this, slots
    {
      BufferState(slots[..], index, count)
    }

    ghost predicate Valid()
      reads this, slots
    {
      slots.Length == size && Sound(State())
    }

    /** The constructor's share: allocate the slots and mark each one free. */
    constructor (n: nat)
      requires n > 0
      ensures Valid() && fresh(slots) && size == n && State() == Empty(n)
    {
      var a := new Slot[n];
      for i := 0 to n
        invariant forall k :: 0 <= k < i ==> a[k] == EmptySlot()
      {
        a[i] := EmptySlot();
      }
      assert a[..] == Empty(n).slots;
      slots := a;
      size := n;
      index := 0;
      count := 0;
    }

    /** addToBuffer, with millis() as `now`. */
    method Add(data: AggregatedData, now: nat)
      requires Valid()
      modifies this`index, this`count, slots
      ensures Valid()
      ensures State() == Added(old(State()), data, now)
    {
      ghost var before := State();
      AddedSound(before, data, now);
      slots[index] := Slot(data, now, true);
      index := (index + 1) % size;
      if count < size {
        count := count + 1;
      }
      assert slots[..] == before.slots[before.index := Slot(data, now, true)];
    }

    /** processBuffer; `codes` answers its requests in order and `sent` is what it posted. */
    method Process(connected: bool, codes: seq<int>) returns (allSuccess: bool, sent: seq<AggregatedData>)
      requires Valid()
      modifies this`count, slots
      ensures Valid()
      ensures var f := Processed(old(State()), connected, codes);
              State() == f.next && allSuccess == f.allSuccess && sent == f.sent
    {
      ghost var before := State();
      ProcessSound(before, connected, codes);
      if count == 0 || !connected {
        return true, [];
      }
      allSuccess := true;
      sent := [];
      var processed := 0;
      var i := 0;
      while i < size && processed < count
        invariant 0 <= i <= size && processed == |sent|
        invariant count == before.count && index == before.index && allSuccess
        invariant Scan(before.slots, 0, count, codes, []) == Scan(slots[..], i, count, codes, sent)
        decreases size - i
      {
        if slots[i].valid {
          var ok := Answer(codes, processed);
          if ok {
            var x := slots[i].data;
            slots[i] := slots[i].(valid := false);
            sent := sent + [x];
            processed := processed + 1;
          } else {
            assert Scan(slots[..], i, count, codes, sent) == Pass(slots[..], sent, false);
            allSuccess := false;
            break;
          }
        }
        i := i + 1;
      }
      assert Scan(before.slots, 0, count, codes, []) == Pass(slots[..], sent, allSuccess);
      count := count - processed;
    }
  }

  // ---------------------------------------------------------------------------
  // A reachable phantom count
  // ---------------------------------------------------------------------------

  /** One addToBuffer per record, in order. */
  function AddAll(b: BufferState, ds: seq<AggregatedData>, now: nat): (r: BufferState)
    requires WellFormed(b)
    ensures WellFormed(r) && |r.slots| == |b.slots|
    decreases |ds|
  {
    if ds == [] then b else Added(AddAll(b, ds[..|ds| - 1], now), ds[|ds| - 1], now)
  }

  /** Adding k records to an empty ring fills slots 0..k-1 and counts k. */
  lemma {:induction false} FillEmpty(size: nat, ds: seq<AggregatedData>, now: nat)
    requires 0 < |ds| <= size
    ensures var r := AddAll(Empty(size), ds, now);
            r.count == |ds| && r.index == (if |ds| < size then |ds| else 0) &&
            forall k :: 0 <= k < size ==> r.slots[k].valid == (k < |ds|)
    decreases |ds|
  {
    var init := ds[..|ds| - 1];
    var prev := AddAll(Empty(size), init, now);
    if init != [] {
      FillEmpty(size, init, now);
    } else {
      assert prev == Empty(size);
    }
    assert prev.index == |init| && prev.count == |init|;
    assert forall k :: 0 <= k < size ==> prev.slots[k].valid == (k < |init|);
  }

  /** Two failed passes and two adds after a full ring leave a count of size
      with only size - 1 records waiting; once they are all delivered the count
      stays at 1 with nothing left to send. */
  lemma PhantomReachable(size: nat, ds: seq<AggregatedData>, d: AggregatedData, now: nat, codes: seq<int>)
    requires size >= 2 && |ds| == size
    requires |codes| >= size && forall k :: 0 <= k < |codes| ==> codes[k] == StatusOk
    ensures var full := AddAll(Empty(size), ds, now);
            var b1 := Processed(full, true, [StatusOk, 500]).next;
            var b2 := Added(b1, d, now);
            var b3 := Processed(b2, true, [StatusOk, 500]).next;
            var b4 := Added(b3, d, now);
            var b5 := Processed(b4, true, codes).next;
            b4.count == size && |Pending(b4.slots, 0)| == size - 1 &&
            b5.count == 1 && Pending(b5.slots, 0) == [] &&
            Processed(b5, true, codes) == Flush(b5, [], true)
  {
    var full := AddAll(Empty(size), ds, now);
    FillEmpty(size, ds, now);
    PendingAll(full.slots, 0);
    var fail := [StatusOk, 500];
    var b1 := Processed(full, true, fail).next;
    FirstSentSecondFails(full, fail);
    PendingUpdate(full.slots, 0, 0, full.slots[0].(valid := false));
    var b2 := Added(b1, d, now);
    AddedPhantom(b1, d, now);
    var b3 := Processed(b2, true, fail).next;
    FirstSentSecondFails(b2, fail);
    ProcessPhantom(b2, true, fail);
    var b4 := Added(b3, d, now);
    AddedPhantom(b3, d, now);
    var b5 := Processed(b4, true, codes).next;
    ProcessDelivers(b4, true, codes);
    ProcessPhantom(b4, true, codes);
    ProcessStuck(b5, true, codes);
  }

  /** A pass over a ring whose slots 0 and 1 both wait, answered "success, then
      failure", frees slot 0 only. */
  lemma FirstSentSecondFails(b: BufferState, codes: seq<int>)
    requires WellFormed(b) && |b.slots| >= 2 && b.count >= 2
    requires b.slots[0].valid && b.slots[1].valid
    requires codes == [StatusOk, 500]
    ensures var f := Processed(b, true, codes);
            f.next.slots == b.slots[0 := b.slots[0].(valid := false)] &&
            f.next.count == b.count - 1 && !f.allSuccess
  {
    var s := b.slots[0 := b.slots[0].(valid := false)];
    assert Answer(codes, 0) && !Answer(codes, 1);
    assert Scan(b.slots, 0, b.count, codes, []) == Scan(s, 1, b.count, codes, [] + [b.slots[0].data]);
    assert Scan(s, 1, b.count, codes, [b.slots[0].data]) == Pass(s, [b.slots[0].data], false);
  }

  // ---------------------------------------------------------------------------
  // The link: connection test, reconnection and status
  // ---------------------------------------------------------------------------

  /** The connection bookkeeping fields of a client. `hasHttpClient` stands for
      a non-null httpClient. */
  datatype Link = Link(
    initialized: bool,
    connected: bool,
    hasHttpClient: bool,
    lastConnectionTest: nat,
    lastRetryTime: nat,
    retryCount: nat)

  /** A link is connected only with an HTTP client; the clock values and the
      retry count fit their C types. */
  predicate LinkValid(l: Link) {
    (l.connected ==> l.hasHttpClient) &&
    l.lastConnectionTest < TimeModulus && l.lastRetryTime < TimeModulus && l.retryCount < RetryModulus
  }

  /** The result of a testConnection call: the new link and the value returned. */
  datatype Probed = Probed(link: Link, up: bool)

  /** testConnection: without an HTTP client it fails; within `interval` ms of
      the last test it answers the cached state; otherwise the health request's
      code decides, and a success resets the retry count. */
  function Probe(l: Link, now: nat, code: int, interval: nat): (r: Probed)
    requires LinkValid(l) && now < TimeModulus
    ensures LinkValid(r.link)
    ensures r.link.initialized == l.initialized && r.link.hasHttpClient == l.hasHttpClient
    ensures r.link.lastRetryTime == l.lastRetryTime
    ensures r.up == r.link.connected || (!l.hasHttpClient && !r.up && r.link == l)
    ensures Elapsed(now, l.lastConnectionTest) < interval ==> r.link == l
    ensures l.hasHttpClient && Elapsed(now, l.lastConnectionTest) >= interval ==>
              r.link.lastConnectionTest == now && (r.up <==> code == StatusOk)
    ensures r.up && !l.connected ==> r.link.retryCount == 0
  {
    if !l.hasHttpClient then Probed(l, false)
    else if Elapsed(now, l.lastConnectionTest) < interval then Probed(l, l.connected)
    else
      var up := code == StatusOk;
      Probed(l.(connected := up, lastConnectionTest := now, retryCount := if up then 0 else l.retryCount), up)
  }

  /** A client's link and buffer together. */
  datatype Uplink = Uplink(link: Link, buffer: BufferState)

  /** The answers one update() pass receives: the connection test's code and
      the codes of the two processBuffer passes it may make. */
  datatype Replies = Replies(probe: int, reconnectFlush: seq<int>, periodicFlush: seq<int>)

  /** The reconnection half of update(): once the backoff delay has passed since
      the last failed attempt, test the connection; flush the buffer on success,
      otherwise count the failure (modulo 2^16) and restart the delay. */
  function Reconnect(u: Uplink, now: nat, rs: Replies, interval: nat, base: nat): (r: Uplink)
    requires LinkValid(u.link) && WellFormed(u.buffer) && now < TimeModulus
    ensures LinkValid(r.link) && WellFormed(r.buffer) && |r.buffer.slots| == |u.buffer.slots|
  {
    if u.link.connected || Elapsed(now, u.link.lastRetryTime) <= Backoff(base, u.link.retryCount) then u
    else
      var p := Probe(u.link, now, rs.probe, interval);
      if p.up then Uplink(p.link, Processed(u.buffer, p.link.connected, rs.reconnectFlush).next)
      else Uplink(p.link.(retryCount := (p.link.retryCount + 1) % RetryModulus, lastRetryTime := now), u.buffer)
  }

  /** update(): nothing before begin(); otherwise the reconnection step, then a
      flush whenever the link is up and something is counted. */
  function Update(u: Uplink, now: nat, rs: Replies, interval: nat, base: nat): (r: Uplink)
    requires LinkValid(u.link) && WellFormed(u.buffer) && now < TimeModulus
    ensures LinkValid(r.link) && WellFormed(r.buffer) && |r.buffer.slots| == |u.buffer.slots|
  {
    if !u.link.initialized then u
    else
      var v := Reconnect(u, now, rs, interval, base);
      if v.link.connected && v.buffer.count > 0 then v.(buffer := Processed(v.buffer, true, rs.periodicFlush).next)
      else v
  }

  /** A disconnected client with its backoff delay still running leaves its link
      untouched and sends nothing. */
  lemma UpdateWaitsForBackoff(u: Uplink, now: nat, rs: Replies, interval: nat, base: nat)
    requires LinkValid(u.link) && WellFormed(u.buffer) && now < TimeModulus
    requires !u.link.connected && Elapsed(now, u.link.lastRetryTime) <= Backoff(base, u.link.retryCount)
    ensures Update(u, now, rs, interval, base) == u
  {
  }

  /** A reconnection attempt that fails counts one more retry, restarts the
      delay at now and leaves the buffer alone. */
  lemma UpdateCountsFailure(u: Uplink, now: nat, rs: Replies, interval: nat, base: nat)
    requires LinkValid(u.link) && WellFormed(u.buffer) && now < TimeModulus
    requires u.link.initialized && !u.link.connected
    requires Elapsed(now, u.link.lastRetryTime) > Backoff(base, u.link.retryCount)
    requires !Probe(u.link, now, rs.probe, interval).up
    ensures var r := Update(u, now, rs, interval, base);
            r.buffer == u.buffer && !r.link.connected && r.link.lastRetryTime == now &&
            r.link.retryCount == (u.link.retryCount + 1) % RetryModulus
  {
  }

  /** update() keeps the count honest. */
  lemma UpdateSound(u: Uplink, now: nat, rs: Replies, interval: nat, base: nat)
    requires LinkValid(u.link) && Sound(u.buffer) && now < TimeModulus
    ensures Sound(Update(u, now, rs, interval, base).buffer)
  {
    if u.link.initialized {
      if !(u.link.connected || Elapsed(now, u.link.lastRetryTime) <= Backoff(base, u.link.retryCount)) {
        var p := Probe(u.link, now, rs.probe, interval);
        if p.up {
          ProcessSound(u.buffer, p.link.connected, rs.reconnectFlush);
        }
      }
      var v := Reconnect(u, now, rs, interval, base);
      if v.link.connected && v.buffer.count > 0 {
        ProcessSound(v.buffer, true, rs.periodicFlush);
      }
    }
  }

  const NotInitializedText: string := "Not initialized"
  const ConnectedText: string := "Connected"
  const FailedText: string := "Failed (max retries exceeded)"

  /** getConnectionStatus. */
  function ConnectionStatus(initialized: bool, connected: bool, bufferedCount: nat,
                            retryCount: nat, maxRetries: nat): (s: string)
    ensures s == NotInitializedText <==> !initialized
    ensures s == ConnectedText <==> initialized && connected && bufferedCount == 0
    ensures s == FailedText <==> initialized && !connected && retryCount > maxRetries
    ensures initialized && connected && bufferedCount > 0 ==>
              s == "Connected (buffer: " + DecimalString(bufferedCount) + ")"
    ensures initialized && !connected && retryCount <= maxRetries ==>
              s == "Disconnected (retry " + DecimalString(retryCount) + "/" + DecimalString(maxRetries) + ")"
  {
    if !initialized then NotInitializedText
    else if connected then
      if bufferedCount > 0 then
        var s := "Connected (buffer: " + DecimalString(bufferedCount) + ")";
        assert s[0] == 'C' && |s| > |ConnectedText|;
        s
      else ConnectedText
    else if retryCount > maxRetries then FailedText
    else
      var s := "Disconnected (retry " + DecimalString(retryCount) + "/" + DecimalString(maxRetries) + ")";
      assert s[0] == 'D';
      s
  }

  /** The connected status text determines the buffered count. */
  lemma StatusShowsCount(c1: nat, c2: nat, retryCount: nat, maxRetries: nat)
    requires ConnectionStatus(true, true, c1, retryCount, maxRetries) ==
             ConnectionStatus(true, true, c2, retryCount, maxRetries)
    ensures c1 == c2
  {
    if c1 > 0 && c2 > 0 {
      var p := "Connected (buffer: ";
      var s1, s2 := DecimalString(c1), DecimalString(c2);
      assert p + s1 + ")" == p + s2 + ")";
      assert |s1| == |s2|;
      assert s1 == (p + s1 + ")")[|p|..|p| + |s1|];
      assert s2 == (p + s2 + ")")[|p|..|p| + |s2|];
      DecimalStringInjective(c1, c2);
    }
  }
}
