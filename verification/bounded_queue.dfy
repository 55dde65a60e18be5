// The C# byte-bounded queue. Its waits recompute the time that is left from the
// 32-bit tick counter, which wraps around every 49.7 days and is signed.
module BoundedQueue {
  import opened Bytes
  import Q = ByteQueue

  const INT32_MIN := -0x8000_0000
  const INT32_MAX := 0x7FFF_FFFF

  type int32 = x: int | INT32_MIN <= x <= INT32_MAX

  /** Unchecked 32-bit arithmetic. */
  function Wrap(x: int): int32 {
    (x - INT32_MIN) % 0x1_0000_0000 + INT32_MIN
  }

  /** The tick counter `elapsed` milliseconds after it read `start`. */
  function TickAfter(start: int32, elapsed: nat): int32 {
    Wrap(start + elapsed)
  }

  /** What the code computes as the remaining time. */
  function Remaining(start: int32, timeout: int32, elapsed: nat): int32 {
    Wrap(Wrap(start + timeout) - TickAfter(start, elapsed))
  }

  lemma WrapDiffers(x: int) returns (k: int)
    ensures Wrap(x) == x + k * 0x1_0000_0000
  {
    k := -((x - INT32_MIN) / 0x1_0000_0000);
  }

  lemma WrapIsUnique(x: int, y: int, k: int)
    requires x == y + k * 0x1_0000_0000 && INT32_MIN <= y <= INT32_MAX
    ensures Wrap(x) == y
  {
  }

  /** The recomputed time is the timeout minus the elapsed time, for any start tick, exactly while that fits 32 bits. */
  lemma RemainingIsExact(start: int32, timeout: int32, elapsed: nat)
    ensures Remaining(start, timeout, elapsed) == timeout - elapsed <==> INT32_MIN <= timeout - elapsed
  {
    var j := WrapDiffers(start + timeout);
    var k := WrapDiffers(start + elapsed);
    var raw := Wrap(start + timeout) - TickAfter(start, elapsed);
    assert raw == (timeout - elapsed) + (j - k) * 0x1_0000_0000;
    if INT32_MIN <= timeout - elapsed {
      WrapIsUnique(raw, timeout - elapsed, j - k);
    }
  }

  /** One wait: how long after the call it began, and how long it may last. */
  datatype Wait = Wait(at: nat, length: int32)

  /** One stretch of another thread under the lock. */
  datatype Section = Adds(data: bytes) | Takes | Completes

  /** How a wait ends: after `delay`, by a pulse or by its time running out, with what others did meanwhile. */
  datatype Wake = Wake(delay: nat, pulsed: bool, others: seq<Section>)

  /** Every wait is positive and, unless it began over 24 days late, ends at the one original deadline. */
  ghost predicate NeverExtended(waits: seq<Wait>, timeout: int32) {
    forall w | w in waits ::
      w.length > 0 && (INT32_MIN <= timeout - w.at ==> w.at + w.length == timeout)
  }

  /** The time since the call began when it has waited n times. */
  function Elapsed(lag: nat, wakes: seq<Wake>, n: nat): nat
    requires n <= |wakes|
  {
    if n == 0 then lag else Elapsed(lag, wakes, n - 1) + wakes[n - 1].delay
  }

  /** The waits follow each other, each after a pulse ended the one before. */
  predicate Waited(waits: seq<Wait>, lag: nat, wakes: seq<Wake>) {
    && |waits| <= |wakes| + 1
    && forall i | 0 <= i < |waits| :: waits[i].at == Elapsed(lag, wakes, i) && (i > 0 ==> wakes[i - 1].pulsed)
  }

  /** The last wait ended because its time ran out. */
  predicate RanOut(waits: seq<Wait>, wakes: seq<Wake>) {
    0 < |waits| <= |wakes| && !wakes[|waits| - 1].pulsed
  }

  /** A call that has waited so often looks at the clock when its time is up. */
  predicate IsLate(timeout: int32, waits: seq<Wait>, lag: nat, wakes: seq<Wake>) {
    |waits| <= |wakes| && timeout <= Elapsed(lag, wakes, |waits|)
  }

  /** One more wait, for what is left of the time. */
  lemma WaitsOnce(entry: int32, timeout: int32, waits: seq<Wait>, lag: nat, wakes: seq<Wake>)
    requires |waits| <= |wakes| && Waited(waits, lag, wakes) && NeverExtended(waits, timeout)
    requires waits != [] ==> wakes[|waits| - 1].pulsed
    ensures var now := Elapsed(lag, wakes, |waits|);
            var left := Remaining(entry, timeout, now);
            if left <= 0 then IsLate(timeout, waits, lag, wakes)
            else Waited(waits + [Wait(now, left)], lag, wakes) && NeverExtended(waits + [Wait(now, left)], timeout)
  {
    RemainingIsExact(entry, timeout, Elapsed(lag, wakes, |waits|));
  }

  class ByteBoundedQueue {
    const capacity: int
    var items: seq<bytes>
    var byteCount: int
    var completed: bool
    var peakBytes: int
    var backpressureEvents: nat

    ghost var enqueued: seq<bytes>
    ghost var dequeued: seq<bytes>
    ghost var foreignAdds: nat     // how many of these the other threads did
    ghost var foreignTakes: nat

    ghost predicate Valid()
      reads this
    {
      && enqueued == dequeued + items
      && byteCount == Q.Total(items) && (items != [] ==> byteCount <= capacity)
      && byteCount <= peakBytes && (peakBytes > 0 ==> peakBytes <= capacity)
    }

    constructor (capacity: int)
      ensures Valid() && this.capacity == capacity && enqueued == [] && dequeued == [] && !completed
      ensures foreignAdds == 0 && foreignTakes == 0
    {
      this.capacity := capacity;
      items, byteCount, completed, peakBytes, backpressureEvents := [], 0, false, 0, 0;
      enqueued, dequeued, foreignAdds, foreignTakes := [], [], 0, 0;
    }

    /** What this thread added and took. */
    ghost function OwnAdds(): int reads this { |enqueued| - foreignAdds }

    ghost function OwnTakes(): int reads this { |dequeued| - foreignTakes }

    /** The end of a successful TryEnqueue, still under the lock. */
    method Add(data: bytes)
      requires Valid() && !completed && data != [] && byteCount + |data| <= capacity
      modifies this`items, this`byteCount, this`peakBytes, this`enqueued
      ensures Valid() && completed == old(completed)
      ensures items == old(items) + [data] && enqueued == old(enqueued) + [data] && dequeued == old(dequeued)
    {
      Q.TotalSnoc(items, data);
      Assoc(dequeued, items, [data]);
      items := items + [data];
      byteCount := byteCount + |data|;
      if byteCount > peakBytes { peakBytes := byteCount; }
      enqueued := enqueued + [data];
    }

    /** What the queue can undergo while one call waits without the lock. */
    method LetOthersRun(sections: seq<Section>)
      requires Valid()
      modifies this`items, this`byteCount, this`completed, this`peakBytes, this`enqueued, this`dequeued,
               this`foreignAdds, this`foreignTakes
      ensures Valid() && old(enqueued) <= enqueued && old(dequeued) <= dequeued
      ensures old(completed) ==> completed && enqueued == old(enqueued)
      ensures OwnAdds() == old(OwnAdds()) && OwnTakes() == old(OwnTakes())
    {
      for i := 0 to |sections|
        invariant Valid() && old(enqueued) <= enqueued && old(dequeued) <= dequeued
        invariant old(completed) ==> completed && enqueued == old(enqueued)
        invariant OwnAdds() == old(OwnAdds()) && OwnTakes() == old(OwnTakes())
      {
        match sections[i] {
          case Adds(data) =>
            if !completed && data != [] && byteCount + |data| <= capacity {
              Add(data);
              foreignAdds := foreignAdds + 1;
            }
          case Takes =>
            if items != [] {
              var _ := TakeFirst();
              foreignTakes := foreignTakes + 1;
            }
          case Completes => completed := true;
        }
      }
    }

    method TakeFirst() returns (item: bytes)
      requires Valid() && items != []
      modifies this`items, this`byteCount, this`dequeued
      ensures Valid() && completed == old(completed) && enqueued == old(enqueued)
      ensures item == old(items)[0] && items == old(items)[1..] && dequeued == old(dequeued) + [item]
    {
      item := items[0];
      assert items == [item] + items[1..];
      Assoc(dequeued, [item], items[1..]);
      items := items[1..];
      byteCount := byteCount - |item|;
      dequeued := dequeued + [item];
    }

    /** The loop of TryEnqueue: wait until there is room, the queue is completed or the time is up. */
    method WaitForRoom(data: bytes, backpressureMs: int32, entry: int32, lag: nat, wakes: seq<Wake>)
      returns (over: Option<bool>, waits: seq<Wait>)
      requires Valid()
      modifies this
      ensures Valid() && old(enqueued) <= enqueued && old(dequeued) <= dequeued
      ensures OwnAdds() == old(OwnAdds()) && OwnTakes() == old(OwnTakes())
      ensures old(backpressureEvents) + |waits| <= backpressureEvents <= old(backpressureEvents) + |waits| + 1
      ensures over == Some(true) ==> backpressureEvents == old(backpressureEvents) + |waits|
      ensures over == Some(true) ==> completed || byteCount + |data| <= capacity
      ensures over == Some(false) ==>
                || RanOut(waits, wakes)
                || (!completed && byteCount + |data| > capacity && IsLate(backpressureMs, waits, lag, wakes))
      ensures over.None? ==> |waits| == |wakes| + 1 && !completed && byteCount + |data| > capacity
      ensures old(completed) || old(byteCount) + |data| <= capacity ==>
                && over == Some(true) && waits == [] && items == old(items) && enqueued == old(enqueued)
                && completed == old(completed) && byteCount == old(byteCount)
      ensures Waited(waits, lag, wakes) && NeverExtended(waits, backpressureMs)
    {
      waits := [];
      ghost var passes := completed || byteCount + |data| <= capacity;
      var deadline := Wrap(entry + backpressureMs);
      var elapsed: nat, i := lag, 0;
      while !completed && byteCount + |data| > capacity
        invariant Valid() && old(enqueued) <= enqueued && old(dequeued) <= dequeued
        invariant i == |waits| <= |wakes| && elapsed == Elapsed(lag, wakes, i)
        invariant i > 0 ==> wakes[i - 1].pulsed
        invariant Waited(waits, lag, wakes) && NeverExtended(waits, backpressureMs)
        invariant passes ==> i == 0 && items == old(items) && enqueued == old(enqueued)
        invariant passes ==> completed == old(completed) && byteCount == old(byteCount)
        invariant OwnAdds() == old(OwnAdds()) && OwnTakes() == old(OwnTakes())
        invariant backpressureEvents == old(backpressureEvents) + |waits|
        decreases |wakes| - i
      {
        backpressureEvents := backpressureEvents + 1;
        assert !passes;
        var remaining := Wrap(deadline - TickAfter(entry, elapsed));
        WaitsOnce(entry, backpressureMs, waits, lag, wakes);
        if remaining <= 0 { return Some(false), waits; }
        waits := waits + [Wait(elapsed, remaining)];
        if i >= |wakes| { return None, waits; }
        LetOthersRun(wakes[i].others);
        elapsed := elapsed + wakes[i].delay;
        if !wakes[i].pulsed { return Some(false), waits; }
        i := i + 1;
      }
      over := Some(true);
    }

    /**
     * TryEnqueue, called when the tick counter reads `entry`; None means the observed run ends while it
     * still waits. `lag` passes between computing the deadline and first looking at it.
     */
    method TryEnqueue(data: bytes, backpressureMs: int32, entry: int32, lag: nat, wakes: seq<Wake>)
      returns (taken: Option<bool>, waits: seq<Wait>)
      requires Valid()
      modifies this
      ensures Valid() && old(enqueued) <= enqueued && old(dequeued) <= dequeued
      ensures OwnAdds() == old(OwnAdds()) + (if taken == Some(true) then 1 else 0) && OwnTakes() == old(OwnTakes())
      ensures old(backpressureEvents) + |waits| <= backpressureEvents <= old(backpressureEvents) + |waits| + 1
      ensures taken == Some(true) ==> backpressureEvents == old(backpressureEvents) + |waits|
      ensures taken == Some(true) ==> old(enqueued) < enqueued && enqueued[|enqueued| - 1] == data && !completed
      ensures old(completed) || data == [] || |data| > capacity ==> taken == Some(false) && enqueued == old(enqueued)
      ensures !old(completed) && data != [] && old(byteCount) + |data| <= capacity ==>
                taken == Some(true) && waits == [] && items == old(items) + [data]
      ensures taken == Some(false) ==>
                || completed || data == [] || |data| > capacity || RanOut(waits, wakes)
                || (byteCount + |data| > capacity && IsLate(backpressureMs, waits, lag, wakes))
      ensures taken.None? ==> |waits| == |wakes| + 1 && !completed && byteCount + |data| > capacity
      ensures Waited(waits, lag, wakes) && NeverExtended(waits, backpressureMs)
    {
      if completed || data == [] || |data| > capacity { return Some(false), []; }
      taken, waits := WaitForRoom(data, backpressureMs, entry, lag, wakes);
      if taken != Some(true) { return; }
      if completed { return Some(false), waits; }
      Add(data);
    }

    /** Dequeue; the outer None means the observed run ends while it still waits, the inner one is null. */
    method Dequeue(timeoutMs: int32, entry: int32, lag: nat, wakes: seq<Wake>)
      returns (result: Option<Option<bytes>>, waits: seq<Wait>)
      requires Valid()
      modifies this
      ensures Valid() && old(enqueued) <= enqueued && old(dequeued) <= dequeued
      ensures OwnTakes() == old(OwnTakes()) + (match result case Some(Some(_)) => 1 case _ => 0)
      ensures OwnAdds() == old(OwnAdds())
      ensures match result
              case Some(Some(item)) =>
                old(dequeued) < dequeued && dequeued[|dequeued| - 1] == item && item == enqueued[|dequeued| - 1]
              case _ => old(items) == []
      ensures old(items) != [] ==>
                result == Some(Some(old(items)[0])) && waits == [] && items == old(items)[1..]
      ensures result == Some(None) ==>
                || RanOut(waits, wakes)
                || (items == [] && (completed || IsLate(timeoutMs, waits, lag, wakes)))
      ensures result.None? ==> |waits| == |wakes| + 1 && !completed && items == []
      ensures Waited(waits, lag, wakes) && NeverExtended(waits, timeoutMs)
    {
      waits := [];
      ghost var filled := items != [];
      var deadline := Wrap(entry + timeoutMs);
      var elapsed: nat, i := lag, 0;
      while items == [] && !completed
        invariant Valid() && old(enqueued) <= enqueued && old(dequeued) <= dequeued
        invariant i == |waits| <= |wakes| && elapsed == Elapsed(lag, wakes, i)
        invariant i > 0 ==> wakes[i - 1].pulsed
        invariant filled ==> i == 0 && items == old(items) && dequeued == old(dequeued)
        invariant Waited(waits, lag, wakes) && NeverExtended(waits, timeoutMs)
        invariant OwnAdds() == old(OwnAdds()) && OwnTakes() == old(OwnTakes())
        decreases |wakes| - i
      {
        var remaining := Wrap(deadline - TickAfter(entry, elapsed));
        WaitsOnce(entry, timeoutMs, waits, lag, wakes);
        if remaining <= 0 { return Some(None), waits; }
        waits := waits + [Wait(elapsed, remaining)];
        if i >= |wakes| { return None, waits; }
        LetOthersRun(wakes[i].others);
        elapsed := elapsed + wakes[i].delay;
        if !wakes[i].pulsed { return Some(None), waits; }
        i := i + 1;
      }
      if items == [] { return Some(None), waits; }
      var item := TakeFirst();
      result := Some(Some(item));
    }

    method Complete()
      requires Valid()
      modifies this`completed
      ensures Valid() && completed
    {
      completed := true;
    }
  }
}
