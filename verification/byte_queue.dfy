// The bounded media queue between the SDK callback and FFmpeg's standard input,
// and the pump thread that empties it through partial pipe writes. Every method
// of ByteQueue is one stretch under its mutex; a producer that waits for room
// gives the mutex up, so its push is a sequence of such stretches.
module ByteQueue {
  import opened Bytes

  function Total(items: seq<bytes>): nat {
    if items == [] then 0 else |items[0]| + Total(items[1..])
  }

  lemma {:induction false} TotalConcat(a: seq<bytes>, b: seq<bytes>)
    ensures Total(a + b) == Total(a) + Total(b)
  {
    if a == [] {
      assert a + b == b;
    } else {
      assert (a + b)[1..] == a[1..] + b;
      TotalConcat(a[1..], b);
    }
  }

  lemma TotalSnoc(a: seq<bytes>, x: bytes)
    ensures Total(a + [x]) == Total(a) + |x|
  {
    TotalConcat(a, [x]);
  }

  function Highest(levels: seq<nat>): nat {
    if levels == [] then 0
    else
      var before := Highest(levels[..|levels| - 1]);
      var last := levels[|levels| - 1];
      if last > before then last else before
  }

  lemma HighestNext(levels: seq<nat>, level: nat)
    ensures Highest(levels + [level]) == if level > Highest(levels) then level else Highest(levels)
  {
    assert (levels + [level])[..|levels|] == levels;
  }

  /** Highest is an upper bound that is attained (or zero when nothing was ever queued). */
  lemma {:induction false} HighestIsMaximum(levels: seq<nat>)
    ensures forall i | 0 <= i < |levels| :: levels[i] <= Highest(levels)
    ensures Highest(levels) == 0 || Highest(levels) in levels
  {
    if levels != [] {
      var n := |levels| - 1;
      HighestIsMaximum(levels[..n]);
      assert forall i | 0 <= i < n :: levels[i] == levels[..n][i];
      assert forall x | x in levels[..n] :: x in levels;
    }
  }

  datatype PushResult = Accepted | Rejected | Waiting

  class ByteQueue {
    const limit: nat
    var items: seq<bytes>
    var byteCount: nat
    var peakBytes: nat
    var backpressureEvents: nat
    var closed: bool

    ghost var accepted: seq<bytes>   // every packet taken in, in order
    ghost var popped: seq<bytes>     // every packet handed out, in order
    ghost var levels: seq<nat>       // the byte count after every change

    ghost predicate Valid()
      reads this
    {
      && accepted == popped + items
      && byteCount == Total(items) <= limit
      && peakBytes == Highest(levels)
      && byteCount <= peakBytes <= limit
      && forall i | 0 <= i < |items| :: items[i] != []
    }

    constructor (limit: nat)
      ensures Valid() && this.limit == limit && accepted == [] && popped == [] && !closed
    {
      this.limit := limit;
      items, byteCount, peakBytes, backpressureEvents, closed := [], 0, 0, 0, false;
      accepted, popped, levels := [], [], [];
    }

    method Append(data: bytes)
      requires Valid() && !closed && data != [] && byteCount + |data| <= limit
      modifies this
      ensures Valid() && !closed && backpressureEvents == old(backpressureEvents)
      ensures items == old(items) + [data] && accepted == old(accepted) + [data] && popped == old(popped)
    {
      TotalSnoc(items, data);
      Assoc(popped, items, [data]);
      byteCount := byteCount + |data|;
      peakBytes := if byteCount > peakBytes then byteCount else peakBytes;
      items := items + [data];
      HighestNext(levels, byteCount);
      accepted, levels := accepted + [data], levels + [byteCount];
    }

    /** A push up to its first wait. `expired` says the deadline has passed already. */
    method Push(data: bytes, expired: bool) returns (result: PushResult)
      requires Valid()
      modifies this
      ensures Valid() && closed == old(closed) && popped == old(popped)
      ensures result == if old(closed) || data == [] || |data| > limit then Rejected
                        else if old(byteCount) + |data| <= limit then Accepted
                        else if expired then Rejected else Waiting
      ensures accepted == if result == Accepted then old(accepted) + [data] else old(accepted)
      ensures items == if result == Accepted then old(items) + [data] else old(items)
      ensures backpressureEvents == old(backpressureEvents) +
              if !old(closed) && 0 < |data| <= limit < old(byteCount) + |data| then 1 else 0
    {
      if closed || data == [] || |data| > limit { return Rejected; }
      if byteCount + |data| > limit {
        backpressureEvents := backpressureEvents + 1;
        return if expired then Rejected else Waiting;
      }
      Append(data);
      result := Accepted;
    }

    /** A waiting push that got the mutex back, by notification, spuriously or because its time ran out. */
    method Resume(data: bytes, expired: bool) returns (result: PushResult)
      requires Valid() && data != []
      modifies this
      ensures Valid() && closed == old(closed) && popped == old(popped)
      ensures result == if old(closed) then Rejected
                        else if old(byteCount) + |data| <= limit then Accepted
                        else if expired then Rejected else Waiting
      ensures accepted == if result == Accepted then old(accepted) + [data] else old(accepted)
      ensures items == if result == Accepted then old(items) + [data] else old(items)
    {
      if closed { return Rejected; }
      if byteCount + |data| > limit { return if expired then Rejected else Waiting; }
      Append(data);
      result := Accepted;
    }

    /** `pop`: the oldest packet, or nothing if the wait ended without one. */
    method Pop() returns (data: Option<bytes>)
      requires Valid()
      modifies this
      ensures Valid() && closed == old(closed) && accepted == old(accepted)
      ensures old(items) == [] ==> data == None && items == [] && popped == old(popped)
      ensures old(items) != [] ==>
                data == Some(old(items)[0]) && items == old(items)[1..] && popped == old(popped) + [old(items)[0]]
    {
      if items == [] { return None; }
      var first := items[0];
      assert items == [first] + items[1..];
      Assoc(popped, [first], items[1..]);
      data := Some(first);
      byteCount := byteCount - |first|;
      items := items[1..];
      HighestNext(levels, byteCount);
      popped, levels := popped + [first], levels + [byteCount];
    }

    /** `closed()`: closed and drained. */
    method IsDrained() returns (drained: bool)
      ensures drained == (closed && items == [])
    {
      drained := closed && items == [];
    }

    method Close()
      requires Valid()
      modifies this`closed
      ensures Valid() && closed
    {
      closed := true;
    }
  }

  // ---------------------------------------------------- the other threads

  /** One mutex stretch of another thread. */
  datatype Section = PushOf(data: bytes, expired: bool) | ResumeOf(data: bytes, expired: bool) | CloseOf

  /** Any number of stretches of other threads: packets only get added, and none once the queue is closed. */
  method Others(queue: ByteQueue, sections: seq<Section>)
    requires queue.Valid()
    modifies queue
    ensures queue.Valid() && queue.popped == old(queue.popped)
    ensures old(queue.accepted) <= queue.accepted
    ensures old(queue.closed) ==>
              queue.closed && queue.accepted == old(queue.accepted) && queue.items == old(queue.items)
    ensures CloseOf !in sections ==> queue.closed == old(queue.closed)
  {
    for i := 0 to |sections|
      invariant queue.Valid() && queue.popped == old(queue.popped)
      invariant old(queue.accepted) <= queue.accepted
      invariant old(queue.closed) ==>
                  queue.closed && queue.accepted == old(queue.accepted) && queue.items == old(queue.items)
      invariant CloseOf !in sections ==> queue.closed == old(queue.closed)
    {
      match sections[i] {
        case PushOf(data, expired) => var _ := queue.Push(data, expired);
        case ResumeOf(data, expired) => if data != [] { var _ := queue.Resume(data, expired); }
        case CloseOf => queue.Close();
      }
    }
  }

  // -------------------------------------------------------------- the pump

  datatype WriteTurn = Wrote(count: nat) | Signal | Failed

  /** What the pipe offers to take in these writes. */
  function Offered(turns: seq<WriteTurn>): nat {
    if turns == [] then 0
    else
      var last := turns[|turns| - 1];
      Offered(turns[..|turns| - 1]) + if last.Wrote? then last.count else 0
  }

  lemma {:induction false} OfferedGrows(turns: seq<WriteTurn>, i: nat, j: nat)
    requires i <= j <= |turns|
    ensures Offered(turns[..i]) <= Offered(turns[..j])
    decreases j
  {
    if i < j {
      assert turns[..j][..j - 1] == turns[..j - 1];
      OfferedGrows(turns, i, j - 1);
    }
  }

  /** Write i breaks the pipe before all of `size` bytes were taken. */
  predicate Breaks(turns: seq<WriteTurn>, size: nat, i: nat) {
    i < |turns| && turns[i] in {Failed, Wrote(0)} && Offered(turns[..i]) < size
  }

  predicate Broken(turns: seq<WriteTurn>, size: nat) { exists i | 0 <= i < |turns| :: Breaks(turns, size, i) }

  datatype EndReason = Active | SdkDataTimeout

  /** Why the pump left its loop. Cut means the observed run ends before it does. */
  datatype Exit = Stopped | Drained | NoData | WriteFailed | Cut

  /** What happens around one turn of the pump: other threads, the stop request, the clock after the pop, the pipe. */
  datatype Turn = Turn(
    before: seq<Section>, stopBefore: bool,
    afterPop: seq<Section>, stopAfterPop: bool,
    now: int, writes: seq<WriteTurn>)

  /** When data last came before turn n, if the first `n` turns got a packet or not as told. */
  function LastData(started: int, turns: seq<Turn>, got: seq<bool>, n: nat): int
    requires n <= |got| <= |turns|
  {
    if n == 0 then started else if got[n - 1] then turns[n - 1].now else LastData(started, turns, got, n - 1)
  }

  /** How many of these turns got a packet. */
  function Packets(got: seq<bool>): nat {
    if got == [] then 0 else Packets(got[..|got| - 1]) + if got[|got| - 1] then 1 else 0
  }

  lemma {:induction false} LastDataKept(started: int, turns: seq<Turn>, got: seq<bool>, more: bool, n: nat)
    requires n <= |got| < |turns|
    ensures LastData(started, turns, got + [more], n) == LastData(started, turns, got, n)
    decreases n
  {
    if n > 0 { LastDataKept(started, turns, got, more, n - 1); }
  }

  /** No packet in turn i, and data came less than `limit` before. */
  predicate Gap(started: int, limit: nat, turns: seq<Turn>, got: seq<bool>, i: nat)
    requires i < |got| <= |turns|
  {
    !got[i] && turns[i].now - LastData(started, turns, got, i) < limit
  }

  /** The first n turns found a packet, or data had come lately. */
  predicate WentOn(started: int, limit: nat, turns: seq<Turn>, got: seq<bool>, n: nat)
    requires n <= |got| <= |turns|
  {
    forall i | 0 <= i < n :: got[i] || Gap(started, limit, turns, got, i)
  }

  /** A pump leaves in its last turn and only then, for want of data when the time is up, or at a broken write. */
  predicate Explained(exit: Exit, started: int, limit: nat, turns: seq<Turn>, got: seq<bool>, size: nat) {
    && |got| <= |turns|
    && if exit == Cut then WentOn(started, limit, turns, got, |got|)
       else
         && got != []
         && WentOn(started, limit, turns, got, |got| - 1)
         && match exit {
           case Stopped => !got[|got| - 1]
           case Drained => !got[|got| - 1]
           case NoData => !got[|got| - 1] && !Gap(started, limit, turns, got, |got| - 1)
           case WriteFailed => got[|got| - 1] && Broken(turns[|got| - 1].writes, size)
         }
  }

  lemma ExplainedNext(
    exit: Exit, started: int, limit: nat, turns: seq<Turn>, got: seq<bool>, before: nat, more: bool, size: nat)
    requires |got| < |turns| && Explained(Cut, started, limit, turns, got, before)
    requires var now := turns[|got|].now; var late := now - LastData(started, turns, got, |got|) >= limit;
      match exit {
        case Cut => more || !late
        case NoData => !more && late
        case WriteFailed => more && Broken(turns[|got|].writes, size)
        case _ => !more
      }
    ensures Explained(exit, started, limit, turns, got + [more], size)
    ensures Packets(got + [more]) == Packets(got) + if more then 1 else 0
    ensures LastData(started, turns, got + [more], |got| + 1) ==
            if more then turns[|got|].now else LastData(started, turns, got, |got|)
  {
    var all := got + [more];
    assert all[..|got|] == got;
    forall i | 0 <= i <= |got| ensures LastData(started, turns, all, i) == LastData(started, turns, got, i) {
      LastDataKept(started, turns, got, more, i);
    }
    forall i | 0 <= i < |got| && !all[i] ensures Gap(started, limit, turns, all, i) {
      assert Gap(started, limit, turns, got, i);
    }
  }

  /** A turn in which nobody asks to stop or closes the queue, the pipe holds and the time is not up. */
  predicate Quiet(turn: Turn, started: int, limit: nat) {
    && !turn.stopBefore && !turn.stopAfterPop && CloseOf !in turn.before + turn.afterPop
    && started <= turn.now < started + limit
    && Failed !in turn.writes && Wrote(0) !in turn.writes
  }

  predicate AllQuiet(turns: seq<Turn>, started: int, limit: nat) {
    forall i | 0 <= i < |turns| :: Quiet(turns[i], started, limit)
  }

  lemma QuietGoesOn(turn: Turn, started: int, limit: nat, lastData: int, size: nat)
    requires Quiet(turn, started, limit) && started <= lastData
    ensures turn.now - lastData < limit && started <= turn.now && !Broken(turn.writes, size)
  {
  }

  class Pump {
    const noDataLimit: nat
    var sink: bytes           // bytes FFmpeg's pipe accepted, in order
    var inputOpen: bool
    var stopRequested: bool
    var endReason: EndReason

    constructor (noDataLimit: nat)
      ensures this.noDataLimit == noDataLimit
      ensures sink == [] && inputOpen && !stopRequested && endReason == Active
    {
      this.noDataLimit := noDataLimit;
      sink, inputOpen, stopRequested, endReason := [], true, false, Active;
    }

    /**
     * `write_input`: partial writes until all is written; an interrupted write is repeated. A write that `turns` says
     * nothing about takes all that is left.
     */
    method WriteInput(data: bytes, turns: seq<WriteTurn>) returns (ok: bool, ghost written: nat)
      modifies this`sink
      ensures written <= |data| && sink == old(sink) + data[..written]
      ensures ok <==> written == |data|
      ensures ok <==> !Broken(turns, |data|)
    {
      var left, i := data, 0;
      written := 0;
      while |left| > 0
        invariant written <= |data| && left == data[written..] && i <= |turns|
        invariant sink == old(sink) + data[..written]
        invariant forall j | 0 <= j < i :: turns[j] !in {Failed, Wrote(0)}
        invariant if left == [] then i == |turns| || Offered(turns[..i]) >= |data| else Offered(turns[..i]) == written
        decreases |turns| - i, |left|
      {
        if i == |turns| {
          sink := sink + left;
          assert data == data[..written] + left;
          written, left := |data|, [];
          continue;
        }
        if turns[i] == Failed || turns[i] == Wrote(0) {
          assert Breaks(turns, |data|, i);
          return false, written;
        }
        assert turns[..i + 1][..i] == turns[..i];
        if turns[i].Wrote? {
          var n := if turns[i].count < |left| then turns[i].count else |left|;
          sink := sink + left[..n];
          left := left[n..];
          assert data[..written] + data[written..written + n] == data[..written + n];
          written := written + n;
        }
        i := i + 1;
      }
      forall j | i <= j < |turns| ensures !Breaks(turns, |data|, j) { OfferedGrows(turns, i, j); }
      ok := true;
    }

    /** The pump has written every packet popped since `start`, but for `lost` bytes of the last one. */
    ghost predicate HasWritten(queue: ByteQueue, start: nat, lost: nat)
      reads this`sink, queue`popped
    {
      && start <= |queue.popped|
      && var all := Join(queue.popped[start..]);
         lost <= |all| && sink == all[..|all| - lost]
    }

    /** The size of the packet popped last. */
    ghost function LastSize(queue: ByteQueue): nat
      reads queue`popped
    {
      if queue.popped == [] then 0 else |queue.popped[|queue.popped| - 1]|
    }

    /** One packet through the pipe. */
    method PumpOne(queue: ByteQueue, ghost start: nat, turns: seq<WriteTurn>)
      returns (got: bool, ok: bool, ghost lost: nat)
      requires queue.Valid() && HasWritten(queue, start, 0)
      modifies this`sink, queue
      ensures queue.Valid() && queue.closed == old(queue.closed) && queue.accepted == old(queue.accepted)
      ensures !got ==> ok && old(queue.items) == [] && queue.items == [] && queue.popped == old(queue.popped)
      ensures got ==>
                && old(queue.items) != [] && queue.popped == old(queue.popped) + [old(queue.items)[0]]
                && (ok <==> !Broken(turns, |old(queue.items)[0]|))
      ensures HasWritten(queue, start, lost) && (ok <==> lost == 0)
    {
      var packet := queue.Pop();
      if packet.None? { return false, true, 0; }
      ghost var before := old(queue.popped[start..]);
      assert queue.popped[start..] == before + [packet.value];
      JoinSnoc(before, packet.value);
      ghost var n;
      ok, n := WriteInput(packet.value, turns);
      lost := |packet.value| - n;
      ghost var all := Join(queue.popped[start..]);
      assert all[..|all| - lost] == Join(before) + packet.value[..n];
      got := true;
    }

    /** One turn of the pump's loop: None means it goes on. */
    method TurnOnce(queue: ByteQueue, ghost start: nat, turn: Turn, lastData: int)
      returns (exit: Option<Exit>, got: bool, ghost lost: nat)
      requires queue.Valid() && HasWritten(queue, start, 0)
      modifies this`sink, this`stopRequested, this`endReason, queue
      ensures queue.Valid() && HasWritten(queue, start, lost)
      ensures old(queue.items) != [] && exit != Some(Stopped) ==> got
      ensures |queue.popped| == |old(queue.popped)| + if got then 1 else 0
      ensures lost > 0 <==> exit == Some(WriteFailed)
      ensures exit == Some(WriteFailed) <==> got && Broken(turn.writes, LastSize(queue))
      ensures stopRequested ==> old(stopRequested) || turn.stopBefore || turn.stopAfterPop
      ensures old(stopRequested) || turn.stopBefore ==> stopRequested && !got
      ensures exit == Some(Stopped) <==> stopRequested && !got
      ensures exit == Some(Drained) <==> !stopRequested && !got && queue.closed && queue.items == []
      ensures exit == Some(NoData) <==>
                !stopRequested && !got && !(queue.closed && queue.items == []) && turn.now - lastData >= noDataLimit
      ensures exit != Some(Cut)
      ensures endReason == if exit == Some(NoData) then SdkDataTimeout else old(endReason)
      ensures CloseOf !in turn.before + turn.afterPop ==> queue.closed == old(queue.closed)
    {
      Others(queue, turn.before);
      stopRequested := stopRequested || turn.stopBefore;
      if stopRequested { return Some(Stopped), false, 0; }
      var ok;
      got, ok, lost := PumpOne(queue, start, turn.writes);
      Others(queue, turn.afterPop);
      stopRequested := stopRequested || turn.stopAfterPop;
      if !got {
        var drained := queue.IsDrained();
        if stopRequested { return Some(Stopped), got, 0; }
        if drained { return Some(Drained), got, 0; }
        if turn.now - lastData < noDataLimit { return None, got, 0; }
        endReason := SdkDataTimeout;
        return Some(NoData), got, 0;
      }
      exit := if ok then None else Some(WriteFailed);
    }

    /** The pump's loop, from the first packet that no earlier pump popped. */
    method Loop(queue: ByteQueue, ghost start: nat, started: int, turns: seq<Turn>)
      returns (exit: Exit, ghost lost: nat, ghost got: seq<bool>)
      requires queue.Valid() && HasWritten(queue, start, 0) && |queue.popped| == start && endReason == Active
      modifies this`sink, this`stopRequested, this`endReason, queue
      ensures queue.Valid() && HasWritten(queue, start, lost)
      ensures lost > 0 <==> exit == WriteFailed
      ensures exit == Cut ==> |got| == |turns|
      ensures |queue.popped| == start + Packets(got)
      ensures Explained(exit, started, noDataLimit, turns, got, LastSize(queue))
      ensures exit == Drained ==> queue.closed && queue.items == []
      ensures exit == Stopped ==> stopRequested
      ensures endReason == if exit == NoData then SdkDataTimeout else Active
      ensures AllQuiet(turns, started, noDataLimit) && !old(queue.closed) && !old(stopRequested) ==> exit == Cut
    {
      ghost var quiet := AllQuiet(turns, started, noDataLimit) && !queue.closed && !stopRequested;
      exit, lost, got := Cut, 0, [];
      var i, lastData := 0, started;
      while i < |turns| && exit == Cut
        invariant queue.Valid() && HasWritten(queue, start, lost)
        invariant lost > 0 <==> exit == WriteFailed
        invariant exit == Drained ==> queue.closed && queue.items == []
        invariant exit == Stopped ==> stopRequested
        invariant endReason == if exit == NoData then SdkDataTimeout else Active
        invariant i == |got| <= |turns| && |queue.popped| == start + Packets(got)
        invariant lastData == LastData(started, turns, got, |got|)
        invariant Explained(exit, started, noDataLimit, turns, got, LastSize(queue))
        invariant quiet ==> exit == Cut && !queue.closed && !stopRequested && started <= lastData
      {
        ghost var before := LastSize(queue);
        var left, taken;
        left, taken, lost := TurnOnce(queue, start, turns[i], lastData);
        if left.Some? { exit := left.value; }
        if quiet { QuietGoesOn(turns[i], started, noDataLimit, lastData, LastSize(queue)); }
        ExplainedNext(exit, started, noDataLimit, turns, got, before, taken, LastSize(queue));
        got := got + [taken];
        if taken { lastData := turns[i].now; }
        i := i + 1;
      }
    }

    /**
     * The pump thread on a queue from which earlier pumps may have popped. If it leaves because the
     * queue is drained, it has written every packet accepted and not popped before it started. It leaves for want of
     * data exactly when the time is up since the last packet, and never without a reason.
     */
    method Run(queue: ByteQueue, started: int, turns: seq<Turn>)
      returns (exit: Exit, ghost lost: nat, ghost got: seq<bool>)
      requires queue.Valid() && sink == [] && inputOpen && endReason == Active
      modifies this, queue
      ensures queue.Valid() && HasWritten(queue, |old(queue.popped)|, lost)
      ensures lost > 0 <==> exit == WriteFailed
      ensures inputOpen <==> exit == Cut
      ensures |queue.popped| == |old(queue.popped)| + Packets(got)
      ensures exit == Cut ==> |got| == |turns|
      ensures Explained(exit, started, noDataLimit, turns, got, LastSize(queue))
      ensures exit == Drained ==>
                queue.closed && queue.items == [] && queue.popped == queue.accepted &&
                sink == Join(queue.accepted[|old(queue.popped)|..])
      ensures exit == Stopped ==> stopRequested
      ensures AllQuiet(turns, started, noDataLimit) && !old(queue.closed) && !old(stopRequested) ==> exit == Cut
      ensures endReason == SdkDataTimeout <==>
                exit == NoData || (exit == WriteFailed && !stopRequested && !(queue.closed && queue.items == []))
    {
      ghost var start := |queue.popped|;
      assert queue.popped[start..] == [];
      exit, lost, got := Loop(queue, start, started, turns);
      if exit == Cut { return; }
      var drained := queue.IsDrained();
      if !stopRequested && !drained && endReason != SdkDataTimeout { endReason := SdkDataTimeout; }
      inputOpen := false;
    }
  }
}
