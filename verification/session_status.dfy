// Status entries of recent sessions, kept for ten minutes so that a player can
// ask after the end of the stream why it ended.
module SessionStatus {
  import opened Bytes

  datatype Reason =
    | Active | ManualCleanup | PlaybackEnd | PlaybackPositionError | QueueOverflow | SdkDataTimeout
    | SdkKeepAliveFailed | FfmpegExit | FfmpegOutputTimeout | ClientWriteTimeout | ClientReplaced
    | ServerStopped | StartupFailed | StreamEnded

  /** Queue figures at the end of a session. */
  datatype Metrics = Metrics(current: nat, peak: nat, backpressure: nat)

  datatype Entry = Entry(
    ended: bool, reason: Reason, metrics: Metrics, updated: nat, started: nat,
    outputReady: Option<nat>, firstFrame: Option<nat>, clientElapsed: int)

  type Statuses = map<string, Entry>

  const RETENTION: nat := 600_000   // ten minutes, in milliseconds
  const NOTHING := Metrics(0, 0, 0)

  function Fresh(now: nat): Entry {
    Entry(false, Active, NOTHING, now, now, None, None, 0)
  }

  predicate Expired(e: Entry, now: nat) {
    e.updated + RETENTION < now
  }

  function Kept(items: Statuses, now: nat): Statuses {
    map sid | sid in items && !Expired(items[sid], now) :: items[sid]
  }

  function Activated(items: Statuses, sid: string, now: nat): Statuses {
    Kept(items, now)[sid := Fresh(now)]
  }

  function Ended(items: Statuses, sid: string, reason: Reason, metrics: Metrics, now: nat): Statuses {
    var kept := Kept(items, now);
    var value := if sid in kept then kept[sid] else Fresh(now);
    if value.reason == ManualCleanup then kept
    else kept[sid := value.(ended := true, reason := reason, metrics := metrics, updated := now)]
  }

  function Ready(items: Statuses, sid: string, now: nat): Statuses {
    if sid in items then items[sid := items[sid].(outputReady := Some(now), updated := now)] else items
  }

  function Rendered(items: Statuses, sid: string, elapsed: int, now: nat): Statuses {
    if sid !in items then items
    else
      var e := items[sid];
      items[sid := e.(firstFrame := if e.firstFrame.Some? then e.firstFrame else Some(now),
                      clientElapsed := elapsed, updated := now)]
  }

  /** A manual cleanup, once recorded, is the reason that is reported. */
  predicate Settled(items: Statuses, sid: string) {
    sid in items && items[sid].reason == ManualCleanup
  }

  /** Whatever end another thread reports, a recorded cleanup stays unless it expired first. */
  lemma CleanupIsSticky(items: Statuses, sid: string, other: string, reason: Reason, metrics: Metrics, now: nat)
    requires Settled(items, sid) && !Expired(items[sid], now)
    ensures Ended(items, other, reason, metrics, now)[sid] == items[sid]
  {
    assert sid in Kept(items, now);
  }

  /** A cleanup always takes, whatever had been recorded before. */
  lemma CleanupTakes(items: Statuses, sid: string, metrics: Metrics, now: nat)
    ensures Settled(Ended(items, sid, ManualCleanup, metrics, now), sid)
  {
  }

  /** The entry under `sid` is one of the last ten minutes. */
  predicate Recent(items: Statuses, sid: string, now: nat) {
    sid in items && items[sid].updated + 600_000 >= now
  }

  /** Of all other entries exactly those of the last ten minutes are left, as they were. */
  ghost predicate OthersKept(before: Statuses, after: Statuses, sid: string, now: nat) {
    forall other | other != sid ::
      && (other in after <==> Recent(before, other, now))
      && (other in after ==> after[other] == before[other])
  }

  /** All other entries are as they were. */
  ghost predicate OthersSame(before: Statuses, after: Statuses, sid: string) {
    forall other | other != sid ::
      (other in after <==> other in before) && (other in after ==> after[other] == before[other])
  }

  class SessionStatusRegistry {
    var items: Statuses

    constructor ()
      ensures items == map[]
    {
      items := map[];
    }

    method Cleanup(now: nat)
      modifies this
      ensures items == Kept(old(items), now)
      ensures forall sid :: sid in items <==> Recent(old(items), sid, now)
      ensures forall sid | sid in items :: items[sid] == old(items)[sid]
    {
      var todo := items.Keys;
      ghost var all := items;
      while todo != {}
        invariant todo <= all.Keys
        invariant items == map sid | sid in all && (sid in todo || !Expired(all[sid], now)) :: all[sid]
        decreases todo
      {
        var sid :| sid in todo;
        if Expired(items[sid], now) { items := items - {sid}; }
        todo := todo - {sid};
      }
    }

    method SetActive(sid: string, now: nat)
      modifies this
      ensures items == Activated(old(items), sid, now)
      ensures OthersKept(old(items), items, sid, now)
      ensures sid in items && items[sid].reason == Active && !items[sid].ended
      ensures items[sid].started == items[sid].updated == now
      ensures items[sid].outputReady.None? && items[sid].firstFrame.None?
    {
      Cleanup(now);
      items := items[sid := Fresh(now)];
    }

    method SetEnded(sid: string, reason: Reason, metrics: Metrics, now: nat)
      modifies this
      ensures items == Ended(old(items), sid, reason, metrics, now)
      ensures OthersKept(old(items), items, sid, now) && sid in items
      ensures if Recent(old(items), sid, now) && old(items)[sid].reason == ManualCleanup
              then items[sid] == old(items)[sid]
              else
                && items[sid].ended && items[sid].reason == reason && items[sid].metrics == metrics
                && items[sid].updated == now
                && items[sid].started == if Recent(old(items), sid, now) then old(items)[sid].started else now
    {
      Cleanup(now);
      var value := if sid in items then items[sid] else Fresh(now);
      if value.reason == ManualCleanup { return; }
      items := items[sid := value.(ended := true, reason := reason, metrics := metrics, updated := now)];
    }

    method SetOutputReady(sid: string, now: nat)
      modifies this
      ensures items == Ready(old(items), sid, now)
      ensures OthersSame(old(items), items, sid) && (sid in items <==> sid in old(items))
      ensures sid in items ==>
                && items[sid].outputReady == Some(now) && items[sid].updated == now
                && items[sid].reason == old(items)[sid].reason && items[sid].started == old(items)[sid].started
    {
      if sid !in items { return; }
      items := items[sid := items[sid].(outputReady := Some(now), updated := now)];
    }

    method SetBrowserFirstFrame(sid: string, elapsed: int, now: nat) returns (timing: Option<(int, int)>)
      modifies this
      ensures items == Rendered(old(items), sid, elapsed, now)
      ensures OthersSame(old(items), items, sid) && (sid in items <==> sid in old(items))
      ensures sid in items ==>
                && items[sid].updated == now && items[sid].clientElapsed == elapsed
                && items[sid].firstFrame ==
                   (if old(items)[sid].firstFrame.Some? then old(items)[sid].firstFrame else Some(now))
                && items[sid].outputReady == old(items)[sid].outputReady
                && items[sid].reason == old(items)[sid].reason && items[sid].started == old(items)[sid].started
      ensures timing.None? <==> sid !in old(items)
      ensures timing.Some? ==>
                var e := items[sid];
                && timing.value.0 == e.firstFrame.value - e.started
                && timing.value.1 == if e.outputReady.Some? then e.firstFrame.value - e.outputReady.value else -1
    {
      if sid !in items { return None; }
      var e := items[sid];
      var frame := if e.firstFrame.Some? then e.firstFrame.value else now;
      items := items[sid := e.(firstFrame := Some(frame), clientElapsed := elapsed, updated := now)];
      timing := Some((frame - e.started, if e.outputReady.Some? then frame - e.outputReady.value else -1));
    }

    method Get(sid: string, now: nat) returns (entry: Option<Entry>)
      modifies this
      ensures items == Kept(old(items), now)
      ensures entry.Some? <==> Recent(old(items), sid, now)
      ensures entry.Some? ==> entry.value == old(items)[sid]
      ensures entry == if sid in items then Some(items[sid]) else None
    {
      Cleanup(now);
      entry := if sid in items then Some(items[sid]) else None;
    }
  }
}
