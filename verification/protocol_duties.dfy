// What runs must do, beside what they must not: a stopping service and a cleanup
// leave out nobody, requests are admitted exactly by their tokens and the room there
// is, the end that a session reports is the one it met, and nothing keeps the service
// from stopping or a finished worker from leaving.
module ProtocolDuties {
  import opened Bytes
  import opened SessionStatus
  import opened ConnectionProtocol
  import opened ProtocolRuns
  import R = SessionRegistry

  lemma {:induction false} RunSplits(s: State, first: seq<Action>, later: seq<Action>)
    requires IsRun(s, first + later)
    ensures IsRun(s, first) && IsRun(After(s, first), later)
    ensures Trace(s, first + later) == Trace(s, first) + Trace(After(s, first), later)
    decreases first
  {
    if first == [] {
      assert [] + later == later;
      assert [] + Trace(s, later) == Trace(s, later);
    } else {
      assert (first + later)[1..] == first[1..] + later;
      RunSplits(Step(s, first[0]), first[1..], later);
      RunsChain(s, first, later);
    }
  }

  lemma OneStep(s: State, a: Action)
    requires IsRun(s, [a])
    ensures Enabled(s, a) && After(s, [a]) == Step(s, a) && Trace(s, [a]) == Emitted(s, a)
  {
    assert [a][1..] == [];
    assert Emitted(s, a) + [] == Emitted(s, a);
  }

  /** A run from its first step to its last. */
  lemma FromTo(s: State, first: Action, body: seq<Action>, last: Action)
    requires IsRun(s, [first] + body + [last])
    ensures Enabled(s, first) && IsRun(Step(s, first), body) && Enabled(After(Step(s, first), body), last)
    ensures Trace(s, [first] + body + [last]) ==
            Emitted(s, first) + Trace(Step(s, first), body) + Emitted(After(Step(s, first), body), last)
  {
    RunSplits(s, [first] + body, [last]);
    RunSplits(s, [first], body);
    OneStep(s, first);
    OneStep(After(s, [first] + body), last);
    RunsChain(s, [first], body);
  }

  // -------------------------------------------------------- the service stops

  /** The stopping service has not come to this open connection yet. */
  predicate Awaits(s: State, c: Conn) {
    s.acceptor.Stopping? && c in s.acceptor.todo && c in s.workers && IsOpen(s.workers[c].phase)
  }

  lemma StepKeepsAwaiting(s: State, a: Action, c: Conn)
    requires Enabled(s, a) && Awaits(s, c) && a != StopDone && a != StopOne(c)
    ensures Awaits(Step(s, a), c)
  {
    if Moves(a) {
      StepMovesOne(s, a);
      assert !a.Close?;
      MovedWorkerStaysOpen(s, a, Step(s, a));
    } else if !a.StopOne? {
      StepMovesNone(s, a);
    }
  }

  lemma {:induction false} StopComesTo(s: State, steps: seq<Action>, c: Conn)
    requires Inv(s) && Awaits(s, c) && IsRun(s, steps) && StopDone !in steps
    ensures ShutdownCall(c, Some(c), false) in Trace(s, steps) || Awaits(After(s, steps), c)
    decreases steps
  {
    if steps == [] { return; }
    if steps[0] == StopOne(c) {
      assert Emitted(s, steps[0]) == [ShutdownCall(c, Some(c), false)];
    } else {
      StepKeepsAwaiting(s, steps[0], c);
      StepKeepsInv(s, steps[0]);
      StopComesTo(Step(s, steps[0]), steps[1..], c);
    }
  }

  /**
   * Between the moment the service starts to stop and the moment it gives the sockets up to wait for the threads, it
   * shuts down every connection that was open, whatever runs beside it.
   */
  lemma StopDisconnectsAll(s: State, body: seq<Action>, c: Conn)
    requires Inv(s) && IsRun(s, [Stop] + body + [StopDone]) && StopDone !in body
    requires c in s.workers && IsOpen(s.workers[c].phase)
    ensures ShutdownCall(c, Some(c), false) in Trace(s, [Stop] + body + [StopDone])
  {
    FromTo(s, Stop, body, StopDone);
    StepKeepsInv(s, Stop);
    StopComesTo(Step(s, Stop), body, c);
  }

  /** While it is being waited for, nothing but the service itself can keep it from stopping. */
  lemma {:induction false} StopFinishes(s: State) returns (steps: seq<Action>)
    requires s.acceptor.Stopping?
    ensures IsRun(s, steps) && After(s, steps) == s.(acceptor := Joining)
    decreases if s.acceptor.Stopping? then s.acceptor.todo else {}
  {
    if s.acceptor.todo == {} {
      steps := [StopDone];
      assert steps[1..] == [];
    } else {
      var c :| c in s.acceptor.todo;
      var later := StopFinishes(Step(s, StopOne(c)));
      steps := [StopOne(c)] + later;
      assert steps[1..] == later;
    }
  }

  /** An idle service can always stop; its threads and sockets are then as before, and are waited for. */
  lemma ServiceStops(s: State) returns (steps: seq<Action>)
    requires s.acceptor == Waiting
    ensures IsRun(s, steps) && After(s, steps) == s.(acceptor := Joining)
  {
    var later := StopFinishes(Step(s, Stop));
    steps := [Stop] + later;
    assert steps[1..] == later;
  }

  /** A worker whose request is over can close its socket and leave, unless the service is just stopping. */
  lemma WorkerLeaves(s: State, c: Conn)
    requires At(s, c, Returning) && (s.acceptor.Waiting? || s.acceptor.Joining?)
    ensures IsRun(s, [Close(c), StoreDone(c)] + [Reap(c)])
    ensures After(s, [Close(c), StoreDone(c)] + [Reap(c)]) ==
            s.(os := s.os - {s.workers[c].fd}, workers := s.workers - {c})
  {
    ClosesAndIsDone(s, c);
    OneMoreStep(s, [Close(c), StoreDone(c)], Reap(c));
    assert Left(s, c, Done).workers - {c} == s.workers - {c};
  }

  function Left(s: State, c: Conn, p: Phase): State
    requires c in s.workers
  {
    s.(os := s.os - {s.workers[c].fd}, workers := s.workers[c := s.workers[c].(phase := p)])
  }

  lemma ClosesAndIsDone(s: State, c: Conn)
    requires At(s, c, Returning) && !s.acceptor.Stopping?
    ensures IsRun(s, [Close(c), StoreDone(c)]) && After(s, [Close(c), StoreDone(c)]) == Left(s, c, Done)
  {
    CloseLeaves(s, c);
    DoneLeaves(s, c);
    TwoSteps(s, Close(c), StoreDone(c));
  }

  lemma CloseLeaves(s: State, c: Conn)
    requires At(s, c, Returning) && !s.acceptor.Stopping?
    ensures Step(s, Close(c)) == Left(s, c, Closed)
  {
  }

  lemma DoneLeaves(s: State, c: Conn)
    requires c in s.workers
    ensures Enabled(Left(s, c, Closed), StoreDone(c)) && Step(Left(s, c, Closed), StoreDone(c)) == Left(s, c, Done)
  {
    assert Step(Left(s, c, Closed), StoreDone(c)).workers == Left(s, c, Done).workers;
  }

  // ------------------------------------------------------------- a cleanup

  predicate IsCleaning(s: State, c: Conn) {
    c in s.workers && s.workers[c].phase.Sweeping?
  }

  predicate OfCleaner(a: Action, c: Conn) { OfCleanup(a) && a.c == c }

  /** Nobody else touches the registry or the cleaner while a cleanup holds the mutex. */
  lemma OthersWait(s: State, a: Action, c: Conn)
    requires SocketsOwned(s) && LockHeld(s) && Enabled(s, a) && IsCleaning(s, c) && !OfCleaner(a, c)
    ensures Step(s, a).leases == s.leases && IsCleaning(Step(s, a), c)
    ensures Step(s, a).workers[c].phase == s.workers[c].phase
  {
    assert s.lock == Some(c);
    if !Moves(a) {
      AcceptorLeavesCleaner(s, a, c);
    } else if OfCleanup(a) {
      OneCleaner(s, a);
    } else if OfReservation(a) {
      NoReservation(s, a);
    } else {
      RequestMovesOne(s, a);
      RequestIsQuiet(s, a, Step(s, a));
    }
  }

  lemma AcceptorLeavesCleaner(s: State, a: Action, c: Conn)
    requires SocketsOwned(s) && Enabled(s, a) && IsCleaning(s, c) && !Moves(a)
    ensures Step(s, a).leases == s.leases && IsCleaning(Step(s, a), c)
    ensures Step(s, a).workers[c].phase == s.workers[c].phase
  {
    if !a.Start? && !a.Reap? { StepMovesNone(s, a); }
  }

  lemma OneCleaner(s: State, a: Action)
    requires LockHeld(s) && Enabled(s, a) && OfCleanup(a) && s.lock.Some?
    ensures s.lock == Some(a.c)
  {
    if !a.CleanBegin? { SweeperIsCleaning(s, a); }
  }

  lemma SweeperIsCleaning(s: State, a: Action)
    requires Enabled(s, a) && OfCleanup(a) && !a.CleanBegin?
    ensures IsCleaning(s, a.c)
  {
  }

  lemma NoReservation(s: State, a: Action)
    requires LockHeld(s) && Enabled(s, a) && OfReservation(a) && s.lock.Some?
    ensures s.lock == Some(a.c) && s.workers[a.c].phase.Reserving?
  {
  }

  /** How far the cleanup of worker c is with session l, as long as l has something to expect. */
  datatype Progress = Ahead | Announced | Stored

  predicate Expects(s: State, c: Conn, l: Conn, p: Progress) {
    && IsCleaning(s, c) && l in s.leases && s.leases[l].fd.Some?
    && var stage := s.workers[c].phase.stage;
       match p
       case Ahead =>
         l in s.workers[c].phase.todo && !s.leases[l].cancelled && stage != Marked(l) && stage != CancelStored(l)
       case Announced => stage == Marked(l)
       case Stored => stage == CancelStored(l)
  }

  /** What the step gives session l: the reason when the cleanup comes to it, the disconnection at the end. */
  predicate Gives(given: seq<Event>, before: Progress, after: Option<Progress>, l: Conn) {
    match after
    case Some(p) => p == before || before != Ahead || ReasonPublished(l) in given
    case None => before == Stored && |given| == 1 && given[0].ShutdownCall? && given[0].conn == l && given[0].cleanup
  }

  /** None when session l has got everything. */
  function Reached(a: Action, c: Conn, l: Conn, p: Progress): Option<Progress> {
    if a == CleanLook(c, l) && p == Ahead then Some(Announced)
    else if a == CleanCancel(c) && p == Announced then Some(Stored)
    else if a == CleanShutdown(c) && p == Stored then None
    else Some(p)
  }

  predicate StillExpects(s: State, c: Conn, l: Conn, p: Option<Progress>) { p.Some? ==> Expects(s, c, l, p.value) }

  lemma LookGoesOn(s: State, c: Conn, other: Conn, l: Conn, p: Progress)
    requires Enabled(s, CleanLook(c, other)) && Expects(s, c, l, p)
    ensures StillExpects(Step(s, CleanLook(c, other)), c, l, Reached(CleanLook(c, other), c, l, p))
    ensures Gives(Emitted(s, CleanLook(c, other)), p, Reached(CleanLook(c, other), c, l, p), l)
  {
  }

  lemma CancelGoesOn(s: State, c: Conn, l: Conn, p: Progress)
    requires Enabled(s, CleanCancel(c)) && Expects(s, c, l, p)
    ensures StillExpects(Step(s, CleanCancel(c)), c, l, Reached(CleanCancel(c), c, l, p))
    ensures Gives(Emitted(s, CleanCancel(c)), p, Reached(CleanCancel(c), c, l, p), l)
  {
  }

  lemma ShutdownGoesOn(s: State, c: Conn, l: Conn, p: Progress)
    requires Enabled(s, CleanShutdown(c)) && Expects(s, c, l, p)
    ensures StillExpects(Step(s, CleanShutdown(c)), c, l, Reached(CleanShutdown(c), c, l, p))
    ensures Gives(Emitted(s, CleanShutdown(c)), p, Reached(CleanShutdown(c), c, l, p), l)
  {
  }

  lemma OthersGoOn(s: State, a: Action, c: Conn, l: Conn, p: Progress)
    requires SocketsOwned(s) && LockHeld(s) && Enabled(s, a) && !OfCleaner(a, c) && Expects(s, c, l, p)
    ensures StillExpects(Step(s, a), c, l, Reached(a, c, l, p)) && Gives(Emitted(s, a), p, Reached(a, c, l, p), l)
  {
    OthersWait(s, a, c);
    assert Reached(a, c, l, p) == Some(p);
  }

  lemma StepGoesOn(s: State, a: Action, c: Conn, l: Conn, p: Progress)
    requires SocketsOwned(s) && LockHeld(s) && Enabled(s, a) && a != CleanEnd(c) && Expects(s, c, l, p)
    ensures StillExpects(Step(s, a), c, l, Reached(a, c, l, p)) && Gives(Emitted(s, a), p, Reached(a, c, l, p), l)
  {
    if !OfCleaner(a, c) {
      OthersGoOn(s, a, c, l, p);
    } else if a.CleanLook? {
      LookGoesOn(s, c, a.l, l, p);
    } else {
      NotAnew(s, a, c);
      SweeperGoesOn(s, a, c, l, p);
    }
  }

  lemma SweeperGoesOn(s: State, a: Action, c: Conn, l: Conn, p: Progress)
    requires Enabled(s, a) && (a == CleanCancel(c) || a == CleanShutdown(c)) && Expects(s, c, l, p)
    ensures StillExpects(Step(s, a), c, l, Reached(a, c, l, p)) && Gives(Emitted(s, a), p, Reached(a, c, l, p), l)
  {
    if a == CleanCancel(c) { CancelGoesOn(s, c, l, p); } else { ShutdownGoesOn(s, c, l, p); }
  }

  lemma NotAnew(s: State, a: Action, c: Conn)
    requires Enabled(s, a) && OfCleaner(a, c) && IsCleaning(s, c)
    ensures !a.CleanBegin?
  {
  }

  predicate Disconnected(trace: seq<Event>, l: Conn) {
    exists e | e in trace :: e.ShutdownCall? && e.conn == l && e.cleanup
  }

  /** What session l has yet to get from its cleanup is in this trace. */
  predicate Served(trace: seq<Event>, l: Conn, p: Progress) {
    Disconnected(trace, l) && (p == Ahead ==> ReasonPublished(l) in trace)
  }

  lemma ServedLater(now: seq<Event>, later: seq<Event>, l: Conn, p: Progress, next: Option<Progress>)
    requires Gives(now, p, next, l) && (next.Some? ==> Served(later, l, next.value))
    ensures Served(now + later, l, p)
  {
    assert forall e | e in later :: e in now + later;
    assert forall e | e in now :: e in now + later;
    if next.None? { assert now[0] in now + later; }
  }

  /** What is left for session l has happened by the time the cleanup is through. */
  lemma {:induction false} CleanupComesTo(s: State, steps: seq<Action>, c: Conn, l: Conn, p: Progress)
    requires Inv(s) && Expects(s, c, l, p) && IsRun(s, steps) && CleanEnd(c) !in steps
    requires At(After(s, steps), c, Sweeping({}, Between))
    ensures Served(Trace(s, steps), l, p)
    decreases steps
  {
    if steps == [] { return; }
    var next := Reached(steps[0], c, l, p);
    StepGoesOn(s, steps[0], c, l, p);
    if next.Some? {
      StepKeepsInv(s, steps[0]);
      CleanupComesTo(Step(s, steps[0]), steps[1..], c, l, next.value);
    }
    ServedLater(Emitted(s, steps[0]), Trace(Step(s, steps[0]), steps[1..]), l, p, next);
  }

  lemma CleanupServes(s: State, c: Conn, body: seq<Action>, l: Conn)
    requires Inv(s) && IsRun(s, [CleanBegin(c)] + body + [CleanEnd(c)]) && CleanEnd(c) !in body
    requires l in s.leases && !s.leases[l].cancelled
    ensures Served(Trace(s, [CleanBegin(c)] + body + [CleanEnd(c)]), l, Ahead)
  {
    FromTo(s, CleanBegin(c), body, CleanEnd(c));
    var s1 := Step(s, CleanBegin(c));
    StepKeepsInv(s, CleanBegin(c));
    assert LeaseFits(s, l);
    assert Expects(s1, c, l, Ahead);
    CleanupComesTo(s1, body, c, l, Ahead);
    var trace := Trace(s1, body);
    assert forall e | e in trace :: e in Trace(s, [CleanBegin(c)] + body + [CleanEnd(c)]);
  }

  /**
   * From its first step to its last, a cleanup publishes the reason of and disconnects every session that was not
   * cancelled when it began, whatever runs beside it; and it is that session which is disconnected, unless the cleanup
   * meets an orphan.
   */
  lemma CleanupDisconnectsAll(s: State, c: Conn, body: seq<Action>, l: Conn)
    requires Inv(s) && IsRun(s, [CleanBegin(c)] + body + [CleanEnd(c)]) && CleanEnd(c) !in body
    requires l in s.leases && !s.leases[l].cancelled
    ensures var trace := Trace(s, [CleanBegin(c)] + body + [CleanEnd(c)]);
            && ReasonPublished(l) in trace && Disconnected(trace, l)
            && (SparesOrphans(s, [CleanBegin(c)] + body + [CleanEnd(c)]) ==> ShutdownCall(l, Some(l), true) in trace)
  {
    CleanupServes(s, c, body, l);
    var steps := [CleanBegin(c)] + body + [CleanEnd(c)];
    DescriptorsAreSafe(s, steps);
    var e :| e in Trace(s, steps) && e.ShutdownCall? && e.conn == l && e.cleanup;
    assert SparesOrphans(s, steps) ==> Aimed(e);
  }

  // -------------------------------------------------------------- admission

  /** A request that held the current token before a run is admitted after it exactly in these cases. */
  lemma AdmittedIff(s: State, steps: seq<Action>, c: Conn, sid: string)
    requires Inv(s) && IsRun(s, steps)
    requires At(After(s, steps), c, Serving) && After(s, steps).lock == None
    ensures var t := After(s, steps);
            var a := ReserveBegin(c, sid, s.fence.generation);
            && Enabled(t, a)
            && (At(Step(t, a), c, Reserving) <==>
                  Cleanups(steps) % 0x1_0000_0000_0000_0000 == 0 && |t.leases| < t.maxSessions)
            && (!At(Step(t, a), c, Reserving) ==> Step(t, a) == Move(t, c, Returning))
  {
    TokensAreFencedOff(s, steps);
  }

  lemma StepKeepsWorkerCount(s: State, a: Action)
    requires Enabled(s, a) && |s.workers| <= s.maxWorkers
    ensures |Step(s, a).workers| <= Step(s, a).maxWorkers == s.maxWorkers
  {
    if Moves(a) {
      StepMovesOne(s, a);
      assert Step(s, a).workers.Keys == s.workers.Keys;
      SameSize(s.workers, Step(s, a).workers);
      MaximaStay(s, a);
    } else if a.Start? {
      SizeWith(s.workers, s.acceptor.conn, Worker(s.acceptor.fd, Serving, "", NONE));
    } else if a.Reap? {
      SizeWithout(s.workers, a.c);
    } else {
      StepMovesNone(s, a);
      MaximaStay(s, a);
    }
  }

  lemma SameSize<K, V, W>(m: map<K, V>, n: map<K, W>)
    requires m.Keys == n.Keys
    ensures |m| == |n|
  {
    assert |m| == |m.Keys| && |n| == |n.Keys|;
  }

  lemma MaximaStay(s: State, a: Action)
    requires Enabled(s, a)
    ensures Step(s, a).maxWorkers == s.maxWorkers
  {
    if OfCleanup(a) {
      CleanupLeavesMaxima(s, a);
    } else if Moves(a) {
      WorkerLeavesMaxima(s, a);
    }
  }

  lemma CleanupLeavesMaxima(s: State, a: Action)
    requires Enabled(s, a) && OfCleanup(a)
    ensures Step(s, a).maxWorkers == s.maxWorkers
  {
  }

  lemma WorkerLeavesMaxima(s: State, a: Action)
    requires Enabled(s, a) && Moves(a) && !OfCleanup(a)
    ensures Step(s, a).maxWorkers == s.maxWorkers
  {
  }

  /** There never are more workers than the maximum. */
  lemma {:induction false} WorkersAreBounded(s: State, steps: seq<Action>)
    requires |s.workers| <= s.maxWorkers && IsRun(s, steps)
    ensures |After(s, steps).workers| <= After(s, steps).maxWorkers == s.maxWorkers
    decreases steps
  {
    if steps != [] {
      StepKeepsWorkerCount(s, steps[0]);
      WorkersAreBounded(Step(s, steps[0]), steps[1..]);
    }
  }

  // ------------------------------------------------------------- the reason

  /** What a session's own thread reports: the reason it met, unless a cleanup came first. */
  lemma ReportsItsReason(s: State, c: Conn, reason: Reason, metrics: Metrics)
    requires Enabled(s, ReadCancelled(c, reason))
    ensures IsRun(s, [ReadCancelled(c, reason), WriteStatus(c, metrics)])
    ensures var e := After(s, [ReadCancelled(c, reason), WriteStatus(c, metrics)]).statuses;
            var sid := s.workers[c].sid;
            && sid in e
            && e[sid].reason ==
               (if s.leases[c].cancelled || (sid in s.statuses && s.statuses[sid].updated + 600_000 >= s.now
                                             && s.statuses[sid].reason == ManualCleanup)
                then ManualCleanup else reason)
            && (e[sid].reason == reason ==> e[sid].ended && e[sid].metrics == metrics && e[sid].updated == s.now)
  {
    TwoSteps(s, ReadCancelled(c, reason), WriteStatus(c, metrics));
  }
}
