// What the transition system guarantees over whole runs: every interleaving of
// accepting, serving, playing, cleaning up and stopping.
module ProtocolRuns {
  import opened Bytes
  import opened SessionStatus
  import opened ConnectionProtocol
  import R = SessionRegistry

  predicate IsRun(s: State, steps: seq<Action>)
    decreases steps
  {
    steps == [] || (Enabled(s, steps[0]) && IsRun(Step(s, steps[0]), steps[1..]))
  }

  function After(s: State, steps: seq<Action>): State
    requires IsRun(s, steps)
    decreases steps
  {
    if steps == [] then s else After(Step(s, steps[0]), steps[1..])
  }

  function Trace(s: State, steps: seq<Action>): seq<Event>
    requires IsRun(s, steps)
    decreases steps
  {
    if steps == [] then [] else Emitted(s, steps[0]) + Trace(Step(s, steps[0]), steps[1..])
  }

  lemma {:induction false} RunKeepsInv(s: State, steps: seq<Action>)
    requires Inv(s) && IsRun(s, steps)
    ensures Inv(After(s, steps))
    decreases steps
  {
    if steps != [] {
      StepKeepsInv(s, steps[0]);
      RunKeepsInv(Step(s, steps[0]), steps[1..]);
    }
  }

  lemma {:induction false} OneMoreStep(s: State, steps: seq<Action>, a: Action)
    requires IsRun(s, steps) && Enabled(After(s, steps), a)
    ensures IsRun(s, steps + [a]) && After(s, steps + [a]) == Step(After(s, steps), a)
    decreases steps
  {
    if steps == [] {
      assert [a][1..] == [];
    } else {
      OneMoreStep(Step(s, steps[0]), steps[1..], a);
      assert (steps + [a])[1..] == steps[1..] + [a];
    }
  }

  lemma TwoSteps(s: State, a: Action, b: Action)
    requires Enabled(s, a) && Enabled(Step(s, a), b)
    ensures IsRun(s, [a, b]) && After(s, [a, b]) == Step(Step(s, a), b)
  {
    assert [a, b][1..] == [b] && [b][1..] == [];
    assert IsRun(Step(s, a), [b]) && After(Step(s, a), [b]) == Step(Step(s, a), b);
  }

  lemma {:induction false} RunsChain(s: State, first: seq<Action>, later: seq<Action>)
    requires IsRun(s, first) && IsRun(After(s, first), later)
    ensures IsRun(s, first + later) && After(s, first + later) == After(After(s, first), later)
    ensures Trace(s, first + later) == Trace(s, first) + Trace(After(s, first), later)
    decreases first
  {
    if first == [] {
      assert [] + later == later;
      assert [] + Trace(s, later) == Trace(s, later);
    } else {
      assert (first + later)[1..] == first[1..] + later;
      RunsChain(Step(s, first[0]), first[1..], later);
      Assoc(Emitted(s, first[0]), Trace(Step(s, first[0]), first[1..]), Trace(After(s, first), later));
    }
  }

  // ------------------------------------------------------------- descriptors

  /** A close or shutdown reaches the connection it is meant for, not a stranger that got its number. */
  predicate Aimed(e: Event) {
    match e
    case CloseCall(c, hit) => hit == Some(c)
    case ShutdownCall(c, hit, _) => hit == Some(c)
    case _ => true
  }

  predicate AllAimed(trace: seq<Event>) {
    forall e | e in trace :: Aimed(e)
  }

  /** The connection's socket is open. */
  predicate IsLive(s: State, c: Conn) {
    (s.acceptor.Accepted? && s.acceptor.conn == c) || (c in s.workers && IsOpen(s.workers[c].phase))
  }

  /** A registered session whose socket has been closed: its number is free, or somebody else's. */
  predicate Orphaned(s: State, l: Conn) {
    l in s.leases && !IsLive(s, l)
  }

  /** Only a lease that reserve leaked outlives its socket. */
  lemma OrphansAreLeaked(s: State, l: Conn)
    requires Inv(s) && Orphaned(s, l)
    ensures Leaked(s, l)
  {
  }

  predicate DisconnectsOrphan(s: State, a: Action)
    requires Enabled(s, a)
  {
    a.CleanShutdown? && Orphaned(s, s.workers[a.c].phase.stage.of)
  }

  /** A step's system calls reach whom they are meant for exactly if it is not a cleanup disconnecting an orphan. */
  lemma StepIsAimed(s: State, a: Action)
    requires Inv(s) && Enabled(s, a)
    ensures AllAimed(Emitted(s, a)) <==> !DisconnectsOrphan(s, a)
    ensures forall e | e in Emitted(s, a) :: e.ShutdownCall? && e.cleanup ==> a.CleanShutdown?
  {
    if a.CleanShutdown? { ShutdownIsAimed(s, a.c); }
  }

  lemma ShutdownIsAimed(s: State, c: Conn)
    requires Inv(s) && Enabled(s, CleanShutdown(c))
    ensures AllAimed(Emitted(s, CleanShutdown(c))) <==> !DisconnectsOrphan(s, CleanShutdown(c))
  {
    var l := s.workers[c].phase.stage.of;
    assert LeaseFits(s, l);
    var e := ShutdownCall(l, Hit(s, s.leases[l].fd.value), true);
    assert Emitted(s, CleanShutdown(c)) == [e] && e in Emitted(s, CleanShutdown(c));
  }

  /** No cleanup of the run disconnects an orphan. */
  predicate SparesOrphans(s: State, steps: seq<Action>)
    requires IsRun(s, steps)
    decreases steps
  {
    steps == [] || (!DisconnectsOrphan(s, steps[0]) && SparesOrphans(Step(s, steps[0]), steps[1..]))
  }

  /**
   * In every run, all shutdowns and closes hit their own connection, never a closed or reused
   * descriptor, if and only if no cleanup disconnects a leaked lease whose socket has been closed.
   */
  lemma {:induction false} DescriptorsAreSafe(s: State, steps: seq<Action>)
    requires Inv(s) && IsRun(s, steps)
    ensures AllAimed(Trace(s, steps)) <==> SparesOrphans(s, steps)
    decreases steps
  {
    if steps != [] {
      var now, later := Emitted(s, steps[0]), Trace(Step(s, steps[0]), steps[1..]);
      StepIsAimed(s, steps[0]);
      StepKeepsInv(s, steps[0]);
      DescriptorsAreSafe(Step(s, steps[0]), steps[1..]);
      AimedParts(now, later);
    }
  }

  lemma {:induction false} SparesOneMore(s: State, steps: seq<Action>, a: Action)
    requires IsRun(s, steps) && Enabled(After(s, steps), a)
    ensures IsRun(s, steps + [a])
    ensures SparesOrphans(s, steps + [a]) <==> SparesOrphans(s, steps) && !DisconnectsOrphan(After(s, steps), a)
    decreases steps
  {
    OneMoreStep(s, steps, a);
    if steps == [] {
      assert [] + [a] == [a] && [a][1..] == [];
    } else {
      assert (steps + [a])[1..] == steps[1..] + [a];
      SparesOneMore(Step(s, steps[0]), steps[1..], a);
    }
  }

  lemma AimedParts(a: seq<Event>, b: seq<Event>)
    ensures AllAimed(a + b) <==> AllAimed(a) && AllAimed(b)
  {
    assert forall e | e in a :: e in a + b;
    assert forall e | e in b :: e in a + b;
  }

  /** Closes, and the shutdowns of a stopping service, are safe in every run, leaks or not. */
  lemma {:induction false} OnlyCleanupsMiss(s: State, steps: seq<Action>)
    requires Inv(s) && IsRun(s, steps)
    ensures forall e | e in Trace(s, steps) :: Aimed(e) || (e.ShutdownCall? && e.cleanup)
    decreases steps
  {
    if steps != [] {
      StepIsAimed(s, steps[0]);
      StepKeepsInv(s, steps[0]);
      OnlyCleanupsMiss(Step(s, steps[0]), steps[1..]);
      assert steps[0].CleanShutdown? ==>
          forall e | e in Emitted(s, steps[0]) :: e.ShutdownCall? && e.cleanup;
    }
  }

  // ------------------------------------------------------------- leaked leases

  lemma StepKeepsLeaked(s: State, a: Action, l: Conn)
    requires Inv(s) && Enabled(s, a) && Leaked(s, l)
    ensures Leaked(Step(s, a), l)
  {
    assert LeaseFits(s, l);
    if Moves(a) {
      StepMovesOne(s, a);
      MoveKeepsLeaked(s, a, l, Step(s, a));
    } else if a.Start? || a.Reap? {
    } else {
      StepMovesNone(s, a);
    }
  }

  lemma MoveKeepsLeaked(s: State, a: Action, l: Conn, s': State)
    requires Enabled(s, a) && Moves(a) && Leaked(s, l) && LeaseFits(s, l) && s' == Step(s, a) && OneMoved(s, s', a.c)
    ensures Leaked(s', l)
  {
    if a.c == l { OverStaysOver(s, a, s'); } else { LeaseOfOtherStays(s, a, l); }
  }

  lemma OverStaysOver(s: State, a: Action, s': State)
    requires Enabled(s, a) && Moves(a) && IsOver(s.workers[a.c].phase) && s' == Step(s, a) && OneMoved(s, s', a.c)
    ensures IsOver(s'.workers[a.c].phase) && s'.leases == s.leases
  {
    OnlyLeavesNow(s, a);
  }

  lemma OnlyLeavesNow(s: State, a: Action)
    requires Enabled(s, a) && Moves(a) && IsOver(s.workers[a.c].phase)
    ensures a.Close? || a.StoreDone?
  {
  }

  lemma LeaseOfOtherStays(s: State, a: Action, l: Conn)
    requires Enabled(s, a) && Moves(a) && l in s.leases && !(a.Release? && a.c == l)
    ensures l in Step(s, a).leases
  {
    if OfReservation(a) {
    } else if OfCleanup(a) {
      LeaseOutlivesCleanup(s, a, l);
    } else {
      RequestMovesOne(s, a);
      RequestIsQuiet(s, a, Step(s, a));
    }
  }

  lemma LeaseOutlivesCleanup(s: State, a: Action, l: Conn)
    requires Enabled(s, a) && OfCleanup(a) && l in s.leases
    ensures l in Step(s, a).leases
  {
    CleanupMovesOne(s, a);
    CleanerNeverServes(s, a, Step(s, a));
  }

  /** A leaked lease occupies its slot for ever; once cancelled, it keeps `cleaning()` from ever returning to 0. */
  lemma {:induction false} LeakIsForever(s: State, steps: seq<Action>, l: Conn)
    requires Inv(s) && IsRun(s, steps) && Leaked(s, l)
    ensures Leaked(After(s, steps), l)
    ensures s.leases[l].cancelled ==> l in Cleaning(After(s, steps))
    decreases steps
  {
    if steps != [] {
      StepKeepsInv(s, steps[0]);
      StepKeepsLeaked(s, steps[0], l);
      LeakIsForever(Step(s, steps[0]), steps[1..], l);
      if s.leases[l].cancelled {
        CancellationIsPermanent(s, steps, l);
      }
    }
  }

  predicate NoLeaks(s: State) {
    forall l | l in s.leases :: !Leaked(s, l)
  }

  lemma StepKeepsNoLeaks(s: State, a: Action)
    requires Inv(s) && Enabled(s, a) && NoLeaks(s) && !a.ReserveLeak?
    ensures NoLeaks(Step(s, a))
  {
    if Moves(a) {
      StepMovesOne(s, a);
      MoveKeepsNoLeaks(s, a, Step(s, a));
    } else if a.Start? || a.Reap? {
    } else {
      StepMovesNone(s, a);
    }
  }

  lemma MoveKeepsNoLeaks(s: State, a: Action, s': State)
    requires LeasesHeld(s) && Enabled(s, a) && NoLeaks(s) && Moves(a) && !a.ReserveLeak?
    requires s' == Step(s, a) && OneMoved(s, s', a.c)
    ensures NoLeaks(s')
  {
    if a.ReserveCommit? || a.Release? {
      OwnLeaseChanges(s, a, s');
    } else if a.CleanCancel? {
      CancelKeepsNoLeaks(s, a, s');
    } else {
      assert HeldFits(s.workers[a.c]);
      if a.c in s.leases { assert LeaseFits(s, a.c); }
      MovedWorkerFits(s, a, s');
      HolderStays(s, s', a.c);
    }
  }

  lemma HolderStays(s: State, s': State, c: Conn)
    requires NoLeaks(s) && OneMoved(s, s', c) && StillFits(s, s', c)
    ensures NoLeaks(s')
  {
  }

  lemma OwnLeaseChanges(s: State, a: Action, s': State)
    requires NoLeaks(s) && Enabled(s, a) && (a.ReserveCommit? || a.Release?) && s' == Step(s, a) && OneMoved(s, s', a.c)
    ensures NoLeaks(s')
  {
  }

  lemma CancelKeepsNoLeaks(s: State, a: Action, s': State)
    requires NoLeaks(s) && Enabled(s, a) && a.CleanCancel? && s' == Step(s, a) && OneMoved(s, s', a.c)
    ensures NoLeaks(s')
  {
    assert s'.leases.Keys == s.leases.Keys;
    assert !HoldsLease(s.workers[a.c].phase);
  }

  /** A run in which no Lease object fails to be allocated is safe. */
  lemma {:induction false} WithoutLeaksAllIsSafe(s: State, steps: seq<Action>)
    requires Inv(s) && NoLeaks(s) && IsRun(s, steps)
    requires forall i | 0 <= i < |steps| :: !steps[i].ReserveLeak?
    ensures AllAimed(Trace(s, steps)) && NoLeaks(After(s, steps))
    decreases steps
  {
    if steps != [] {
      assert !steps[0].ReserveLeak?;
      StepIsAimed(s, steps[0]);
      StepKeepsInv(s, steps[0]);
      StepKeepsNoLeaks(s, steps[0]);
      if DisconnectsOrphan(s, steps[0]) { OrphansAreLeaked(s, s.workers[steps[0].c].phase.stage.of); }
      WithoutLeaksAllIsSafe(Step(s, steps[0]), steps[1..]);
      AimedParts(Emitted(s, steps[0]), Trace(Step(s, steps[0]), steps[1..]));
    }
  }

  // ------------------------------------------------------------------ closes

  function Closes(trace: seq<Event>, c: Conn): nat {
    if trace == [] then 0
    else (if trace[0].CloseCall? && trace[0].conn == c then 1 else 0) + Closes(trace[1..], c)
  }

  lemma {:induction false} ClosesConcat(a: seq<Event>, b: seq<Event>, c: Conn)
    ensures Closes(a + b, c) == Closes(a, c) + Closes(b, c)
  {
    if a == [] {
      assert a + b == b;
    } else {
      assert (a + b)[1..] == a[1..] + b;
      ClosesConcat(a[1..], b, c);
    }
  }

  /** Closes that are still to come. */
  function Due(s: State, c: Conn): nat {
    if c >= s.next || IsLive(s, c) then 1 else 0
  }

  lemma StepCloses(s: State, a: Action, c: Conn)
    requires Inv(s) && Enabled(s, a)
    ensures Closes(Emitted(s, a), c) + Due(Step(s, a), c) == Due(s, c)
  {
    if Moves(a) {
      MoveCloses(s, a, c);
    } else if a.Accept? || a.Reject? || a.Start? || a.Reap? {
      SocketCloses(s, a, c);
    } else {
      StepMovesNone(s, a);
    }
  }

  lemma MoveCloses(s: State, a: Action, c: Conn)
    requires Inv(s) && Enabled(s, a) && Moves(a)
    ensures Closes(Emitted(s, a), c) + Due(Step(s, a), c) == Due(s, c)
  {
    StepMovesOne(s, a);
    if a.Close? {
      CloseCloses(s, a.c, c);
    } else {
      MovedWorkerStaysOpen(s, a, Step(s, a));
      NoCloseEmitted(s, a, c);
      SameDue(s, Step(s, a), a.c, c);
    }
  }

  lemma SameDue(s: State, s': State, moved: Conn, c: Conn)
    requires OneMoved(s, s', moved) && s'.acceptor == s.acceptor
    requires IsOpen(s'.workers[moved].phase) == IsOpen(s.workers[moved].phase)
    ensures Due(s', c) == Due(s, c)
  {
  }

  lemma CloseCloses(s: State, worker: Conn, c: Conn)
    requires SocketsOwned(s) && Enabled(s, Close(worker))
    ensures Closes(Emitted(s, Close(worker)), c) + Due(Step(s, Close(worker)), c) == Due(s, c)
  {
  }

  lemma NoCloseEmitted(s: State, a: Action, c: Conn)
    requires Enabled(s, a) && !a.Close? && !a.Reject?
    ensures Closes(Emitted(s, a), c) == 0
  {
  }

  lemma SocketCloses(s: State, a: Action, c: Conn)
    requires SocketsOwned(s) && Enabled(s, a) && (a.Accept? || a.Reject? || a.Start? || a.Reap?)
    ensures Closes(Emitted(s, a), c) + Due(Step(s, a), c) == Due(s, c)
  {
    if a.Accept? || a.Reject? { } else { WorkerCloses(s, a, c); }
  }

  lemma WorkerCloses(s: State, a: Action, c: Conn)
    requires SocketsOwned(s) && Enabled(s, a) && (a.Start? || a.Reap?)
    ensures Closes(Emitted(s, a), c) + Due(Step(s, a), c) == Due(s, c)
  {
  }

  lemma {:induction false} RunCloses(s: State, steps: seq<Action>, c: Conn)
    requires Inv(s) && IsRun(s, steps)
    ensures Closes(Trace(s, steps), c) + Due(After(s, steps), c) == Due(s, c)
    decreases steps
  {
    if steps != [] {
      var s1 := Step(s, steps[0]);
      StepKeepsInv(s, steps[0]);
      StepCloses(s, steps[0], c);
      RunCloses(s1, steps[1..], c);
      ClosesConcat(Emitted(s, steps[0]), Trace(s1, steps[1..]), c);
    }
  }

  /** Every accepted connection is closed exactly once: not yet while it is live, once for ever after. */
  lemma EachConnectionIsClosedOnce(s: State, steps: seq<Action>, c: Conn)
    requires Initial(s) && IsRun(s, steps)
    ensures Closes(Trace(s, steps), c) ==
            if c < After(s, steps).next && !IsLive(After(s, steps), c) then 1 else 0
  {
    InitialInv(s);
    RunCloses(s, steps, c);
  }

  // ---------------------------------------------------- capacity and fencing

  /** Occupancy never exceeds the maximum, and whoever plays uncancelled carries the current generation. */
  lemma CapacityAndGeneration(s: State, steps: seq<Action>)
    requires Initial(s) && IsRun(s, steps)
    ensures var t := After(s, steps);
            && |t.leases| <= t.maxSessions
            && forall l | l in t.leases && !t.leases[l].cancelled && !Pending(t, l) ::
                 t.leases[l].generation == t.fence.generation
  {
    InitialInv(s);
    RunKeepsInv(s, steps);
  }

  function Cleanups(steps: seq<Action>): nat {
    if steps == [] then 0 else (if steps[0].CleanBegin? then 1 else 0) + Cleanups(steps[1..])
  }

  lemma {:induction false} GenerationsShift(f: R.Fence, n: nat)
    ensures R.Generations(R.NextGeneration(f), n) == R.Generations(f, n + 1)
  {
    if n > 0 { GenerationsShift(f, n - 1); }
  }

  lemma StepMovesFence(s: State, a: Action)
    requires Enabled(s, a)
    ensures Step(s, a).fence == if a.CleanBegin? then R.NextGeneration(s.fence) else s.fence
  {
  }

  lemma {:induction false} RunMovesFence(s: State, steps: seq<Action>)
    requires IsRun(s, steps)
    ensures After(s, steps).fence == R.Generations(s.fence, Cleanups(steps))
    decreases steps
  {
    if steps != [] {
      var s1 := Step(s, steps[0]);
      StepMovesFence(s, steps[0]);
      RunMovesFence(s1, steps[1..]);
      if steps[0].CleanBegin? { GenerationsShift(s.fence, Cleanups(steps[1..])); }
    }
  }

  /**
   * A token handed out before a run is accepted after it exactly when the run held no
   * cleanup, up to the width of the counter; an empty one only before any cleanup.
   */
  lemma TokensAreFencedOff(s: State, steps: seq<Action>)
    requires Inv(s) && IsRun(s, steps)
    ensures R.Accepts(After(s, steps).fence, s.fence.generation) <==> Cleanups(steps) % R.TWO64 == 0
    ensures R.Accepts(After(s, steps).fence, []) <==> Cleanups(steps) == 0 && !s.fence.cleaned
  {
    RunMovesFence(s, steps);
    R.TokenFate(s.fence, Cleanups(steps));
  }

  // ------------------------------------------------------------ cancellation

  /** The connection has had its lease: it holds none that is good, and will not get another. */
  predicate Spent(s: State, l: Conn) {
    && l < s.next && !(s.acceptor.Accepted? && s.acceptor.conn == l)
    && (l in s.leases ==> s.leases[l].cancelled)
    && (l in s.workers ==> !s.workers[l].phase.Serving? && !s.workers[l].phase.Reserving?)
  }

  lemma StepKeepsSpent(s: State, a: Action, l: Conn)
    requires Inv(s) && Enabled(s, a) && Spent(s, l)
    ensures Spent(Step(s, a), l)
  {
    if Moves(a) {
      StepMovesOne(s, a);
      MoveKeepsSpent(s, a, l, Step(s, a));
    } else if a.Start? || a.Reap? {
    } else {
      StepMovesNone(s, a);
    }
  }

  lemma MoveKeepsSpent(s: State, a: Action, l: Conn, s': State)
    requires Enabled(s, a) && Moves(a) && Spent(s, l)
    requires s' == Step(s, a) && OneMoved(s, s', a.c) && s'.acceptor == s.acceptor
    ensures Spent(s', l)
  {
    if OfCleanup(a) {
      CleanupKeepsSpent(s, a, l, s');
    } else if OfReservation(a) {
      ReservationKeepsSpent(s, a, l, s');
    } else {
      RequestIsQuiet(s, a, s');
      NeverServesAgain(s, a, s');
    }
  }

  lemma CleanupKeepsSpent(s: State, a: Action, l: Conn, s': State)
    requires Enabled(s, a) && OfCleanup(a) && Spent(s, l)
    requires s' == Step(s, a) && OneMoved(s, s', a.c) && s'.acceptor == s.acceptor
    ensures Spent(s', l)
  {
    CleanerNeverServes(s, a, s');
    if a.CleanCancel? { CancelKeepsSpent(s, a.c, l); }
  }

  lemma CleanerNeverServes(s: State, a: Action, s': State)
    requires Enabled(s, a) && OfCleanup(a) && s' == Step(s, a) && OneMoved(s, s', a.c)
    ensures !s'.workers[a.c].phase.Serving? && !s'.workers[a.c].phase.Reserving? && s'.next == s.next
    ensures !a.CleanCancel? ==> s'.leases == s.leases
  {
    if a.CleanBegin? || a.CleanEnd? { } else { SweeperStaysOpen(s, a, s'); }
  }

  lemma CancelKeepsSpent(s: State, c: Conn, l: Conn)
    requires Enabled(s, CleanCancel(c)) && Spent(s, l)
    ensures l in Step(s, CleanCancel(c)).leases ==> Step(s, CleanCancel(c)).leases[l].cancelled
  {
  }

  lemma ReservationKeepsSpent(s: State, a: Action, l: Conn, s': State)
    requires Enabled(s, a) && OfReservation(a) && Spent(s, l)
    requires s' == Step(s, a) && OneMoved(s, s', a.c) && s'.acceptor == s.acceptor
    ensures Spent(s', l)
  {
  }

  lemma NeverServesAgain(s: State, a: Action, s': State)
    requires Enabled(s, a) && Moves(a) && !OfCleanup(a) && !OfReservation(a)
    requires s' == Step(s, a) && OneMoved(s, s', a.c)
    ensures !s'.workers[a.c].phase.Serving?
  {
  }

  lemma {:induction false} RunKeepsSpent(s: State, steps: seq<Action>, l: Conn)
    requires Inv(s) && IsRun(s, steps) && Spent(s, l)
    ensures Spent(After(s, steps), l)
    decreases steps
  {
    if steps != [] {
      StepKeepsInv(s, steps[0]);
      StepKeepsSpent(s, steps[0], l);
      RunKeepsSpent(Step(s, steps[0]), steps[1..], l);
    }
  }

  /** Cancellation is never undone: the lease stays cancelled until it is gone, and it is gone for good. */
  lemma CancellationIsPermanent(s: State, steps: seq<Action>, l: Conn)
    requires Inv(s) && IsRun(s, steps) && l in s.leases && s.leases[l].cancelled
    ensures var t := After(s, steps); l in t.leases ==> t.leases[l].cancelled
  {
    assert LeaseFits(s, l);
    RunKeepsSpent(s, steps, l);
  }

  /** When a cleanup ends, it has cancelled every session there is. */
  lemma CleanupCancelsAll(s: State, c: Conn)
    requires Inv(s) && Enabled(s, CleanEnd(c))
    ensures forall l | l in s.leases :: s.leases[l].cancelled
  {
    assert s.lock == Some(c);
  }

  /** What `cleaning()` counts. */
  function Cleaning(s: State): set<Conn> {
    set l | l in s.leases && s.leases[l].cancelled
  }

  /**
   * Once `cleaning()` is 0 after a cleanup, every session the cleanup met has given back
   * its lease and destroyed its device session and FFmpeg processes, for good.
   */
  lemma CleanedSessionsAreGone(s: State, c: Conn, steps: seq<Action>, l: Conn)
    requires Inv(s) && Enabled(s, CleanEnd(c)) && l in s.leases && IsRun(s, steps)
    requires Cleaning(After(s, steps)) == {}
    ensures var t := After(s, steps); l !in t.leases && (l in t.workers ==> t.workers[l].held == NONE)
  {
    var t := After(s, steps);
    CleanupCancelsAll(s, c);
    CancellationIsPermanent(s, steps, l);
    RunKeepsInv(s, steps);
    assert l in t.leases ==> l in Cleaning(t);
  }

  // ------------------------------------------------- announce, then disconnect

  /** Every disconnection by a cleanup comes after the reason was published. */
  predicate Announced(trace: seq<Event>) {
    forall i | 0 <= i < |trace| ::
      trace[i].ShutdownCall? && trace[i].cleanup ==> ReasonPublished(trace[i].conn) in trace[..i]
  }

  /** The session in the hands of the running cleanup has been announced. */
  predicate InHands(s: State, trace: seq<Event>) {
    forall c | c in s.workers && s.workers[c].phase.Sweeping? && s.workers[c].phase.stage != Between ::
      ReasonPublished(s.workers[c].phase.stage.of) in trace
  }

  lemma StepAnnounces(s: State, a: Action, past: seq<Event>)
    requires Enabled(s, a) && Announced(past) && InHands(s, past)
    ensures Announced(past + Emitted(s, a)) && InHands(Step(s, a), past + Emitted(s, a))
  {
    EmittedAnnounces(s, a, past);
    if Moves(a) {
      StepMovesOne(s, a);
      MoveStaysInHands(s, a, past, Step(s, a));
    } else if a.Start? || a.Reap? {
    } else {
      StepMovesNone(s, a);
    }
  }

  lemma EmittedAnnounces(s: State, a: Action, past: seq<Event>)
    requires Enabled(s, a) && Announced(past) && InHands(s, past)
    ensures Announced(past + Emitted(s, a))
  {
    var trace := past + Emitted(s, a);
    assert |Emitted(s, a)| <= 1;
    assert forall i | 0 <= i < |past| :: trace[..i] == past[..i];
    assert trace[..|past|] == past;
  }

  lemma MoveStaysInHands(s: State, a: Action, past: seq<Event>, s': State)
    requires Enabled(s, a) && Moves(a) && InHands(s, past) && s' == Step(s, a) && OneMoved(s, s', a.c)
    ensures InHands(s', past + Emitted(s, a))
  {
    if OfCleanup(a) {
      CleanupStaysInHands(s, a, past, s');
    } else if OfReservation(a) {
      assert !s'.workers[a.c].phase.Sweeping?;
    } else {
      RequestIsQuiet(s, a, s');
    }
  }

  lemma CleanupStaysInHands(s: State, a: Action, past: seq<Event>, s': State)
    requires Enabled(s, a) && OfCleanup(a) && InHands(s, past) && s' == Step(s, a) && OneMoved(s, s', a.c)
    ensures InHands(s', past + Emitted(s, a))
  {
    if a.CleanBegin? || a.CleanEnd? { } else { SweeperStaysOpen(s, a, s'); }
  }

  lemma {:induction false} RunAnnounces(s: State, steps: seq<Action>, past: seq<Event>)
    requires IsRun(s, steps) && Announced(past) && InHands(s, past)
    ensures Announced(past + Trace(s, steps))
    decreases steps
  {
    if steps == [] {
      assert past + [] == past;
    } else {
      var now := Emitted(s, steps[0]);
      var s1 := Step(s, steps[0]);
      StepAnnounces(s, steps[0], past);
      RunAnnounces(s1, steps[1..], past + now);
      Assoc(past, now, Trace(s1, steps[1..]));
    }
  }

  /** In every run, a cleanup publishes the reason before it disconnects the player. */
  lemma ReasonBeforeDisconnect(s: State, steps: seq<Action>)
    requires Initial(s) && IsRun(s, steps)
    ensures Announced(Trace(s, steps))
  {
    RunAnnounces(s, steps, []);
    assert [] + Trace(s, steps) == Trace(s, steps);
  }
}
