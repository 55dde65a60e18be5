// What players learn about the end of their session, over whole runs: a cleanup
// that has marked a session is not overwritten, and a session that no cleanup
// touched does not report one, provided playing sessions have distinct ids.
module ProtocolStatuses {
  import opened Bytes
  import opened SessionStatus
  import opened ConnectionProtocol
  import opened ProtocolRuns
  import R = SessionRegistry

  /** The step reserves a session with this id. */
  predicate Reserves(s: State, a: Action, sid: string) {
    a.ReserveBegin? && a.sid == sid && R.Admit(s.fence, a.token, |s.leases|, s.maxSessions) == R.Admitted
  }

  /** Nobody reserves the id during the run, and its entry never is past its ten minutes. */
  predicate Undisturbed(s: State, steps: seq<Action>, sid: string)
    requires IsRun(s, steps)
    decreases steps
  {
    && (sid in s.statuses ==> !Expired(s.statuses[sid], s.now))
    && (steps == [] ||
        (!Reserves(s, steps[0], sid) && Undisturbed(Step(s, steps[0]), steps[1..], sid)))
  }

  lemma StepKeepsSettled(s: State, a: Action, sid: string)
    requires Enabled(s, a) && Settled(s.statuses, sid)
    requires !Expired(s.statuses[sid], s.now) && !Reserves(s, a, sid)
    ensures Settled(Step(s, a).statuses, sid)
  {
    if a.WriteStatus? {
      CleanupIsSticky(s.statuses, sid, s.workers[a.c].sid, s.workers[a.c].phase.reason, a.metrics, s.now);
    } else if a.CleanLook? {
      CleanupIsSticky(s.statuses, sid, s.leases[a.l].sid, ManualCleanup, NOTHING, s.now);
    } else if a.ReserveBegin? || a.GetStatus? {
      assert sid in Kept(s.statuses, s.now);
    } else if a.FirstFrame? || a.OutputReady? {
    } else {
      StatusesStay(s, a);
    }
  }

  predicate TouchesStatuses(a: Action) {
    a.ReserveBegin? || a.OutputReady? || a.WriteStatus? || a.CleanLook? || a.GetStatus? || a.FirstFrame?
  }

  lemma StatusesStay(s: State, a: Action)
    requires Enabled(s, a) && !TouchesStatuses(a)
    ensures Step(s, a).statuses == s.statuses
  {
    if !Moves(a) {
      StatusesStayServing(s, a);
    } else if OfCleanup(a) {
      StatusesStayCleaning(s, a);
    } else if a.ReserveCommit? || a.ReserveAbort? || a.ReserveLeak? || a.Release? {
    } else if a.Return? || a.Close? || a.StoreDone? {
    } else {
      StatusesStayPlaying(s, a);
    }
  }

  lemma StatusesStayServing(s: State, a: Action)
    requires Enabled(s, a) && !TouchesStatuses(a) && !Moves(a)
    ensures Step(s, a).statuses == s.statuses
  {
  }

  lemma StatusesStayCleaning(s: State, a: Action)
    requires Enabled(s, a) && !TouchesStatuses(a) && OfCleanup(a)
    ensures Step(s, a).statuses == s.statuses
  {
    match a {
      case CleanBegin(c) => assert Step(s, CleanBegin(c)).statuses == s.statuses;
      case CleanCancel(c) => assert Step(s, CleanCancel(c)).statuses == s.statuses;
      case _ =>
    }
  }

  lemma StatusesStayPlaying(s: State, a: Action)
    requires Enabled(s, a) && (a.Acquire? || a.Drop? || a.ReadCancelled? || a.Unwind?)
    ensures Step(s, a).statuses == s.statuses
  {
  }

  lemma {:induction false} RunKeepsSettled(s: State, steps: seq<Action>, sid: string)
    requires IsRun(s, steps) && Settled(s.statuses, sid) && Undisturbed(s, steps, sid)
    ensures Settled(After(s, steps).statuses, sid)
    decreases steps
  {
    if steps != [] {
      StepKeepsSettled(s, steps[0], sid);
      RunKeepsSettled(Step(s, steps[0]), steps[1..], sid);
    }
  }

  /**
   * Once a cleanup has marked a playing session, its id reports the cleanup in every
   * continuation, whatever the session's own thread had already decided to report,
   * until the entry expires or the id is reserved again.
   */
  lemma MarkedStaysMarked(s: State, c: Conn, l: Conn, steps: seq<Action>)
    requires Enabled(s, CleanLook(c, l)) && !s.leases[l].cancelled
    requires IsRun(Step(s, CleanLook(c, l)), steps)
    requires Undisturbed(Step(s, CleanLook(c, l)), steps, s.leases[l].sid)
    ensures Settled(After(Step(s, CleanLook(c, l)), steps).statuses, s.leases[l].sid)
  {
    CleanupTakes(s.statuses, s.leases[l].sid, NOTHING, s.now);
    RunKeepsSettled(Step(s, CleanLook(c, l)), steps, s.leases[l].sid);
  }

  // -------------------------------------------------- no cleanup out of thin air

  predicate BeingMarked(s: State, l: Conn) {
    exists c | c in s.workers :: s.workers[c].phase.Sweeping? && s.workers[c].phase.stage == Marked(l)
  }

  /** Who occupies an id: a registered session, leaked ones included, or a reservation under way. */
  predicate Occupies(s: State, m: Conn) {
    m in s.leases || (m in s.workers && s.workers[m].phase.Reserving?)
  }

  function IdOf(s: State, m: Conn): string
    requires Occupies(s, m)
  {
    if m in s.leases then s.leases[m].sid else s.workers[m].sid
  }

  /** No cleanup has come to this session. */
  predicate Untouched(s: State, m: Conn) {
    Occupies(s, m) && (m in s.leases ==> !s.leases[m].cancelled && !BeingMarked(s, m))
  }

  /** The session's id reports a cleanup that never came to it. */
  predicate ReportsFalsely(s: State, m: Conn) {
    Untouched(s, m) && Settled(s.statuses, IdOf(s, m))
  }

  ghost predicate Truthful(s: State) {
    forall m: Conn :: !ReportsFalsely(s, m)
  }

  ghost predicate PublishersHonest(s: State) {
    forall c | c in s.workers && s.workers[c].phase == Publishing(ManualCleanup) ::
      c in s.leases && s.leases[c].cancelled
  }

  ghost predicate Honest(s: State) {
    Truthful(s) && PublishersHonest(s)
  }

  /** The step records a cleanup under an id that m, which no cleanup has come to, occupies. */
  predicate MarksForeign(s: State, a: Action, m: Conn)
    requires Enabled(s, a)
  {
    Untouched(s, m) &&
    ((a.WriteStatus? && s.workers[a.c].phase.reason == ManualCleanup && s.workers[a.c].sid == IdOf(s, m)) ||
     (a.CleanLook? && a.l != m && !s.leases[a.l].cancelled && s.leases[a.l].sid == IdOf(s, m)))
  }

  /** Only a marking, or a session's own publication, can make an id report a cleanup. */
  lemma SettledOnlyBy(s: State, a: Action, sid: string)
    requires Enabled(s, a) && Settled(Step(s, a).statuses, sid) && !Settled(s.statuses, sid)
    ensures (a.WriteStatus? && s.workers[a.c].sid == sid && s.workers[a.c].phase.reason == ManualCleanup)
         || (a.CleanLook? && s.leases[a.l].sid == sid && !s.leases[a.l].cancelled)
  {
    if !TouchesStatuses(a) { StatusesStay(s, a); }
  }

  lemma ReservingClears(s: State, a: Action, sid: string)
    requires Enabled(s, a) && Reserves(s, a, sid)
    ensures !Settled(Step(s, a).statuses, sid)
  {
  }

  lemma PublishersStayHonest(s: State, a: Action)
    requires Inv(s) && PublishersHonest(s) && Enabled(s, a)
    ensures PublishersHonest(Step(s, a))
  {
    var s' := Step(s, a);
    forall c | c in s'.workers && s'.workers[c].phase == Publishing(ManualCleanup)
      ensures c in s'.leases && s'.leases[c].cancelled
    {
      PublisherStaysHonest(s, a, c);
    }
  }

  lemma PublisherStaysHonest(s: State, a: Action, c: Conn)
    requires Inv(s) && PublishersHonest(s) && Enabled(s, a)
    requires c in Step(s, a).workers && Step(s, a).workers[c].phase == Publishing(ManualCleanup)
    ensures c in Step(s, a).leases && Step(s, a).leases[c].cancelled
  {
    if a.ReadCancelled? && a.c == c {
    } else {
      if Moves(a) { StepMovesOne(s, a); }
      PublisherWasThere(s, a, c);
      LeaseStaysCancelled(s, a, c);
    }
  }

  lemma PublisherWasThere(s: State, a: Action, c: Conn)
    requires Enabled(s, a) && c in Step(s, a).workers && Step(s, a).workers[c].phase == Publishing(ManualCleanup)
    requires !(a.ReadCancelled? && a.c == c)
    ensures c in s.workers && s.workers[c].phase == Publishing(ManualCleanup)
  {
    if Moves(a) {
      StepMovesOne(s, a);
      if a.c == c { OnlyReadingPublishes(s, a); }
    } else if a.Start? || a.Reap? {
    } else {
      StepMovesNone(s, a);
    }
  }

  lemma OnlyReadingPublishes(s: State, a: Action)
    requires Enabled(s, a) && Moves(a) && !a.ReadCancelled?
    ensures a.c in Step(s, a).workers
    ensures Step(s, a).workers[a.c].phase.Publishing? ==> Step(s, a).workers[a.c].phase == s.workers[a.c].phase
  {
    StepMovesOne(s, a);
    if OfCleanup(a) { CleanerStaysOut(s, a); }
  }

  lemma CleanerStaysOut(s: State, a: Action)
    requires Enabled(s, a) && OfCleanup(a)
    ensures a.c in Step(s, a).workers && !HoldsLease(Step(s, a).workers[a.c].phase)
  {
    CleanupMovesOne(s, a);
    if a.CleanBegin? || a.CleanEnd? { } else { SweeperStaysOpen(s, a, Step(s, a)); }
  }

  lemma LeaseStaysCancelled(s: State, a: Action, c: Conn)
    requires Enabled(s, a) && c in s.leases && s.leases[c].cancelled
    requires c in s.workers && s.workers[c].phase.Publishing?
    ensures c in Step(s, a).leases && Step(s, a).leases[c].cancelled
  {
    if !ChangesLeases(a) { LeasesStay(s, a); }
  }

  lemma ReserverCameFrom(s: State, a: Action, c: Conn)
    requires Enabled(s, a) && c in Step(s, a).workers && Step(s, a).workers[c].phase.Reserving?
    ensures if a.ReserveBegin? && a.c == c then Reserves(s, a, a.sid) && Step(s, a).workers[c].sid == a.sid
            else c in s.workers && s.workers[c].phase.Reserving? && Step(s, a).workers[c].sid == s.workers[c].sid
  {
    if Moves(a) {
      StepMovesOne(s, a);
      if a.c == c { OnlyBeginningReserves(s, a); }
    } else if a.Start? || a.Reap? {
    } else {
      StepMovesNone(s, a);
    }
  }

  lemma OnlyBeginningReserves(s: State, a: Action)
    requires Enabled(s, a) && Moves(a)
    requires a.c in Step(s, a).workers && Step(s, a).workers[a.c].phase.Reserving?
    ensures a.ReserveBegin? && Reserves(s, a, a.sid) && Step(s, a).workers[a.c].sid == a.sid
  {
    StepMovesOne(s, a);
    if OfCleanup(a) {
      CleanerNeverServes(s, a, Step(s, a));
    } else if !OfReservation(a) {
      RequestIsQuiet(s, a, Step(s, a));
    }
  }

  lemma LeaseWasThere(s: State, a: Action, l: Conn)
    requires Enabled(s, a) && !((a.ReserveCommit? || a.ReserveLeak?) && a.c == l)
    requires l in Step(s, a).leases && !Step(s, a).leases[l].cancelled
    ensures l in s.leases && !s.leases[l].cancelled && Step(s, a).leases[l].sid == s.leases[l].sid
  {
    if !ChangesLeases(a) { LeasesStay(s, a); }
  }

  /** Who is marked stays marked until it is cancelled. */
  lemma NotMarkedBefore(s: State, a: Action, l: Conn)
    requires Inv(s) && Enabled(s, a) && l in s.leases && !s.leases[l].cancelled
    requires l in Step(s, a).leases && !Step(s, a).leases[l].cancelled && !BeingMarked(Step(s, a), l)
    ensures !BeingMarked(s, l) && !(a.CleanLook? && a.l == l)
  {
    if a.CleanLook? && a.l == l { MarkingShows(s, a.c, l); }
    if BeingMarked(s, l) {
      var c :| c in s.workers && s.workers[c].phase.Sweeping? && s.workers[c].phase.stage == Marked(l);
      MarkerStays(s, a, c, l);
    }
  }

  lemma MarkingShows(s: State, c: Conn, l: Conn)
    requires Enabled(s, CleanLook(c, l)) && !s.leases[l].cancelled
    ensures BeingMarked(Step(s, CleanLook(c, l)), l)
  {
    assert Step(s, CleanLook(c, l)).workers[c].phase.stage == Marked(l);
  }

  lemma MarkerStays(s: State, a: Action, c: Conn, l: Conn)
    requires Inv(s) && Enabled(s, a)
    requires c in s.workers && s.workers[c].phase.Sweeping? && s.workers[c].phase.stage == Marked(l)
    requires l in Step(s, a).leases && !Step(s, a).leases[l].cancelled
    ensures BeingMarked(Step(s, a), l)
  {
    MarkerMoves(s, a, c, l);
    assert Step(s, a).workers[c].phase.stage == Marked(l);
  }

  lemma MarkerMoves(s: State, a: Action, c: Conn, l: Conn)
    requires SocketsOwned(s) && Enabled(s, a)
    requires c in s.workers && s.workers[c].phase.Sweeping? && s.workers[c].phase.stage == Marked(l)
    requires l in Step(s, a).leases && !Step(s, a).leases[l].cancelled
    ensures c in Step(s, a).workers && Step(s, a).workers[c].phase == s.workers[c].phase
  {
    if Moves(a) {
      StepMovesOne(s, a);
      if a.c == c { MarkerCancelsNext(s, a, l); }
    } else if a.Start? || a.Reap? {
    } else {
      StepMovesNone(s, a);
    }
  }

  lemma MarkerCancelsNext(s: State, a: Action, l: Conn)
    requires Enabled(s, a) && Moves(a) && s.workers[a.c].phase.Sweeping? && s.workers[a.c].phase.stage == Marked(l)
    ensures l in Step(s, a).leases && Step(s, a).leases[l].cancelled
  {
    assert a.CleanCancel?;
  }

  /**
   * Where an untouched session of the next state comes from: it was untouched under the same id, or is just being
   * reserved.
   */
  lemma UntouchedBefore(s: State, a: Action, m: Conn)
    requires Inv(s) && Enabled(s, a) && Untouched(Step(s, a), m)
    ensures (Untouched(s, m) && IdOf(s, m) == IdOf(Step(s, a), m) &&
             !(a.CleanLook? && a.l == m && !s.leases[m].cancelled))
         || (Reserves(s, a, IdOf(Step(s, a), m)) && a.c == m)
  {
    if m in Step(s, a).leases {
      LeaseBefore(s, a, m);
    } else {
      ReserverCameFrom(s, a, m);
      if !(a.ReserveBegin? && a.c == m) { ReserverBefore(s, a, m); }
    }
  }

  lemma LeaseBefore(s: State, a: Action, m: Conn)
    requires Inv(s) && Enabled(s, a) && Untouched(Step(s, a), m) && m in Step(s, a).leases
    ensures Untouched(s, m) && IdOf(s, m) == IdOf(Step(s, a), m)
    ensures !(a.CleanLook? && a.l == m && !s.leases[m].cancelled)
  {
    if (a.ReserveCommit? || a.ReserveLeak?) && a.c == m {
      assert m in s.leases ==> LeaseFits(s, m);
    } else {
      LeaseWasThere(s, a, m);
      NotMarkedBefore(s, a, m);
    }
  }

  lemma ReserverBefore(s: State, a: Action, m: Conn)
    requires Enabled(s, a) && m !in Step(s, a).leases
    requires m in s.workers && s.workers[m].phase.Reserving?
    ensures Untouched(s, m) && IdOf(s, m) == s.workers[m].sid && !(a.CleanLook? && a.l == m)
  {
    if m in s.leases {
      if Moves(a) { LeaseOfOtherStays(s, a, m); } else { LeasesStay(s, a); }
    }
  }

  /** A foreign mark makes the session it hits report falsely at once. */
  lemma ForeignMarkShows(s: State, a: Action, m: Conn)
    requires Inv(s) && Enabled(s, a) && MarksForeign(s, a, m)
    ensures ReportsFalsely(Step(s, a), m)
  {
    var s' := Step(s, a);
    StepMovesOne(s, a);
    if a.WriteStatus? {
      CleanupTakes(s.statuses, IdOf(s, m), a.metrics, s.now);
    } else {
      CleanupTakes(s.statuses, IdOf(s, m), NOTHING, s.now);
    }
    assert s'.statuses == if a.WriteStatus? then Ended(s.statuses, IdOf(s, m), ManualCleanup, a.metrics, s.now)
                          else Ended(s.statuses, IdOf(s, m), ManualCleanup, NOTHING, s.now);
    StaysUntouched(s, a, m);
  }

  lemma StaysUntouched(s: State, a: Action, m: Conn)
    requires LeasesHeld(s) && Enabled(s, a) && MarksForeign(s, a, m)
    ensures Untouched(Step(s, a), m) && IdOf(Step(s, a), m) == IdOf(s, m)
  {
    var s' := Step(s, a);
    StepMovesOne(s, a);
    MarkersWereThere(s, s', a.c, m);
  }

  /** Moving a worker elsewhere than to marking m makes nobody mark m. */
  lemma MarkersWereThere(s: State, s': State, moved: Conn, m: Conn)
    requires OneMoved(s, s', moved)
    requires s'.workers[moved].phase.Sweeping? ==> s'.workers[moved].phase.stage != Marked(m)
    ensures BeingMarked(s', m) ==> BeingMarked(s, m)
  {
    if BeingMarked(s', m) {
      var c :| c in s'.workers && s'.workers[c].phase.Sweeping? && s'.workers[c].phase.stage == Marked(m);
      assert s.workers[c] == s'.workers[c];
    }
  }

  /** A step keeps every report true exactly if it marks nobody's id but its own. */
  lemma StepIsTruthfulIff(s: State, a: Action)
    requires Inv(s) && Honest(s) && Enabled(s, a)
    ensures Truthful(Step(s, a)) <==> forall m: Conn :: !MarksForeign(s, a, m)
  {
    forall m: Conn | MarksForeign(s, a, m)
      ensures ReportsFalsely(Step(s, a), m)
    {
      ForeignMarkShows(s, a, m);
    }
    forall m: Conn | ReportsFalsely(Step(s, a), m)
      ensures MarksForeign(s, a, m)
    {
      FalseReportIsForeignMark(s, a, m);
    }
  }

  lemma FalseReportIsForeignMark(s: State, a: Action, m: Conn)
    requires Inv(s) && Honest(s) && Enabled(s, a) && ReportsFalsely(Step(s, a), m)
    ensures MarksForeign(s, a, m)
  {
    var id := IdOf(Step(s, a), m);
    UntouchedBefore(s, a, m);
    if Reserves(s, a, id) { ReservingClears(s, a, id); }
    assert !ReportsFalsely(s, m);
    SettledOnlyBy(s, a, id);
  }

  ghost predicate AlwaysTruthful(s: State, steps: seq<Action>)
    requires IsRun(s, steps)
    decreases steps
  {
    Truthful(s) && (steps == [] || AlwaysTruthful(Step(s, steps[0]), steps[1..]))
  }

  /** No step of the run records a cleanup under the id of a session that no cleanup has come to. */
  ghost predicate NeverMarksForeign(s: State, steps: seq<Action>)
    requires IsRun(s, steps)
    decreases steps
  {
    steps == [] ||
    ((forall m: Conn :: !MarksForeign(s, steps[0], m)) && NeverMarksForeign(Step(s, steps[0]), steps[1..]))
  }

  /**
   * Along a whole run, no session that no cleanup has come to ever reports one, if and only
   * if no marking and no late publication hits an id that such a session shares.
   */
  lemma {:induction false} TruthfulIff(s: State, steps: seq<Action>)
    requires Inv(s) && Honest(s) && IsRun(s, steps)
    ensures AlwaysTruthful(s, steps) <==> NeverMarksForeign(s, steps)
    decreases steps
  {
    if steps != [] {
      var s1 := Step(s, steps[0]);
      StepIsTruthfulIff(s, steps[0]);
      StepKeepsInv(s, steps[0]);
      PublishersStayHonest(s, steps[0]);
      if Truthful(s1) {
        TruthfulIff(s1, steps[1..]);
      } else {
        NotTruthfulNow(s1, steps[1..]);
      }
    }
  }

  lemma NotTruthfulNow(s: State, steps: seq<Action>)
    requires IsRun(s, steps) && !Truthful(s)
    ensures !AlwaysTruthful(s, steps)
  {
  }

  /** The sessions of the registry, and those being reserved, have distinct ids. The registry does not enforce it. */
  ghost predicate Distinct(s: State) {
    forall c: Conn, d: Conn | Occupies(s, c) && Occupies(s, d) && c != d :: IdOf(s, c) != IdOf(s, d)
  }

  lemma DistinctMarksOwn(s: State, a: Action, m: Conn)
    requires Inv(s) && PublishersHonest(s) && Distinct(s) && Enabled(s, a)
    ensures !MarksForeign(s, a, m)
  {
    if a.WriteStatus? {
      DistinctPublishesOwn(s, a, m);
    } else if a.CleanLook? {
      DistinctLooksAtOwn(s, a, m);
    }
  }

  lemma DistinctLooksAtOwn(s: State, a: Action, m: Conn)
    requires Distinct(s) && Enabled(s, a) && a.CleanLook?
    ensures !MarksForeign(s, a, m)
  {
    assert Occupies(s, a.l);
  }

  lemma DistinctPublishesOwn(s: State, a: Action, m: Conn)
    requires LeasesHeld(s) && PublishersHonest(s) && Distinct(s) && Enabled(s, a) && a.WriteStatus?
    ensures !MarksForeign(s, a, m)
  {
    assert a.c in s.leases && LeaseFits(s, a.c);
    assert Occupies(s, a.c) && IdOf(s, a.c) == s.workers[a.c].sid;
  }

  /** Ids are distinct at every moment of the run. */
  ghost predicate AlwaysDistinct(s: State, steps: seq<Action>)
    requires IsRun(s, steps)
    decreases steps
  {
    Distinct(s) && (steps == [] || AlwaysDistinct(Step(s, steps[0]), steps[1..]))
  }

  /** With distinct ids throughout, no session that no cleanup has come to reports one. */
  lemma {:induction false} NoFalseCleanup(s: State, steps: seq<Action>)
    requires Inv(s) && Honest(s) && IsRun(s, steps) && AlwaysDistinct(s, steps)
    ensures AlwaysTruthful(s, steps)
    decreases steps
  {
    if steps != [] {
      var a := steps[0];
      forall m: Conn
        ensures !MarksForeign(s, a, m)
      {
        DistinctMarksOwn(s, a, m);
      }
      StepIsTruthfulIff(s, a);
      StepKeepsInv(s, a);
      PublishersStayHonest(s, a);
      NoFalseCleanup(Step(s, a), steps[1..]);
    }
  }

  lemma InitialHonest(s: State)
    requires Initial(s)
    ensures Inv(s) && Honest(s)
  {
    InitialInv(s);
    forall m: Conn
      ensures !ReportsFalsely(s, m)
    {
    }
  }

  // --------------------------------------------------- what a shared id costs

  /**
   * The first look of a cleanup, at l, makes another untouched session m report a
   * cleanup that has not come to it if and only if the two share their id.
   */
  lemma FirstLookReportsFalselyIff(s: State, c: Conn, l: Conn, m: Conn)
    requires Inv(s) && Enabled(s, CleanBegin(c)) && l != m
    requires l in s.leases && !s.leases[l].cancelled && m in s.leases && !s.leases[m].cancelled
    requires !Settled(s.statuses, s.leases[m].sid)
    ensures var steps := [CleanBegin(c), CleanLook(c, l)];
            IsRun(s, steps) && (ReportsFalsely(After(s, steps), m) <==> s.leases[l].sid == s.leases[m].sid)
  {
    var s1 := Step(s, CleanBegin(c));
    BeganUntouched(s, c, m);
    BeganLooks(s, c, l);
    TwoSteps(s, CleanBegin(c), CleanLook(c, l));
    if s.leases[l].sid == s.leases[m].sid {
      StepKeepsInv(s, CleanBegin(c));
      ForeignMarkShows(s1, CleanLook(c, l), m);
    } else if Settled(Step(s1, CleanLook(c, l)).statuses, s.leases[m].sid) {
      SettledOnlyBy(s1, CleanLook(c, l), s.leases[m].sid);
    }
  }

  lemma BeganUntouched(s: State, c: Conn, m: Conn)
    requires Inv(s) && Enabled(s, CleanBegin(c)) && m in s.leases && !s.leases[m].cancelled
    ensures var t := Step(s, CleanBegin(c)); Untouched(t, m) && t.leases == s.leases && t.statuses == s.statuses
  {
    NobodyMarks(s, m);
    BeganKeeps(s, c, m, Step(s, CleanBegin(c)));
  }

  lemma BeganKeeps(s: State, c: Conn, m: Conn, t: State)
    requires Enabled(s, CleanBegin(c)) && t == Step(s, CleanBegin(c))
    ensures t.leases == s.leases && t.statuses == s.statuses && (BeingMarked(t, m) ==> BeingMarked(s, m))
  {
    CleanupMovesOne(s, CleanBegin(c));
    MarkersWereThere(s, t, c, m);
  }

  lemma BeganLooks(s: State, c: Conn, l: Conn)
    requires Enabled(s, CleanBegin(c)) && l in s.leases
    ensures Enabled(Step(s, CleanBegin(c)), CleanLook(c, l))
  {
  }

  lemma NobodyMarks(s: State, m: Conn)
    requires LockHeld(s) && s.lock == None
    ensures !BeingMarked(s, m)
  {
  }

  /**
   * The late publication of a session l, whatever reason it was going to give, makes another untouched
   * session m report a cleanup if and only if l was cancelled and the two share their id.
   */
  lemma LatePublicationReportsFalselyIff(s: State, l: Conn, m: Conn, reason: Reason, metrics: Metrics)
    requires Inv(s) && Enabled(s, ReadCancelled(l, reason)) && l != m
    requires m in s.leases && Untouched(s, m) && !Settled(s.statuses, s.leases[m].sid)
    ensures var steps := [ReadCancelled(l, reason), WriteStatus(l, metrics)];
            IsRun(s, steps) &&
            (ReportsFalsely(After(s, steps), m) <==> s.leases[l].cancelled && s.leases[l].sid == s.leases[m].sid)
  {
    var s1 := Step(s, ReadCancelled(l, reason));
    assert LeaseFits(s, l);
    ReadUntouched(s, l, m, reason);
    TwoSteps(s, ReadCancelled(l, reason), WriteStatus(l, metrics));
    if s.leases[l].cancelled && s.leases[l].sid == s.leases[m].sid {
      StepKeepsInv(s, ReadCancelled(l, reason));
      ForeignMarkShows(s1, WriteStatus(l, metrics), m);
    } else if Settled(Step(s1, WriteStatus(l, metrics)).statuses, s.leases[m].sid) {
      SettledOnlyBy(s1, WriteStatus(l, metrics), s.leases[m].sid);
    }
  }

  lemma ReadUntouched(s: State, l: Conn, m: Conn, reason: Reason)
    requires Inv(s) && Enabled(s, ReadCancelled(l, reason)) && m in s.leases && Untouched(s, m)
    ensures var t := Step(s, ReadCancelled(l, reason));
            && Untouched(t, m) && t.leases == s.leases && t.statuses == s.statuses
            && t.workers[l].sid == s.workers[l].sid
            && t.workers[l].phase == Publishing(if s.leases[l].cancelled then ManualCleanup else reason)
  {
    RequestMovesOne(s, ReadCancelled(l, reason));
    MarkersWereThere(s, Step(s, ReadCancelled(l, reason)), l, m);
  }
}
