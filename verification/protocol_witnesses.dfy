// Runs that exist: how, from any idle state with room for them, a leaked lease makes
// a cleanup disconnect a stranger, and a shared id makes a session report a cleanup
// that never came to it.
module ProtocolWitnesses {
  import opened Bytes
  import opened SessionStatus
  import opened ConnectionProtocol
  import opened ProtocolRuns
  import opened ProtocolStatuses
  import Cleanup = ProtocolCleanup
  import R = SessionRegistry

  /** Nothing is under way in acceptor and registry, and there is room. */
  predicate HasRoom(s: State, connections: nat, sessions: nat) {
    && s.acceptor == Waiting && s.lock == None
    && |s.workers| + connections <= s.maxWorkers && |s.leases| + sessions <= s.maxSessions
  }

  function Connected(s: State, fd: Fd): State {
    s.(os := s.os[fd := s.next], next := s.next + 1, workers := s.workers[s.next := Worker(fd, Serving, "", NONE)])
  }

  /** The session of worker c, as reserve registers it. */
  function Registered(s: State, c: Conn, sid: string, phase: Phase): State
    requires c in s.workers
  {
    s.(workers := s.workers[c := s.workers[c].(phase := phase, sid := sid)],
       leases := s.leases[c := R.Lease(sid, Some(s.workers[c].fd), s.fence.generation, false)],
       statuses := Activated(s.statuses, sid, s.now))
  }

  /** Between set_active and push_back. */
  function InReserve(s: State, c: Conn, sid: string): State
    requires c in s.workers
  {
    s.(workers := s.workers[c := s.workers[c].(phase := Reserving, sid := sid)],
       lock := Some(c), statuses := Activated(s.statuses, sid, s.now))
  }

  // ------------------------------------------------------------ single steps

  lemma ConnectSteps(s: State, fd: Fd)
    requires s.acceptor == Waiting && |s.workers| < s.maxWorkers && fd !in s.os
    ensures IsRun(s, [Accept(fd), Start]) && After(s, [Accept(fd), Start]) == Connected(s, fd)
  {
    TwoSteps(s, Accept(fd), Start);
  }

  /** The current token is always accepted. */
  lemma ReserveStep(s: State, c: Conn, sid: string)
    requires At(s, c, Serving) && s.lock == None && |s.leases| < s.maxSessions && R.WellFormed(s.fence)
    ensures Enabled(s, ReserveBegin(c, sid, s.fence.generation))
    ensures Step(s, ReserveBegin(c, sid, s.fence.generation)) == InReserve(s, c, sid)
  {
    assert R.Admit(s.fence, s.fence.generation, |s.leases|, s.maxSessions) == R.Admitted;
  }

  lemma CommitStep(s: State, c: Conn, sid: string)
    requires c in s.workers && s.lock == None
    ensures Enabled(InReserve(s, c, sid), ReserveCommit(c))
    ensures Step(InReserve(s, c, sid), ReserveCommit(c)) == Registered(s, c, sid, Streaming)
  {
    assert Step(InReserve(s, c, sid), ReserveCommit(c)).workers == Registered(s, c, sid, Streaming).workers;
  }

  lemma LeakStep(s: State, c: Conn, sid: string)
    requires c in s.workers && s.lock == None
    ensures Enabled(InReserve(s, c, sid), ReserveLeak(c))
    ensures Step(InReserve(s, c, sid), ReserveLeak(c)) == Registered(s, c, sid, Returning)
  {
    assert Step(InReserve(s, c, sid), ReserveLeak(c)).workers == Registered(s, c, sid, Returning).workers;
  }

  lemma CloseStep(s: State, c: Conn, sid: string)
    requires c in s.workers && s.acceptor == Waiting
    ensures Enabled(Registered(s, c, sid, Returning), Close(c))
    ensures Step(Registered(s, c, sid, Returning), Close(c)) == Abandoned(s, c, sid)
  {
    assert Step(Registered(s, c, sid, Returning), Close(c)).workers == Abandoned(s, c, sid).workers;
  }

  /** Registered for ever, its socket closed. */
  function Abandoned(s: State, c: Conn, sid: string): State
    requires c in s.workers
  {
    Registered(s, c, sid, Closed).(os := s.os - {s.workers[c].fd})
  }

  // -------------------------------------------------------------- short runs

  lemma Connects(s: State, fd: Fd)
    requires Inv(s) && HasRoom(s, 1, 0) && fd !in s.os
    ensures IsRun(s, [Accept(fd), Start]) && After(s, [Accept(fd), Start]) == Connected(s, fd)
    ensures Inv(Connected(s, fd)) && s.next !in s.workers && s.next !in s.leases
  {
    ConnectSteps(s, fd);
    RunKeepsInv(s, [Accept(fd), Start]);
    NextIsNew(s);
  }

  lemma NextIsNew(s: State)
    requires SocketsOwned(s) && LeasesHeld(s)
    ensures s.next !in s.workers && s.next !in s.leases
  {
    assert s.next in s.leases ==> LeaseFits(s, s.next);
  }

  /** Rooms after a connection, and after a session. */
  lemma RoomAfter(s: State, fd: Fd, connections: nat, sessions: nat)
    requires HasRoom(s, connections + 1, sessions) && s.next !in s.workers
    ensures HasRoom(Connected(s, fd), connections, sessions) && At(Connected(s, fd), s.next, Serving)
  {
    SizeWith(s.workers, s.next, Worker(fd, Serving, "", NONE));
  }

  lemma RoomAfterSession(s: State, c: Conn, sid: string, phase: Phase, connections: nat, sessions: nat)
    requires HasRoom(s, connections, sessions + 1) && c in s.workers && c !in s.leases
    ensures HasRoom(Registered(s, c, sid, phase), connections, sessions)
  {
    SizeWith(s.workers, c, s.workers[c].(phase := phase, sid := sid));
    SizeWith(s.leases, c, R.Lease(sid, Some(s.workers[c].fd), s.fence.generation, false));
  }

  function PlaySteps(s: State, c: Conn, sid: string): seq<Action> {
    [ReserveBegin(c, sid, s.fence.generation), ReserveCommit(c)]
  }

  lemma Plays(s: State, c: Conn, sid: string)
    requires Inv(s) && HasRoom(s, 0, 1) && At(s, c, Serving)
    ensures IsRun(s, PlaySteps(s, c, sid)) && After(s, PlaySteps(s, c, sid)) == Registered(s, c, sid, Streaming)
    ensures Inv(Registered(s, c, sid, Streaming))
  {
    ReserveStep(s, c, sid);
    CommitStep(s, c, sid);
    TwoSteps(s, PlaySteps(s, c, sid)[0], PlaySteps(s, c, sid)[1]);
    RunKeepsInv(s, PlaySteps(s, c, sid));
  }

  function LeakSteps(s: State, c: Conn, sid: string): seq<Action> {
    [ReserveBegin(c, sid, s.fence.generation), ReserveLeak(c)] + [Close(c)]
  }

  /** The Lease object cannot be allocated; the answer is sent and the socket closed. */
  lemma Leaks(s: State, c: Conn, sid: string)
    requires Inv(s) && HasRoom(s, 0, 1) && At(s, c, Serving)
    ensures IsRun(s, LeakSteps(s, c, sid)) && After(s, LeakSteps(s, c, sid)) == Abandoned(s, c, sid)
    ensures Inv(Abandoned(s, c, sid))
  {
    ReserveStep(s, c, sid);
    LeakStep(s, c, sid);
    var steps := [ReserveBegin(c, sid, s.fence.generation), ReserveLeak(c)];
    TwoSteps(s, steps[0], steps[1]);
    CloseStep(s, c, sid);
    OneMoreStep(s, steps, Close(c));
    RunKeepsInv(s, LeakSteps(s, c, sid));
  }

  // ------------------------------------------------------ a stranger is shut down

  function DisconnectSteps(c: Conn, l: Conn): seq<Action> {
    [CleanBegin(c), CleanLook(c, l)] + [CleanCancel(c), CleanShutdown(c)]
  }

  /** A cleanup can go for any uncancelled session first. */
  lemma Disconnects(s: State, c: Conn, l: Conn)
    requires Enabled(s, CleanBegin(c)) && l in s.leases && !s.leases[l].cancelled && s.leases[l].fd.Some?
    ensures IsRun(s, DisconnectSteps(c, l))
    ensures ShutdownCall(l, Hit(s, s.leases[l].fd.value), true) in Trace(s, DisconnectSteps(c, l))
  {
    BeganLooks(s, c, l);
    TwoSteps(s, CleanBegin(c), CleanLook(c, l));
    var s1 := Step(s, CleanBegin(c));
    BeginStep(s, c);
    Cleanup.LookStep(s1, c, l);
    var s2 := Step(s1, CleanLook(c, l));
    ShutsDown(s2, c, l);
    RunsChain(s, [CleanBegin(c), CleanLook(c, l)], [CleanCancel(c), CleanShutdown(c)]);
  }

  lemma BeginStep(s: State, c: Conn)
    requires Enabled(s, CleanBegin(c))
    ensures Step(s, CleanBegin(c)) ==
            Move(s, c, Sweeping(s.leases.Keys, Between)).(fence := R.NextGeneration(s.fence), lock := Some(c))
  {
  }

  lemma ShutsDown(s: State, c: Conn, l: Conn)
    requires c in s.workers && s.workers[c].phase.Sweeping? && s.workers[c].phase.stage == Marked(l)
    requires l in s.leases && s.leases[l].fd.Some?
    ensures IsRun(s, [CleanCancel(c), CleanShutdown(c)])
    ensures ShutdownCall(l, Hit(s, s.leases[l].fd.value), true) in Trace(s, [CleanCancel(c), CleanShutdown(c)])
  {
    Cleanup.CancelStep(s, c);
    var s1 := Step(s, CleanCancel(c));
    TwoSteps(s, CleanCancel(c), CleanShutdown(c));
    assert Emitted(s1, CleanShutdown(c)) == [ShutdownCall(l, Hit(s, s.leases[l].fd.value), true)];
    assert [CleanCancel(c), CleanShutdown(c)][1..] == [CleanShutdown(c)] && [CleanShutdown(c)][1..] == [];
    assert Trace(s1, [CleanShutdown(c)]) == Emitted(s1, CleanShutdown(c)) + Trace(Step(s1, CleanShutdown(c)), []);
    assert Trace(s, [CleanCancel(c), CleanShutdown(c)]) ==
           Emitted(s, CleanCancel(c)) + Trace(s1, [CleanShutdown(c)]);
  }

  /** The number of an orphan's socket is free or belongs to a stranger. */
  lemma OrphanHit(s: State, l: Conn)
    requires Inv(s) && Orphaned(s, l)
    ensures s.leases[l].fd.Some? && Hit(s, s.leases[l].fd.value) != Some(l)
  {
    assert LeaseFits(s, l);
  }

  /**
   * A cleanup that begins while an uncancelled orphan is registered can go and shut down whoever has its number now.
   */
  lemma OrphanIsDisconnected(s: State, c: Conn, l: Conn)
    requires Inv(s) && Enabled(s, CleanBegin(c)) && Orphaned(s, l) && !s.leases[l].cancelled
    ensures IsRun(s, DisconnectSteps(c, l)) && !AllAimed(Trace(s, DisconnectSteps(c, l)))
    ensures s.leases[l].fd.Some?
    ensures ShutdownCall(l, Hit(s, s.leases[l].fd.value), true) in Trace(s, DisconnectSteps(c, l))
  {
    OrphanHit(s, l);
    Disconnects(s, c, l);
    assert !Aimed(ShutdownCall(l, Hit(s, s.leases[l].fd.value), true));
  }

  /** A session leaked, and its descriptor reused by the next connection. */
  function Reused(s: State, fd: Fd, sid: string): State {
    Connected(Abandoned(Connected(s, fd), s.next, sid), fd)
  }

  lemma ReusedFacts(s: State, fd: Fd, sid: string)
    requires s.acceptor == Waiting && s.lock == None
    ensures var t := Reused(s, fd, sid);
            && Enabled(t, CleanBegin(s.next + 1)) && Hit(t, fd) == Some(s.next + 1)
            && s.next in t.leases && t.leases[s.next] == R.Lease(sid, Some(fd), s.fence.generation, false)
  {
  }

  lemma LeakAndReuse(s: State, fd: Fd, sid: string) returns (steps: seq<Action>)
    requires Inv(s) && HasRoom(s, 2, 1) && fd !in s.os
    ensures IsRun(s, steps) && After(s, steps) == Reused(s, fd, sid)
  {
    var s1 := Connected(s, fd);
    Connects(s, fd);
    RoomAfter(s, fd, 1, 1);
    Leaks(s1, s.next, sid);
    RunsChain(s, [Accept(fd), Start], LeakSteps(s1, s.next, sid));
    steps := [Accept(fd), Start] + LeakSteps(s1, s.next, sid);
    MayReuse(s1, s.next, sid);
    ConnectSteps(Abandoned(s1, s.next, sid), fd);
    RunsChain(s, steps, [Accept(fd), Start]);
    steps := steps + [Accept(fd), Start];
  }

  lemma MayReuse(s: State, c: Conn, sid: string)
    requires HasRoom(s, 1, 1) && c in s.workers && c !in s.leases
    ensures HasRoom(Abandoned(s, c, sid), 1, 0) && s.workers[c].fd !in Abandoned(s, c, sid).os
  {
    RoomAfterSession(s, c, sid, Closed, 1, 0);
  }

  /**
   * From every idle state with room: a lease leaks, its descriptor is reused, and a cleanup shuts the stranger down.
   */
  lemma StrangerIsDisconnected(s: State, fd: Fd, sid: string) returns (steps: seq<Action>)
    requires Inv(s) && HasRoom(s, 2, 1) && fd !in s.os
    ensures IsRun(s, steps) && ShutdownCall(s.next, Some(s.next + 1), true) in Trace(s, steps)
  {
    steps := LeakAndReuse(s, fd, sid);
    ReusedFacts(s, fd, sid);
    Disconnects(Reused(s, fd, sid), s.next + 1, s.next);
    RunsChain(s, steps, DisconnectSteps(s.next + 1, s.next));
    steps := steps + DisconnectSteps(s.next + 1, s.next);
  }

  // ------------------------------------------------------- a false report

  /** One more connection that plays under this id. */
  function Joined(s: State, fd: Fd, sid: string): State {
    Registered(Connected(s, fd), s.next, sid, Streaming)
  }

  function JoinSteps(s: State, fd: Fd, sid: string): seq<Action> {
    [Accept(fd), Start] + PlaySteps(Connected(s, fd), s.next, sid)
  }

  lemma Joins(s: State, fd: Fd, sid: string, connections: nat, sessions: nat)
    requires Inv(s) && HasRoom(s, connections + 1, sessions + 1) && fd !in s.os
    ensures IsRun(s, JoinSteps(s, fd, sid)) && After(s, JoinSteps(s, fd, sid)) == Joined(s, fd, sid)
    ensures Inv(Joined(s, fd, sid)) && HasRoom(Joined(s, fd, sid), connections, sessions)
    ensures s.next !in s.workers && s.next !in s.leases
  {
    Connects(s, fd);
    RoomAfter(s, fd, connections, sessions + 1);
    Plays(Connected(s, fd), s.next, sid);
    RoomAfterSession(Connected(s, fd), s.next, sid, Streaming, connections, sessions);
    RunsChain(s, [Accept(fd), Start], PlaySteps(Connected(s, fd), s.next, sid));
  }

  /** What a fresh session under this id looks like. */
  lemma JoinedFacts(s: State, fd: Fd, sid: string)
    requires s.lock == None
    ensures var t := Joined(s, fd, sid);
            && s.next in t.leases && t.leases[s.next] == R.Lease(sid, Some(fd), s.fence.generation, false)
            && !Settled(t.statuses, sid)
    ensures forall l | l in s.leases && l != s.next :: Joined(s, fd, sid).leases[l] == s.leases[l]
    ensures forall c | c in s.workers && c != s.next :: Joined(s, fd, sid).workers[c] == s.workers[c]
  {
  }

  /** Two sessions under one id, and a third connection. */
  function TwoShare(s: State, f1: Fd, f2: Fd, f3: Fd, sid: string): State {
    Connected(Joined(Joined(s, f1, sid), f2, sid), f3)
  }

  lemma TwoShareFacts(s: State, f1: Fd, f2: Fd, f3: Fd, sid: string)
    requires s.lock == None
    ensures var t := TwoShare(s, f1, f2, f3, sid);
            && Enabled(t, CleanBegin(s.next + 2)) && !Settled(t.statuses, sid)
            && s.next in t.leases && !t.leases[s.next].cancelled && t.leases[s.next].sid == sid
            && s.next + 1 in t.leases && !t.leases[s.next + 1].cancelled && t.leases[s.next + 1].sid == sid
  {
    JoinedFacts(s, f1, sid);
    JoinedFacts(Joined(s, f1, sid), f2, sid);
  }

  lemma TwoJoin(s: State, f1: Fd, f2: Fd, sid: string) returns (steps: seq<Action>)
    requires Inv(s) && HasRoom(s, 3, 2) && f1 !in s.os && f2 !in s.os && f1 != f2
    ensures IsRun(s, steps) && After(s, steps) == Joined(Joined(s, f1, sid), f2, sid)
    ensures HasRoom(Joined(Joined(s, f1, sid), f2, sid), 1, 0)
  {
    Joins(s, f1, sid, 2, 1);
    Joins(Joined(s, f1, sid), f2, sid, 1, 0);
    RunsChain(s, JoinSteps(s, f1, sid), JoinSteps(Joined(s, f1, sid), f2, sid));
    steps := JoinSteps(s, f1, sid) + JoinSteps(Joined(s, f1, sid), f2, sid);
  }

  lemma TwoShareRun(s: State, f1: Fd, f2: Fd, f3: Fd, sid: string) returns (steps: seq<Action>)
    requires Inv(s) && HasRoom(s, 3, 2) && f1 !in s.os && f2 !in s.os && f3 !in s.os
    requires f1 != f2 && f2 != f3 && f1 != f3
    ensures IsRun(s, steps) && After(s, steps) == TwoShare(s, f1, f2, f3, sid)
  {
    steps := TwoJoin(s, f1, f2, sid);
    ConnectSteps(Joined(Joined(s, f1, sid), f2, sid), f3);
    RunsChain(s, steps, [Accept(f3), Start]);
    steps := steps + [Accept(f3), Start];
  }

  /**
   * From every idle state with room: two sessions share an id, and looking at the one makes the other report a
   * cleanup.
   */
  lemma SharedIdReportsFalsely(s: State, f1: Fd, f2: Fd, f3: Fd, sid: string) returns (steps: seq<Action>)
    requires Inv(s) && HasRoom(s, 3, 2) && f1 !in s.os && f2 !in s.os && f3 !in s.os
    requires f1 != f2 && f2 != f3 && f1 != f3
    ensures IsRun(s, steps) && ReportsFalsely(After(s, steps), s.next + 1)
  {
    var more := [CleanBegin(s.next + 2), CleanLook(s.next + 2, s.next)];
    steps := TwoShareRun(s, f1, f2, f3, sid);
    RunKeepsInv(s, steps);
    TwoShareFacts(s, f1, f2, f3, sid);
    FirstLookReportsFalselyIff(TwoShare(s, f1, f2, f3, sid), s.next + 2, s.next, s.next + 1);
    RunsChain(s, steps, more);
    steps := steps + more;
  }

  lemma Listed(leases: map<Conn, Lease>) returns (order: seq<Conn>)
    ensures Cleanup.Lists(order, leases)
  {
    var todo := leases.Keys;
    order := [];
    while todo != {}
      invariant todo <= leases.Keys && forall l :: l in order <==> l in leases.Keys && l !in todo
      invariant forall i, j | 0 <= i < j < |order| :: order[i] != order[j]
      decreases todo
    {
      var l :| l in todo;
      var longer := order + [l];
      assert forall x :: x in longer <==> x in order || x == l;
      order, todo := longer, todo - {l};
    }
  }

  lemma CleanedFacts(s: State, c: Conn, order: seq<Conn>, connections: nat, sessions: nat)
    requires Enabled(s, CleanBegin(c)) && Cleanup.Lists(order, s.leases) && HasRoom(s, connections, sessions)
    ensures var t := Cleanup.CleanedUp(s, c, order);
            && HasRoom(t, connections, sessions) && t.os == s.os && t.next == s.next
            && (forall l | l in s.leases ::
                  l in t.leases && t.leases[l].cancelled && t.leases[l].sid == s.leases[l].sid)
            && (forall w | w in s.workers && w != c :: w in t.workers && t.workers[w] == s.workers[w])
  {
    var t := Cleanup.CleanedUp(s, c, order);
    assert t.workers.Keys == s.workers.Keys && t.leases.Keys == s.leases.Keys;
    assert |t.workers| == |t.workers.Keys| && |s.workers| == |s.workers.Keys|;
    assert |t.leases| == |t.leases.Keys| && |s.leases| == |s.leases.Keys|;
  }

  /** A session plays and a second connection is there. */
  function OnePlays(s: State, f1: Fd, f2: Fd, sid: string): State {
    Connected(Joined(s, f1, sid), f2)
  }

  lemma OnePlaysRun(s: State, f1: Fd, f2: Fd, sid: string) returns (steps: seq<Action>)
    requires Inv(s) && HasRoom(s, 3, 2) && f1 !in s.os && f2 !in s.os && f1 != f2
    ensures IsRun(s, steps) && After(s, steps) == OnePlays(s, f1, f2, sid) && HasRoom(OnePlays(s, f1, f2, sid), 1, 1)
  {
    var s1 := Joined(s, f1, sid);
    Joins(s, f1, sid, 2, 1);
    Connects(s1, f2);
    RoomAfter(s1, f2, 1, 1);
    steps := JoinSteps(s, f1, sid) + [Accept(f2), Start];
    RunsChain(s, JoinSteps(s, f1, sid), [Accept(f2), Start]);
  }

  lemma OnePlaysFacts(s: State, f1: Fd, f2: Fd, sid: string)
    requires s.lock == None
    ensures var t := OnePlays(s, f1, f2, sid);
            && Enabled(t, CleanBegin(s.next + 1)) && t.next == s.next + 2
            && t.os == s.os[f1 := s.next][f2 := s.next + 1]
            && At(t, s.next, Streaming) && s.next in t.leases && t.leases[s.next].sid == sid
  {
    JoinedFacts(s, f1, sid);
  }

  /** A session plays, a cleanup comes and goes, and the session's thread has not noticed yet. */
  lemma OneIsCleaned(s: State, f1: Fd, f2: Fd, sid: string) returns (steps: seq<Action>, t: State)
    requires Inv(s) && HasRoom(s, 3, 2) && f1 !in s.os && f2 !in s.os && f1 != f2
    ensures IsRun(s, steps) && After(s, steps) == t && HasRoom(t, 1, 1)
    ensures t.next == s.next + 2 && t.os == s.os[f1 := s.next][f2 := s.next + 1]
    ensures At(t, s.next, Streaming) && s.next in t.leases && t.leases[s.next].cancelled && t.leases[s.next].sid == sid
  {
    steps := OnePlaysRun(s, f1, f2, sid);
    OnePlaysFacts(s, f1, f2, sid);
    var more;
    more, t := CleansUp(OnePlays(s, f1, f2, sid), s.next + 1);
    RunsChain(s, steps, more);
    steps := steps + more;
  }

  lemma CleansUp(s: State, c: Conn) returns (steps: seq<Action>, t: State)
    requires Enabled(s, CleanBegin(c)) && HasRoom(s, 1, 1)
    ensures IsRun(s, steps) && After(s, steps) == t && HasRoom(t, 1, 1) && t.os == s.os && t.next == s.next
    ensures forall l | l in s.leases :: l in t.leases && t.leases[l].cancelled && t.leases[l].sid == s.leases[l].sid
    ensures forall w | w in s.workers && w != c :: w in t.workers && t.workers[w] == s.workers[w]
  {
    var order := Listed(s.leases);
    steps := Cleanup.CleanupAlone(s, c, order);
    CleanedFacts(s, c, order, 1, 1);
    t := Cleanup.CleanedUp(s, c, order);
  }

  /** A successor under the id of a cleaned session that is still to publish its end. */
  lemma SuccessorFacts(s: State, l: Conn, f: Fd, sid: string)
    requires Inv(Joined(s, f, sid)) && s.lock == None && l < s.next
    requires At(s, l, Streaming) && l in s.leases && s.leases[l].cancelled && s.leases[l].sid == sid
    ensures var u := Joined(s, f, sid);
            && Enabled(u, ReadCancelled(l, ClientReplaced)) && u.leases[l].cancelled && u.leases[l].sid == sid
            && s.next in u.leases && u.leases[s.next].sid == sid && Untouched(u, s.next) && !Settled(u.statuses, sid)
  {
    JoinedFacts(s, f, sid);
    NobodyMarks(Joined(s, f, sid), s.next);
  }

  /**
   * From every idle state with room: the late publication of a cleaned session makes its successor report a cleanup.
   */
  lemma SuccessorReportsFalsely(s: State, f1: Fd, f2: Fd, f3: Fd, sid: string) returns (steps: seq<Action>)
    requires Inv(s) && HasRoom(s, 3, 2) && f1 !in s.os && f2 !in s.os && f3 !in s.os
    requires f1 != f2 && f2 != f3 && f1 != f3
    ensures IsRun(s, steps) && ReportsFalsely(After(s, steps), s.next + 2)
  {
    var t;
    steps, t := OneIsCleaned(s, f1, f2, sid);
    RunKeepsInv(s, steps);
    Joins(t, f3, sid, 0, 0);
    SuccessorFacts(t, s.next, f3, sid);
    RunsChain(s, steps, JoinSteps(t, f3, sid));
    steps := steps + JoinSteps(t, f3, sid);
    LatePublicationReportsFalselyIff(Joined(t, f3, sid), s.next, s.next + 2, ClientReplaced, NOTHING);
    var more := [ReadCancelled(s.next, ClientReplaced), WriteStatus(s.next, NOTHING)];
    RunsChain(s, steps, more);
    steps := steps + more;
  }
}
