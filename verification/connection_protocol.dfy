// Acceptor, connection workers, playing sessions and cleanups as one transition
// system. A step is one stretch under a mutex, one atomic load or store, or one
// system call, so a run of the system is any interleaving of the real threads.
// Descriptors are reused by the operating system; connections are not.
module ConnectionProtocol {
  import opened Bytes
  import opened SessionStatus
  import R = SessionRegistry

  type Conn = nat
  type Fd = nat

  type Lease = R.Lease

  /** Live device sessions and FFmpeg processes of one request. */
  datatype Resources = Resources(sdk: bool, probe: bool, output: bool)

  const NONE := Resources(false, false, false)

  datatype Resource = Sdk | Probe | Output

  /** How far a cleanup is with the session it is looking at. */
  datatype Stage = Between | Marked(of: Conn) | CancelStored(of: Conn)

  datatype Phase =
    | Serving                               // handler runs without a lease
    | Reserving                             // in reserve, registry mutex held, status already set active
    | Streaming                             // handle_video holds a lease
    | Publishing(reason: Reason)            // publish_status has read cancelled(), set_ended is next
    | Published(reason: Reason)             // status written, still inside handle_video
    | Unwinding                             // resources are being destroyed, then the lease
    | Sweeping(todo: set<Conn>, stage: Stage)   // in clean, registry mutex held
    | Returning                             // handler is done, the socket is still open
    | Closed                                // socket closed under sockets_mutex_, done not yet stored
    | Done

  datatype Worker = Worker(fd: Fd, phase: Phase, sid: string, held: Resources)

  /** The acceptor thread, which also destroys the workers when the service stops. */
  datatype Acceptor =
    | Waiting
    | Accepted(conn: Conn, fd: Fd)          // accept returned, start has not decided yet
    | Stopping(todo: set<Conn>)             // in ~ConnectionWorkers, sockets_mutex_ held
    | Joining                               // sockets_mutex_ given up, waiting for the threads

  datatype State = State(
    maxWorkers: nat, maxSessions: nat,
    os: map<Fd, Conn>,                      // open descriptors
    next: Conn,                             // connections accepted so far
    acceptor: Acceptor,
    workers: map<Conn, Worker>,
    fence: R.Fence,
    leases: map<Conn, Lease>,
    lock: Option<Conn>,                     // holder of the registry mutex
    statuses: Statuses,
    now: nat)

  /** What a step does to descriptors and statuses; `hit` is the connection a system call really reaches. */
  datatype Event =
    | CloseCall(conn: Conn, hit: Option<Conn>)
    | ShutdownCall(conn: Conn, hit: Option<Conn>, cleanup: bool)
    | ReasonPublished(conn: Conn)

  datatype Action =
    | Tick(later: nat)
    | Accept(fd: Fd)
    | Reject                                 // not local, not configurable, full, or no memory or thread
    | Start
    | Stop
    | StopOne(c: Conn)
    | StopDone
    | Reap(c: Conn)
    | ReserveBegin(c: Conn, sid: string, token: bytes)
    | ReserveCommit(c: Conn)
    | ReserveAbort(c: Conn)                  // push_back throws after set_active: nothing is registered
    | ReserveLeak(c: Conn)                   // no Lease object can be allocated: the session stays registered, unowned
    | Acquire(c: Conn, r: Resource)
    | Drop(c: Conn, r: Resource)
    | OutputReady(c: Conn)
    | ReadCancelled(c: Conn, reason: Reason) // publish_status, first half
    | WriteStatus(c: Conn, metrics: Metrics) // publish_status, second half
    | Unwind(c: Conn)
    | Release(c: Conn)
    | CleanBegin(c: Conn)
    | CleanLook(c: Conn, l: Conn)
    | CleanCancel(c: Conn)
    | CleanShutdown(c: Conn)
    | CleanEnd(c: Conn)
    | GetStatus
    | FirstFrame(sid: string, elapsed: int)
    | Return(c: Conn)
    | Close(c: Conn)
    | StoreDone(c: Conn)

  predicate HoldsLease(p: Phase) {
    p.Streaming? || p.Publishing? || p.Published? || p.Unwinding?
  }

  predicate At(s: State, c: Conn, p: Phase) {
    c in s.workers && s.workers[c].phase == p
  }

  function Hit(s: State, fd: Fd): Option<Conn> {
    if fd in s.os then Some(s.os[fd]) else None
  }

  predicate Has(h: Resources, r: Resource) {
    match r case Sdk => h.sdk case Probe => h.probe case Output => h.output
  }

  function With(h: Resources, r: Resource, live: bool): Resources {
    match r
    case Sdk => h.(sdk := live)
    case Probe => h.(probe := live)
    case Output => h.(output := live)
  }

  /** Processes need a device session, and the device session goes last. */
  predicate MayChange(h: Resources, r: Resource, live: bool) {
    Has(h, r) != live && if r == Sdk then !h.probe && !h.output else h.sdk
  }

  predicate Enabled(s: State, a: Action) {
    match a
    case Tick(later) => s.now <= later
    case Accept(fd) => s.acceptor == Waiting && fd !in s.os
    case Reject => s.acceptor.Accepted?
    case Start => s.acceptor.Accepted? && |s.workers| < s.maxWorkers
    case Stop => s.acceptor == Waiting
    case StopOne(c) => s.acceptor.Stopping? && c in s.acceptor.todo
    case StopDone => s.acceptor == Stopping({})
    case Reap(c) => (s.acceptor.Waiting? || s.acceptor.Joining?) && At(s, c, Done)
    case ReserveBegin(c, _, _) => At(s, c, Serving) && s.lock == None
    case ReserveCommit(c) => At(s, c, Reserving)
    case ReserveAbort(c) => At(s, c, Reserving)
    case ReserveLeak(c) => At(s, c, Reserving)
    case Acquire(c, r) => At(s, c, Streaming) && MayChange(s.workers[c].held, r, true)
    case Drop(c, r) => c in s.workers && HoldsLease(s.workers[c].phase) && MayChange(s.workers[c].held, r, false)
    case OutputReady(c) => At(s, c, Streaming)
    case ReadCancelled(c, reason) => At(s, c, Streaming) && c in s.leases && reason != ManualCleanup
    case WriteStatus(c, _) => c in s.workers && s.workers[c].phase.Publishing?
    case Unwind(c) => c in s.workers && HoldsLease(s.workers[c].phase)
    case Release(c) => At(s, c, Unwinding) && s.workers[c].held == NONE && s.lock == None
    case CleanBegin(c) => At(s, c, Serving) && s.lock == None
    case CleanLook(c, l) =>
      c in s.workers && s.workers[c].phase.Sweeping? && s.workers[c].phase.stage == Between
      && l in s.workers[c].phase.todo && l in s.leases
    case CleanCancel(c) =>
      c in s.workers && s.workers[c].phase.Sweeping? && s.workers[c].phase.stage.Marked?
      && s.workers[c].phase.stage.of in s.leases
    case CleanShutdown(c) =>
      c in s.workers && s.workers[c].phase.Sweeping? && s.workers[c].phase.stage.CancelStored?
      && s.workers[c].phase.stage.of in s.leases
    case CleanEnd(c) => At(s, c, Sweeping({}, Between))
    case GetStatus => true
    case FirstFrame(_, _) => true
    case Return(c) => At(s, c, Serving)
    case Close(c) => At(s, c, Returning) && !s.acceptor.Stopping?
    case StoreDone(c) => At(s, c, Closed)
  }

  function Move(s: State, c: Conn, p: Phase): State
    requires c in s.workers
  {
    s.(workers := s.workers[c := s.workers[c].(phase := p)])
  }

  /** What reserve registers for a worker. */
  function NewLease(s: State, c: Conn): Lease
    requires c in s.workers
  {
    R.Lease(s.workers[c].sid, Some(s.workers[c].fd), s.fence.generation, false)
  }

  function Step(s: State, a: Action): State
    requires Enabled(s, a)
  {
    match a
    case Tick(later) => s.(now := later)
    case Accept(fd) => s.(os := s.os[fd := s.next], next := s.next + 1, acceptor := Accepted(s.next, fd))
    case Reject => s.(os := s.os - {s.acceptor.fd}, acceptor := Waiting)
    case Start =>
      s.(workers := s.workers[s.acceptor.conn := Worker(s.acceptor.fd, Serving, "", NONE)], acceptor := Waiting)
    case Stop => s.(acceptor := Stopping(s.workers.Keys))
    case StopOne(c) => s.(acceptor := Stopping(s.acceptor.todo - {c}))
    case StopDone => s.(acceptor := Joining)
    case Reap(c) => s.(workers := s.workers - {c})
    case ReserveBegin(c, sid, token) =>
      if R.Admit(s.fence, token, |s.leases|, s.maxSessions) != R.Admitted then Move(s, c, Returning)
      else s.(workers := s.workers[c := s.workers[c].(phase := Reserving, sid := sid)],
              lock := Some(c), statuses := Activated(s.statuses, sid, s.now))
    case ReserveCommit(c) =>
      Move(s, c, Streaming).(leases := s.leases[c := NewLease(s, c)], lock := None)
    case ReserveAbort(c) => Move(s, c, Returning).(lock := None)
    case ReserveLeak(c) => Move(s, c, Returning).(leases := s.leases[c := NewLease(s, c)], lock := None)
    case Acquire(c, r) => s.(workers := s.workers[c := s.workers[c].(held := With(s.workers[c].held, r, true))])
    case Drop(c, r) => s.(workers := s.workers[c := s.workers[c].(held := With(s.workers[c].held, r, false))])
    case OutputReady(c) => s.(statuses := Ready(s.statuses, s.workers[c].sid, s.now))
    case ReadCancelled(c, reason) =>
      Move(s, c, Publishing(if s.leases[c].cancelled then ManualCleanup else reason))
    case WriteStatus(c, metrics) =>
      var reason := s.workers[c].phase.reason;
      Move(s, c, Published(reason)).(statuses := Ended(s.statuses, s.workers[c].sid, reason, metrics, s.now))
    case Unwind(c) => Move(s, c, Unwinding)
    case Release(c) => Move(s, c, Returning).(leases := s.leases - {c})
    case CleanBegin(c) =>
      Move(s, c, Sweeping(s.leases.Keys, Between)).(fence := R.NextGeneration(s.fence), lock := Some(c))
    case CleanLook(c, l) =>
      var p := s.workers[c].phase;
      if s.leases[l].cancelled then Move(s, c, Sweeping(p.todo - {l}, Between))
      else Move(s, c, Sweeping(p.todo - {l}, Marked(l))).(
        statuses := Ended(s.statuses, s.leases[l].sid, ManualCleanup, NOTHING, s.now))
    case CleanCancel(c) =>
      var p := s.workers[c].phase;
      Move(s, c, Sweeping(p.todo, CancelStored(p.stage.of))).(
        leases := s.leases[p.stage.of := s.leases[p.stage.of].(cancelled := true)])
    case CleanShutdown(c) => Move(s, c, Sweeping(s.workers[c].phase.todo, Between))
    case CleanEnd(c) => Move(s, c, Returning).(lock := None)
    case GetStatus => s.(statuses := Kept(s.statuses, s.now))
    case FirstFrame(sid, elapsed) => s.(statuses := Rendered(s.statuses, sid, elapsed, s.now))
    case Return(c) => Move(s, c, Returning)
    case Close(c) => Move(s, c, Closed).(os := s.os - {s.workers[c].fd})
    case StoreDone(c) => Move(s, c, Done)
  }

  predicate IsOpen(p: Phase) { !p.Closed? && !p.Done? }

  /** The system calls and publications of one step. */
  function Emitted(s: State, a: Action): seq<Event>
    requires Enabled(s, a)
  {
    match a
    case Reject => [CloseCall(s.acceptor.conn, Hit(s, s.acceptor.fd))]
    case StopOne(c) =>
      if c in s.workers && IsOpen(s.workers[c].phase) then [ShutdownCall(c, Hit(s, s.workers[c].fd), false)] else []
    case CleanLook(c, l) => if s.leases[l].cancelled then [] else [ReasonPublished(l)]
    case CleanShutdown(c) =>
      var l := s.workers[c].phase.stage.of;
      if s.leases[l].fd.Some? then [ShutdownCall(l, Hit(s, s.leases[l].fd.value), true)] else []
    case Close(c) => [CloseCall(c, Hit(s, s.workers[c].fd))]
    case _ => []
  }

  // ------------------------------------------------------------ invariant

  /** Every open descriptor belongs to exactly the connection whose worker (or the acceptor) holds it. */
  ghost predicate SocketsOwned(s: State) {
    && (forall c | c in s.workers ::
          c < s.next && (IsOpen(s.workers[c].phase) ==> s.workers[c].fd in s.os && s.os[s.workers[c].fd] == c))
    && (s.acceptor.Accepted? ==>
          s.acceptor.conn < s.next && s.acceptor.conn !in s.workers &&
          s.acceptor.fd in s.os && s.os[s.acceptor.fd] == s.acceptor.conn)
    && (forall fd | fd in s.os ::
          s.os[fd] < s.next &&
          (s.acceptor == Accepted(s.os[fd], fd) ||
           (s.os[fd] in s.workers && IsOpen(s.workers[s.os[fd]].phase) && s.workers[s.os[fd]].fd == fd)))
  }

  /** The worker's request is over; it has no way back into a handler. */
  predicate IsOver(p: Phase) { p.Returning? || p.Closed? || p.Done? }

  /** Nobody will ever release this lease: its Lease object was never made. */
  predicate Leaked(s: State, l: Conn) {
    l in s.leases && !(l in s.workers && HoldsLease(s.workers[l].phase))
  }

  /** A registered session belongs to its worker, or to one whose request is over, or to one that is gone. */
  predicate LeaseFits(s: State, l: Conn)
    requires l in s.leases
  {
    && l < s.next && !(s.acceptor.Accepted? && s.acceptor.conn == l) && s.leases[l].fd.Some?
    && (l in s.workers ==>
          && (HoldsLease(s.workers[l].phase) || IsOver(s.workers[l].phase))
          && s.leases[l].fd == Some(s.workers[l].fd) && s.leases[l].sid == s.workers[l].sid)
  }

  predicate HeldFits(w: Worker) {
    (w.held != NONE ==> HoldsLease(w.phase)) && (w.held.probe || w.held.output ==> w.held.sdk)
  }

  /** A worker inside handle_video is registered, and has resources only there. */
  ghost predicate WorkersHeld(s: State) {
    forall c | c in s.workers :: HeldFits(s.workers[c]) && (HoldsLease(s.workers[c].phase) ==> c in s.leases)
  }

  ghost predicate LeasesHeld(s: State) {
    |s.leases| <= s.maxSessions && WorkersHeld(s) && forall l | l in s.leases :: LeaseFits(s, l)
  }

  /** The registry mutex has one holder, which is in reserve or in clean. */
  ghost predicate LockHeld(s: State) {
    && (forall c | c in s.workers ::
          (s.workers[c].phase.Reserving? || s.workers[c].phase.Sweeping?) <==> s.lock == Some(c))
    && (s.lock.Some? ==> s.lock.value in s.workers)
    && (s.lock.Some? && s.workers[s.lock.value].phase.Reserving? ==> |s.leases| < s.maxSessions)
  }

  /** A running cleanup still has to deal with l. */
  predicate Pending(s: State, l: Conn) {
    s.lock.Some? && s.lock.value in s.workers &&
    match s.workers[s.lock.value].phase
    case Sweeping(todo, stage) => l in todo || stage == Marked(l)
    case _ => false
  }

  /**
   * Sessions a running cleanup has dealt with are cancelled; the one in its hands is leased, and cancelled from
   * CancelStored on.
   */
  ghost predicate SweepOnTrack(s: State) {
    s.lock.Some? && s.lock.value in s.workers && s.workers[s.lock.value].phase.Sweeping? ==>
      var p := s.workers[s.lock.value].phase;
      && p.todo <= s.leases.Keys
      && (forall l | l in s.leases && !s.leases[l].cancelled :: l in p.todo || p.stage == Marked(l))
      && match p.stage
         case Between => true
         case Marked(l) => l in s.leases && !s.leases[l].cancelled
         case CancelStored(l) => l in s.leases && s.leases[l].cancelled
  }

  /** A session that is not cancelled carries the current generation, unless a running cleanup is about to cancel it. */
  ghost predicate Fenced(s: State) {
    && R.WellFormed(s.fence)
    && forall c | c in s.leases && !s.leases[c].cancelled ::
         s.leases[c].generation == s.fence.generation || Pending(s, c)
  }

  ghost predicate Inv(s: State) {
    SocketsOwned(s) && LeasesHeld(s) && LockHeld(s) && SweepOnTrack(s) && Fenced(s)
  }

  predicate Initial(s: State) {
    && s.os == map[] && s.next == 0 && s.acceptor == Waiting && s.workers == map[] && s.leases == map[]
    && s.lock == None && s.statuses == map[] && s.fence == R.NewFence(s.fence.epoch)
  }

  lemma InitialInv(s: State)
    requires Initial(s)
    ensures Inv(s)
  {
  }

  // The steps fall into three kinds: some leave all workers alone, some move one
  // worker to another phase, and Start and Reap add and remove one.

  predicate Moves(a: Action) {
    a.ReserveBegin? || a.ReserveCommit? || a.ReserveAbort? || a.ReserveLeak? || a.Acquire? || a.Drop? ||
    a.ReadCancelled? || a.WriteStatus? || a.Unwind? || a.Release? || a.CleanBegin? || a.CleanLook? || a.CleanCancel? ||
    a.CleanShutdown? || a.CleanEnd? || a.Return? || a.Close? || a.StoreDone?
  }

  /** s' differs from s in at most one worker, which keeps its descriptor. */
  ghost predicate OneMoved(s: State, s': State, c: Conn) {
    c in s.workers && c in s'.workers && s'.workers == s.workers[c := s'.workers[c]] &&
    s'.workers[c].fd == s.workers[c].fd && s'.next == s.next
  }

  predicate OfCleanup(a: Action) {
    a.CleanBegin? || a.CleanLook? || a.CleanCancel? || a.CleanShutdown? || a.CleanEnd?
  }

  lemma StepMovesOne(s: State, a: Action)
    requires Enabled(s, a) && Moves(a)
    ensures OneMoved(s, Step(s, a), a.c) && Step(s, a).acceptor == s.acceptor
    ensures !a.Close? ==> Step(s, a).os == s.os
  {
    if OfCleanup(a) {
      CleanupMovesOne(s, a);
    } else if OfReservation(a) {
      ReservationMovesOne(s, a);
    } else {
      RequestMovesOne(s, a);
    }
  }

  lemma CleanupMovesOne(s: State, a: Action)
    requires Enabled(s, a) && OfCleanup(a)
    ensures OneMoved(s, Step(s, a), a.c) && Step(s, a).acceptor == s.acceptor && Step(s, a).os == s.os
  {
  }

  predicate OfReservation(a: Action) {
    a.ReserveBegin? || a.ReserveCommit? || a.ReserveAbort? || a.ReserveLeak? || a.Release?
  }

  lemma ReservationMovesOne(s: State, a: Action)
    requires Enabled(s, a) && OfReservation(a)
    ensures OneMoved(s, Step(s, a), a.c) && Step(s, a).acceptor == s.acceptor && Step(s, a).os == s.os
  {
  }

  lemma RequestMovesOne(s: State, a: Action)
    requires Enabled(s, a) && Moves(a) && !OfCleanup(a) && !OfReservation(a)
    ensures OneMoved(s, Step(s, a), a.c) && Step(s, a).acceptor == s.acceptor
    ensures !a.Close? ==> Step(s, a).os == s.os
  {
  }

  lemma StepMovesNone(s: State, a: Action)
    requires Enabled(s, a) && !Moves(a) && !a.Start? && !a.Reap?
    ensures var s' := Step(s, a);
            s'.workers == s.workers && s'.leases == s.leases && s'.lock == s.lock && s'.fence == s.fence
    ensures Step(s, a).maxSessions == s.maxSessions
  {
  }

  /** A step of one worker that has nothing to do with the registry's mutex, sessions and generation. */
  ghost predicate Quiet(s: State, s': State, c: Conn)
    requires OneMoved(s, s', c)
  {
    && s'.leases == s.leases && s'.lock == s.lock && s'.fence == s.fence && s'.maxSessions == s.maxSessions
    && !Locking(s.workers[c].phase) && !Locking(s'.workers[c].phase)
  }

  lemma RequestIsQuiet(s: State, a: Action, s': State)
    requires Enabled(s, a) && Moves(a) && !OfCleanup(a) && !OfReservation(a)
    requires s' == Step(s, a) && OneMoved(s, s', a.c)
    ensures Quiet(s, s', a.c)
    ensures !a.Close? ==> IsOpen(s'.workers[a.c].phase) == IsOpen(s.workers[a.c].phase)
  {
    if a.Acquire? || a.Drop? {
    } else if a.Return? || a.Close? || a.StoreDone? {
      LeaverIsQuiet(s, a, s');
    } else {
      PublisherIsQuiet(s, a, s');
    }
  }

  lemma LeaverIsQuiet(s: State, a: Action, s': State)
    requires Enabled(s, a) && (a.Return? || a.Close? || a.StoreDone?)
    requires s' == Step(s, a) && OneMoved(s, s', a.c)
    ensures Quiet(s, s', a.c)
    ensures !a.Close? ==> IsOpen(s'.workers[a.c].phase) == IsOpen(s.workers[a.c].phase)
  {
  }

  lemma PublisherIsQuiet(s: State, a: Action, s': State)
    requires Enabled(s, a) && (a.ReadCancelled? || a.WriteStatus? || a.Unwind?)
    requires s' == Step(s, a) && OneMoved(s, s', a.c)
    ensures Quiet(s, s', a.c)
    ensures IsOpen(s'.workers[a.c].phase) && IsOpen(s.workers[a.c].phase)
  {
  }

  // ---------------------------------------------------------- descriptors

  lemma SocketsFrame(s: State, s': State, c: Conn)
    requires SocketsOwned(s) && OneMoved(s, s', c)
    requires s'.os == s.os && s'.acceptor == s.acceptor
    requires IsOpen(s'.workers[c].phase) == IsOpen(s.workers[c].phase)
    ensures SocketsOwned(s')
  {
  }

  lemma MovedWorkerStaysOpen(s: State, a: Action, s': State)
    requires Enabled(s, a) && Moves(a) && !a.Close? && s' == Step(s, a) && OneMoved(s, s', a.c)
    ensures IsOpen(s'.workers[a.c].phase) == IsOpen(s.workers[a.c].phase)
  {
    if OfCleanup(a) {
      CleanerStaysOpen(s, a, s');
    } else if OfReservation(a) {
      ReserverStaysOpen(s, a, s');
    } else {
      RequestIsQuiet(s, a, s');
    }
  }

  lemma CleanerStaysOpen(s: State, a: Action, s': State)
    requires Enabled(s, a) && OfCleanup(a) && s' == Step(s, a) && OneMoved(s, s', a.c)
    ensures IsOpen(s'.workers[a.c].phase) && IsOpen(s.workers[a.c].phase)
  {
    if a.CleanBegin? || a.CleanEnd? { } else { SweeperStaysOpen(s, a, s'); }
  }

  lemma SweeperStaysOpen(s: State, a: Action, s': State)
    requires Enabled(s, a) && (a.CleanLook? || a.CleanCancel? || a.CleanShutdown?)
    requires s' == Step(s, a) && OneMoved(s, s', a.c)
    ensures s'.workers[a.c].phase.Sweeping? && s.workers[a.c].phase.Sweeping?
    ensures s'.lock == s.lock && s'.maxSessions == s.maxSessions
  {
  }

  lemma ReserverStaysOpen(s: State, a: Action, s': State)
    requires Enabled(s, a) && OfReservation(a) && s' == Step(s, a) && OneMoved(s, s', a.c)
    ensures IsOpen(s'.workers[a.c].phase) && IsOpen(s.workers[a.c].phase)
  {
  }

  lemma KeepsSockets(s: State, a: Action)
    requires SocketsOwned(s) && Enabled(s, a)
    ensures SocketsOwned(Step(s, a))
  {
    if Moves(a) && !a.Close? {
      var s' := Step(s, a);
      StepMovesOne(s, a);
      MovedWorkerStaysOpen(s, a, s');
      SocketsFrame(s, s', a.c);
    } else if a.Start? || a.Reap? || a.Close? {
      KeepsSocketsOfWorker(s, a);
    } else {
      KeepsSocketsOfAcceptor(s, a);
    }
  }

  lemma KeepsSocketsOfWorker(s: State, a: Action)
    requires SocketsOwned(s) && Enabled(s, a) && (a.Start? || a.Reap? || a.Close?)
    ensures SocketsOwned(Step(s, a))
  {
  }

  lemma KeepsSocketsOfAcceptor(s: State, a: Action)
    requires SocketsOwned(s) && Enabled(s, a) && !Moves(a) && !a.Start? && !a.Reap?
    ensures SocketsOwned(Step(s, a))
  {
    StepMovesNone(s, a);
  }

  // --------------------------------------------------------------- leases

  predicate ChangesLeases(a: Action) { a.ReserveCommit? || a.ReserveLeak? || a.Release? || a.CleanCancel? }

  lemma LeasesFrame(s: State, s': State, c: Conn)
    requires LeasesHeld(s) && OneMoved(s, s', c) && s'.acceptor == s.acceptor && StillFits(s, s', c)
    ensures LeasesHeld(s')
  {
  }

  /** The moved worker still fits the leases, which stay as they are. */
  ghost predicate StillFits(s: State, s': State, c: Conn)
    requires OneMoved(s, s', c)
  {
    && s'.leases == s.leases && s'.maxSessions == s.maxSessions
    && HoldsLease(s'.workers[c].phase) == HoldsLease(s.workers[c].phase)
    && (IsOver(s.workers[c].phase) ==> IsOver(s'.workers[c].phase))
    && (c in s.leases ==> s'.workers[c].sid == s.workers[c].sid)
    && HeldFits(s'.workers[c])
  }

  /** What the invariant says of one worker's lease and resources. */
  predicate WorkerFits(s: State, c: Conn)
    requires c in s.workers
  {
    && HeldFits(s.workers[c])
    && (HoldsLease(s.workers[c].phase) ==> c in s.leases)
    && (c in s.leases ==> HoldsLease(s.workers[c].phase) || IsOver(s.workers[c].phase))
  }

  lemma MovedWorkerFits(s: State, a: Action, s': State)
    requires Enabled(s, a) && Moves(a) && !ChangesLeases(a)
    requires s' == Step(s, a) && OneMoved(s, s', a.c) && WorkerFits(s, a.c)
    ensures StillFits(s, s', a.c)
  {
    if OfCleanup(a) {
      MovedCleanerFits(s, a, s');
    } else if a.Acquire? || a.Drop? {
      MovedHolderFits(s, a, s');
    } else if a.ReadCancelled? || a.WriteStatus? || a.Unwind? {
      MovedPublisherFits(s, a, s');
    } else if a.ReserveBegin? || a.ReserveAbort? {
      MovedReserverFits(s, a, s');
    } else {
      MovedLeaverFits(s, a, s');
    }
  }

  lemma MovedCleanerFits(s: State, a: Action, s': State)
    requires Enabled(s, a) && OfCleanup(a) && !ChangesLeases(a)
    requires s' == Step(s, a) && OneMoved(s, s', a.c) && WorkerFits(s, a.c)
    ensures StillFits(s, s', a.c)
  {
  }

  lemma MovedHolderFits(s: State, a: Action, s': State)
    requires Enabled(s, a) && (a.Acquire? || a.Drop?)
    requires s' == Step(s, a) && OneMoved(s, s', a.c) && WorkerFits(s, a.c)
    ensures StillFits(s, s', a.c)
  {
  }

  lemma MovedPublisherFits(s: State, a: Action, s': State)
    requires Enabled(s, a) && (a.ReadCancelled? || a.WriteStatus? || a.Unwind?)
    requires s' == Step(s, a) && OneMoved(s, s', a.c) && WorkerFits(s, a.c)
    ensures StillFits(s, s', a.c)
  {
  }

  lemma MovedReserverFits(s: State, a: Action, s': State)
    requires Enabled(s, a) && (a.ReserveBegin? || a.ReserveAbort?)
    requires s' == Step(s, a) && OneMoved(s, s', a.c) && WorkerFits(s, a.c)
    ensures StillFits(s, s', a.c)
  {
  }

  lemma MovedLeaverFits(s: State, a: Action, s': State)
    requires Enabled(s, a) && (a.Return? || a.Close? || a.StoreDone?)
    requires s' == Step(s, a) && OneMoved(s, s', a.c) && WorkerFits(s, a.c)
    ensures StillFits(s, s', a.c)
  {
  }

  lemma KeepsLeases(s: State, a: Action)
    requires LeasesHeld(s) && LockHeld(s) && SweepOnTrack(s) && SocketsOwned(s) && Enabled(s, a)
    ensures LeasesHeld(Step(s, a))
  {
    if Moves(a) && !ChangesLeases(a) {
      StepMovesOne(s, a);
      MovedWorkerFits(s, a, Step(s, a));
      LeasesFrame(s, Step(s, a), a.c);
    } else if a.ReserveCommit? || a.ReserveLeak? {
      LeaseAdded(s, a);
    } else if a.Release? {
      LeaseRemoved(s, a.c);
    } else if a.CleanCancel? {
      StepMovesOne(s, a);
      LeaseCancelled(s, a.c, Step(s, a));
    } else if a.Start? || a.Reap? {
      KeepsLeasesOfWorker(s, a);
    } else {
      StepMovesNone(s, a);
      KeepsLeasesOfNone(s, a, Step(s, a));
    }
  }

  lemma LeaseAdded(s: State, a: Action)
    requires LeasesHeld(s) && LockHeld(s) && SocketsOwned(s) && Enabled(s, a) && (a.ReserveCommit? || a.ReserveLeak?)
    ensures LeasesHeld(Step(s, a))
  {
    var s' := Step(s, a);
    StepMovesOne(s, a);
    assert |s.leases| < s.maxSessions;
    LeaseAddedFrame(s, s', a.c);
  }

  lemma LeaseAddedFrame(s: State, s': State, c: Conn)
    requires LeasesHeld(s) && SocketsOwned(s) && OneMoved(s, s', c) && s'.acceptor == s.acceptor
    requires |s.leases| < s.maxSessions == s'.maxSessions && s'.leases == s.leases[c := NewLease(s, c)]
    requires HoldsLease(s'.workers[c].phase) || (IsOver(s'.workers[c].phase) && s.workers[c].held == NONE)
    requires s'.workers[c] == s.workers[c].(phase := s'.workers[c].phase)
    ensures LeasesHeld(s')
  {
    assert LeaseFits(s', c);
    forall l | l in s'.leases
      ensures LeaseFits(s', l)
    {
      if l != c { assert LeaseFits(s, l); }
    }
  }

  lemma LeaseRemoved(s: State, c: Conn)
    requires LeasesHeld(s) && Enabled(s, Release(c))
    ensures LeasesHeld(Step(s, Release(c)))
  {
    var s' := Step(s, Release(c));
    assert s' == Move(s, c, Returning).(leases := s.leases - {c});
    SizeWithout(s.leases, c);
    LeaseRemovedFrame(s, s', c);
  }

  lemma LeaseRemovedFrame(s: State, s': State, c: Conn)
    requires LeasesHeld(s) && c in s.workers && s.workers[c].held == NONE && |s.leases - {c}| <= s.maxSessions
    requires s' == Move(s, c, Returning).(leases := s.leases - {c})
    ensures LeasesHeld(s')
  {
    forall w | w in s'.workers
      ensures HeldFits(s'.workers[w]) && (HoldsLease(s'.workers[w].phase) ==> w in s'.leases)
    {
      assert w != c ==> s'.workers[w] == s.workers[w];
    }
    forall l | l in s'.leases
      ensures LeaseFits(s', l)
    {
      assert LeaseFits(s, l) && l != c;
    }
  }

  function Cancelled(s: State, l: Conn): State
    requires l in s.leases
  {
    s.(leases := s.leases[l := s.leases[l].(cancelled := true)])
  }

  lemma CancellingKeepsLeases(s: State, l: Conn)
    requires LeasesHeld(s) && l in s.leases
    ensures LeasesHeld(Cancelled(s, l))
  {
    assert Cancelled(s, l).leases.Keys == s.leases.Keys;
  }

  lemma LeaseCancelled(s: State, c: Conn, s': State)
    requires LeasesHeld(s) && Enabled(s, CleanCancel(c)) && s' == Step(s, CleanCancel(c)) && OneMoved(s, s', c)
    requires s'.acceptor == s.acceptor
    ensures LeasesHeld(s')
  {
    var l := s.workers[c].phase.stage.of;
    CancellingKeepsLeases(s, l);
    assert HeldFits(s.workers[c]);
    LeasesFrame(Cancelled(s, l), s', c);
  }

  lemma KeepsLeasesOfNone(s: State, a: Action, s': State)
    requires LeasesHeld(s) && SocketsOwned(s) && Enabled(s, a) && !Moves(a) && !a.Start? && !a.Reap? && s' == Step(s, a)
    requires s'.workers == s.workers && s'.leases == s.leases && s'.maxSessions == s.maxSessions
    ensures LeasesHeld(s')
  {
    assert s.next <= s'.next;
    assert s'.acceptor.Accepted? ==> s'.acceptor == s.acceptor || s'.acceptor.conn == s.next;
  }

  lemma KeepsLeasesOfWorker(s: State, a: Action)
    requires LeasesHeld(s) && SocketsOwned(s) && Enabled(s, a) && (a.Start? || a.Reap?)
    ensures LeasesHeld(Step(s, a))
  {
  }

  // ------------------------------------------------------ registry mutex

  predicate Locking(p: Phase) { p.Reserving? || p.Sweeping? }

  /** How one worker's step may change the registry mutex. */
  ghost predicate Locks(s: State, s': State, c: Conn)
    requires OneMoved(s, s', c)
  {
    && s'.lock == (if Locking(s'.workers[c].phase) then Some(c) else if s.lock == Some(c) then None else s.lock)
    && (Locking(s'.workers[c].phase) ==> s.lock == None || s.lock == Some(c))
    && s'.maxSessions == s.maxSessions
    && (s'.workers[c].phase.Reserving? ==> |s'.leases| < s'.maxSessions)
  }

  lemma LockFrame(s: State, s': State, c: Conn)
    requires LockHeld(s) && OneMoved(s, s', c) && Locks(s, s', c)
    requires |s'.leases| <= |s.leases| || s'.lock == None
    ensures LockHeld(s')
  {
  }

  lemma MovedWorkerLocks(s: State, a: Action, s': State)
    requires LockHeld(s) && Enabled(s, a) && Moves(a)
    requires s' == Step(s, a) && OneMoved(s, s', a.c)
    ensures Locks(s, s', a.c)
  {
    if OfCleanup(a) {
      CleanupLocks(s, a, s');
    } else if OfReservation(a) {
      ReservationLocks(s, a, s');
    } else {
      RequestIsQuiet(s, a, s');
    }
  }

  lemma CleanupLocks(s: State, a: Action, s': State)
    requires LockHeld(s) && Enabled(s, a) && OfCleanup(a)
    requires s' == Step(s, a) && OneMoved(s, s', a.c)
    ensures Locks(s, s', a.c)
  {
    if a.CleanBegin? || a.CleanEnd? { } else { SweeperStaysOpen(s, a, s'); }
  }

  lemma ReservationLocks(s: State, a: Action, s': State)
    requires LockHeld(s) && Enabled(s, a) && OfReservation(a)
    requires s' == Step(s, a) && OneMoved(s, s', a.c)
    ensures Locks(s, s', a.c)
  {
    if a.ReserveBegin? {
      BeginLocks(s, a.c, a.sid, a.token, s');
    } else if a.Release? {
      assert s'.workers[a.c].phase == Returning;
    } else {
      EndLocks(s, a, s');
    }
  }

  lemma EndLocks(s: State, a: Action, s': State)
    requires LockHeld(s) && Enabled(s, a) && (a.ReserveCommit? || a.ReserveAbort? || a.ReserveLeak?)
    requires s' == Step(s, a) && OneMoved(s, s', a.c)
    ensures Locks(s, s', a.c)
  {
    assert s.lock == Some(a.c);
  }

  lemma BeginLocks(s: State, c: Conn, sid: string, token: bytes, s': State)
    requires LockHeld(s) && Enabled(s, ReserveBegin(c, sid, token))
    requires s' == Step(s, ReserveBegin(c, sid, token)) && OneMoved(s, s', c)
    ensures Locks(s, s', c)
  {
  }

  lemma LeaseCount(s: State, a: Action)
    requires Enabled(s, a)
    ensures |Step(s, a).leases| <= |s.leases| || Step(s, a).lock == None
  {
    if a.Release? {
      SizeWithout(s.leases, a.c);
    } else if a.CleanCancel? {
      var l := s.workers[a.c].phase.stage.of;
      SizeWith(s.leases, l, s.leases[l].(cancelled := true));
    } else if !a.ReserveCommit? && !a.ReserveLeak? {
      LeasesStay(s, a);
    }
  }

  /** Only these steps add, remove or change a session. */
  lemma LeasesStay(s: State, a: Action)
    requires Enabled(s, a) && !ChangesLeases(a)
    ensures Step(s, a).leases == s.leases
  {
    if a.Start? || a.Reap? {
    } else if !Moves(a) {
      StepMovesNone(s, a);
    } else if OfCleanup(a) {
      CleanupMovesOne(s, a);
      CleanerLeavesLeases(s, a);
    } else if !OfReservation(a) {
      RequestMovesOne(s, a);
      RequestIsQuiet(s, a, Step(s, a));
    }
  }

  lemma CleanerLeavesLeases(s: State, a: Action)
    requires Enabled(s, a) && OfCleanup(a) && !a.CleanCancel?
    ensures Step(s, a).leases == s.leases
  {
    if a.CleanBegin? || a.CleanEnd? { } else { SweeperLeavesLeases(s, a); }
  }

  lemma SweeperLeavesLeases(s: State, a: Action)
    requires Enabled(s, a) && (a.CleanLook? || a.CleanShutdown?)
    ensures Step(s, a).leases == s.leases
  {
  }

  lemma KeepsLock(s: State, a: Action)
    requires LockHeld(s) && SweepOnTrack(s) && SocketsOwned(s) && Enabled(s, a)
    ensures LockHeld(Step(s, a))
  {
    if Moves(a) {
      StepMovesOne(s, a);
      MovedWorkerLocks(s, a, Step(s, a));
      LeaseCount(s, a);
      LockFrame(s, Step(s, a), a.c);
    } else if a.Start? || a.Reap? {
      KeepsLockOfWorker(s, a);
    } else {
      StepMovesNone(s, a);
    }
  }

  lemma KeepsLockOfWorker(s: State, a: Action)
    requires LockHeld(s) && SocketsOwned(s) && Enabled(s, a) && (a.Start? || a.Reap?)
    ensures LockHeld(Step(s, a))
  {
  }

  // ------------------------------------------------ cleanup and fencing

  lemma KeepsSweep(s: State, a: Action)
    requires LockHeld(s) && SweepOnTrack(s) && LeasesHeld(s) && SocketsOwned(s) && Enabled(s, a)
    ensures SweepOnTrack(Step(s, a))
  {
    if Moves(a) {
      KeepsSweepMoving(s, a);
    } else if a.Start? || a.Reap? {
    } else {
      StepMovesNone(s, a);
    }
  }

  lemma KeepsSweepMoving(s: State, a: Action)
    requires LockHeld(s) && SweepOnTrack(s) && LeasesHeld(s) && Enabled(s, a) && Moves(a)
    ensures SweepOnTrack(Step(s, a))
  {
    StepMovesOne(s, a);
    if OfCleanup(a) { SweepAdvances(s, a); } else { SweepUndisturbed(s, a, Step(s, a)); }
  }

  lemma SweepAdvances(s: State, a: Action)
    requires LockHeld(s) && SweepOnTrack(s) && LeasesHeld(s) && Enabled(s, a) && OfCleanup(a)
    ensures SweepOnTrack(Step(s, a))
  {
    if a.CleanCancel? { SweepCancels(s, a.c); } else { SweepGoesOn(s, a); }
  }

  lemma SweepCancels(s: State, c: Conn)
    requires LockHeld(s) && SweepOnTrack(s) && Enabled(s, CleanCancel(c))
    ensures SweepOnTrack(Step(s, CleanCancel(c)))
  {
    assert s.lock == Some(c);
    assert Step(s, CleanCancel(c)).leases.Keys == s.leases.Keys;
  }

  lemma SweepGoesOn(s: State, a: Action)
    requires LockHeld(s) && SweepOnTrack(s) && Enabled(s, a) && OfCleanup(a) && !a.CleanCancel?
    ensures SweepOnTrack(Step(s, a))
  {
    assert !a.CleanBegin? ==> s.lock == Some(a.c);
  }

  ghost predicate CleanupRuns(s: State) {
    s.lock.Some? && s.lock.value in s.workers && s.workers[s.lock.value].phase.Sweeping?
  }

  /** While a cleanup runs, no other step adds, removes or changes a session. */
  lemma SweepUndisturbed(s: State, a: Action, s': State)
    requires LockHeld(s) && SweepOnTrack(s) && Enabled(s, a) && Moves(a) && !OfCleanup(a)
    requires s' == Step(s, a) && OneMoved(s, s', a.c)
    ensures SweepOnTrack(s')
    ensures CleanupRuns(s) ==>
              s'.lock == s.lock && s'.leases == s.leases && s'.workers[s.lock.value] == s.workers[s.lock.value]
              && s'.fence == s.fence
  {
    if OfReservation(a) { ReservationWaits(s, a, s'); } else { RequestIsQuiet(s, a, s'); }
  }

  lemma ReservationWaits(s: State, a: Action, s': State)
    requires LockHeld(s) && Enabled(s, a) && OfReservation(a)
    requires s' == Step(s, a) && OneMoved(s, s', a.c)
    ensures !CleanupRuns(s')
    ensures !CleanupRuns(s)
  {
    NoCleanupBefore(s, a);
    NoCleanupAfter(s, a, s');
  }

  lemma NoCleanupBefore(s: State, a: Action)
    requires LockHeld(s) && Enabled(s, a) && OfReservation(a)
    ensures !CleanupRuns(s)
  {
    if a.ReserveBegin? || a.Release? { } else { assert s.lock == Some(a.c); }
  }

  lemma NoCleanupAfter(s: State, a: Action, s': State)
    requires Enabled(s, a) && OfReservation(a) && s' == Step(s, a) && OneMoved(s, s', a.c)
    ensures !CleanupRuns(s')
  {
    if a.ReserveBegin? {
      assert s'.lock == None || s'.lock == Some(a.c);
    } else {
      assert s'.lock == None;
    }
  }

  lemma KeepsFence(s: State, a: Action)
    requires Fenced(s) && LockHeld(s) && SweepOnTrack(s) && SocketsOwned(s) && Enabled(s, a)
    ensures Fenced(Step(s, a))
  {
    if Moves(a) {
      KeepsFenceMoving(s, a);
    } else if a.Start? || a.Reap? {
    } else {
      StepMovesNone(s, a);
    }
  }

  lemma KeepsFenceMoving(s: State, a: Action)
    requires Fenced(s) && LockHeld(s) && SweepOnTrack(s) && Enabled(s, a) && Moves(a)
    ensures Fenced(Step(s, a))
  {
    StepMovesOne(s, a);
    if OfCleanup(a) {
      CleanupFences(s, a, Step(s, a));
    } else {
      RequestStaysFenced(s, a, Step(s, a));
    }
  }

  lemma CleanupFences(s: State, a: Action, s': State)
    requires Fenced(s) && LockHeld(s) && SweepOnTrack(s) && Enabled(s, a) && OfCleanup(a) && s' == Step(s, a)
    ensures Fenced(s')
  {
    if a.CleanBegin? {
      BeginFences(s, a, s');
    } else if a.CleanLook? {
      LookFences(s, a, s');
    } else if a.CleanCancel? {
      CancelFences(s, a, s');
    } else {
      RestFences(s, a, s');
    }
  }

  lemma BeginFences(s: State, a: Action, s': State)
    requires Fenced(s) && LockHeld(s) && SweepOnTrack(s) && Enabled(s, a) && a.CleanBegin? && s' == Step(s, a)
    ensures Fenced(s')
  {
  }

  lemma LookFences(s: State, a: Action, s': State)
    requires Fenced(s) && LockHeld(s) && SweepOnTrack(s) && Enabled(s, a) && a.CleanLook? && s' == Step(s, a)
    ensures Fenced(s')
  {
    assert s.lock == Some(a.c);
  }

  lemma CancelFences(s: State, a: Action, s': State)
    requires Fenced(s) && LockHeld(s) && SweepOnTrack(s) && Enabled(s, a) && a.CleanCancel? && s' == Step(s, a)
    ensures Fenced(s')
  {
    assert s.lock == Some(a.c);
  }

  lemma RestFences(s: State, a: Action, s': State)
    requires Fenced(s) && LockHeld(s) && SweepOnTrack(s) && Enabled(s, a) && (a.CleanShutdown? || a.CleanEnd?)
    requires s' == Step(s, a)
    ensures Fenced(s')
  {
    assert s.lock == Some(a.c);
  }

  lemma RequestStaysFenced(s: State, a: Action, s': State)
    requires Fenced(s) && LockHeld(s) && Enabled(s, a) && Moves(a) && !OfCleanup(a)
    requires s' == Step(s, a) && OneMoved(s, s', a.c)
    ensures Fenced(s')
  {
    if OfReservation(a) {
      ReservationStaysFenced(s, a, s');
    } else {
      RequestIsQuiet(s, a, s');
      QuietStaysFenced(s, s', a.c);
    }
  }

  lemma QuietStaysFenced(s: State, s': State, c: Conn)
    requires Fenced(s) && LockHeld(s) && OneMoved(s, s', c) && Quiet(s, s', c)
    ensures Fenced(s')
  {
  }

  lemma ReservationStaysFenced(s: State, a: Action, s': State)
    requires Fenced(s) && LockHeld(s) && Enabled(s, a) && OfReservation(a)
    requires s' == Step(s, a) && OneMoved(s, s', a.c)
    ensures Fenced(s')
  {
    ReservationWaits(s, a, s');
    assert s'.fence == s.fence;
  }

  /** Every step keeps the whole invariant. */
  lemma StepKeepsInv(s: State, a: Action)
    requires Inv(s) && Enabled(s, a)
    ensures Inv(Step(s, a))
  {
    KeepsSockets(s, a);
    KeepsLeases(s, a);
    KeepsLock(s, a);
    KeepsSweep(s, a);
    KeepsFence(s, a);
  }
}
