// The cleanup of the transition system, when nothing comes between its steps, does
// what the registry's Clean does to leases, statuses and generation.
module ProtocolCleanup {
  import opened Bytes
  import opened SessionStatus
  import opened ConnectionProtocol
  import opened ProtocolRuns
  import R = SessionRegistry

  /** The sessions of `order` as the registry sees them. */
  function Views(leases: map<Conn, Lease>, order: seq<Conn>): (views: seq<R.Lease>)
    requires forall l | l in order :: l in leases
    ensures |views| == |order|
  {
    seq(|order|, i requires 0 <= i < |order| => assert order[i] in order; leases[order[i]])
  }

  /** The leases once these sessions have been cancelled. */
  function WithCancelled(leases: map<Conn, Lease>, done: seq<Conn>): map<Conn, Lease> {
    map l | l in leases :: if l in done then leases[l].(cancelled := true) else leases[l]
  }

  function Members(conns: seq<Conn>): set<Conn> {
    set l | l in conns
  }

  /** The order lists every lease once. */
  ghost predicate Lists(order: seq<Conn>, leases: map<Conn, Lease>) {
    && (forall l :: l in order <==> l in leases)
    && (forall i, j | 0 <= i < j < |order| :: order[i] != order[j])
  }

  /** The state after the first k sessions of `order`, for a cleanup that began in s. */
  ghost function SweptTo(s: State, c: Conn, order: seq<Conn>, k: nat): State
    requires c in s.workers && Lists(order, s.leases) && k <= |order|
  {
    Move(s, c, Sweeping(Members(order[k..]), Between)).(
      fence := R.NextGeneration(s.fence), lock := Some(c),
      leases := WithCancelled(s.leases, order[..k]),
      statuses := R.MarkedStatuses(s.statuses, Views(s.leases, order)[..k], s.now))
  }

  /** What the registry's Clean leaves: everything cancelled, every session marked that was not, the next generation. */
  ghost function CleanedUp(s: State, c: Conn, order: seq<Conn>): State
    requires c in s.workers && Lists(order, s.leases)
  {
    Move(s, c, Returning).(
      fence := R.NextGeneration(s.fence), lock := None,
      leases := WithCancelled(s.leases, order),
      statuses := R.MarkedStatuses(s.statuses, Views(s.leases, order), s.now))
  }

  lemma Begins(s: State, c: Conn, order: seq<Conn>)
    requires Enabled(s, CleanBegin(c)) && Lists(order, s.leases)
    ensures Step(s, CleanBegin(c)) == SweptTo(s, c, order, 0)
  {
    assert WithCancelled(s.leases, order[..0]) == s.leases;
    assert Members(order[0..]) == s.leases.Keys;
  }

  lemma Ends(s: State, c: Conn, order: seq<Conn>)
    requires c in s.workers && Lists(order, s.leases)
    ensures Enabled(SweptTo(s, c, order, |order|), CleanEnd(c))
    ensures Step(SweptTo(s, c, order, |order|), CleanEnd(c)) == CleanedUp(s, c, order)
  {
    var t := SweptTo(s, c, order, |order|);
    assert Members(order[|order|..]) == {};
    assert order[..|order|] == order && Views(s.leases, order)[..|order|] == Views(s.leases, order);
    assert Step(t, CleanEnd(c)).workers == CleanedUp(s, c, order).workers;
  }

  lemma TodoShrinks(order: seq<Conn>, k: nat)
    requires k < |order| && forall i, j | 0 <= i < j < |order| :: order[i] != order[j]
    ensures order[k] in Members(order[k..]) && Members(order[k + 1..]) == Members(order[k..]) - {order[k]}
  {
    assert order[k..] == [order[k]] + order[k + 1..];
    assert order[k] !in order[k + 1..];
  }

  lemma LeasesAdvance(leases: map<Conn, Lease>, order: seq<Conn>, k: nat)
    requires k < |order| && order[k] in leases && forall i, j | 0 <= i < j < |order| :: order[i] != order[j]
    ensures var l := order[k]; var before := WithCancelled(leases, order[..k]);
            && l in before && before[l] == leases[l]
            && WithCancelled(leases, order[..k + 1]) == before[l := leases[l].(cancelled := true)]
  {
    assert order[..k + 1] == order[..k] + [order[k]];
    assert order[k] !in order[..k];
  }

  lemma StatusesAdvance(s: State, order: seq<Conn>, k: nat)
    requires Lists(order, s.leases) && k < |order| && order[k] in s.leases
    ensures var l := s.leases[order[k]]; var views := Views(s.leases, order);
            var before := R.MarkedStatuses(s.statuses, views[..k], s.now);
            R.MarkedStatuses(s.statuses, views[..k + 1], s.now) ==
            if l.cancelled then before else Ended(before, l.sid, ManualCleanup, NOTHING, s.now)
  {
    R.CleanNext(s.statuses, [], Views(s.leases, order), k, s.now);
  }

  lemma MayLook(s: State, c: Conn, order: seq<Conn>, k: nat)
    requires c in s.workers && Lists(order, s.leases) && k < |order| && order[k] in s.leases
    ensures Enabled(SweptTo(s, c, order, k), CleanLook(c, order[k]))
    ensures SweptTo(s, c, order, k).leases[order[k]] == s.leases[order[k]]
  {
    TodoShrinks(order, k);
    LeasesAdvance(s.leases, order, k);
  }

  // One step at a time, on any state.

  lemma LookStep(t: State, c: Conn, l: Conn)
    requires Enabled(t, CleanLook(c, l))
    ensures var next := t.workers[c].phase.todo - {l};
            Step(t, CleanLook(c, l)) ==
            if t.leases[l].cancelled then Move(t, c, Sweeping(next, Between))
            else Move(t, c, Sweeping(next, Marked(l))).(
              statuses := Ended(t.statuses, t.leases[l].sid, ManualCleanup, NOTHING, t.now))
  {
  }

  lemma CancelStep(t: State, c: Conn)
    requires Enabled(t, CleanCancel(c))
    ensures var p := t.workers[c].phase;
            Step(t, CleanCancel(c)) == Move(t, c, Sweeping(p.todo, CancelStored(p.stage.of))).(
              leases := t.leases[p.stage.of := t.leases[p.stage.of].(cancelled := true)])
  {
  }

  lemma ShutdownStep(t: State, c: Conn)
    requires Enabled(t, CleanShutdown(c))
    ensures Step(t, CleanShutdown(c)) == Move(t, c, Sweeping(t.workers[c].phase.todo, Between))
  {
  }

  /** Moving a worker twice is moving it to where it ends up. */
  lemma MoveTwice(s: State, c: Conn, p: Phase, q: Phase)
    requires c in s.workers
    ensures Move(Move(s, c, p), c, q).workers == Move(s, c, q).workers
  {
  }

  /** A session that was cancelled before is passed over. */
  lemma PassesOver(s: State, c: Conn, order: seq<Conn>, k: nat)
    requires c in s.workers && Lists(order, s.leases) && k < |order| && order[k] in s.leases
    requires s.leases[order[k]].cancelled
    ensures Enabled(SweptTo(s, c, order, k), CleanLook(c, order[k]))
    ensures Step(SweptTo(s, c, order, k), CleanLook(c, order[k])) == SweptTo(s, c, order, k + 1)
  {
    MayLook(s, c, order, k);
    LookStep(SweptTo(s, c, order, k), c, order[k]);
    TodoShrinks(order, k);
    StatusesAdvance(s, order, k);
    LeasesPassOver(s.leases, order, k);
    MoveTwice(s, c, Sweeping(Members(order[k..]), Between), Sweeping(Members(order[k + 1..]), Between));
  }

  lemma LeasesPassOver(leases: map<Conn, Lease>, order: seq<Conn>, k: nat)
    requires k < |order| && order[k] in leases && leases[order[k]].cancelled
    requires forall i, j | 0 <= i < j < |order| :: order[i] != order[j]
    ensures WithCancelled(leases, order[..k + 1]) == WithCancelled(leases, order[..k])
  {
    LeasesAdvance(leases, order, k);
    assert leases[order[k]].(cancelled := true) == leases[order[k]];
  }

  /** Between looking at a session and disconnecting it. */
  ghost function Halfway(s: State, c: Conn, order: seq<Conn>, k: nat, cancelled: bool): State
    requires c in s.workers && Lists(order, s.leases) && k < |order|
  {
    var l := order[k];
    Move(s, c, Sweeping(Members(order[k + 1..]), if cancelled then CancelStored(l) else Marked(l))).(
      fence := R.NextGeneration(s.fence), lock := Some(c),
      leases := WithCancelled(s.leases, order[..if cancelled then k + 1 else k]),
      statuses := R.MarkedStatuses(s.statuses, Views(s.leases, order)[..k + 1], s.now))
  }

  lemma LooksAt(s: State, c: Conn, order: seq<Conn>, k: nat)
    requires c in s.workers && Lists(order, s.leases) && k < |order| && order[k] in s.leases
    requires !s.leases[order[k]].cancelled
    ensures Enabled(SweptTo(s, c, order, k), CleanLook(c, order[k]))
    ensures Step(SweptTo(s, c, order, k), CleanLook(c, order[k])) == Halfway(s, c, order, k, false)
  {
    MayLook(s, c, order, k);
    LookStep(SweptTo(s, c, order, k), c, order[k]);
    TodoShrinks(order, k);
    StatusesAdvance(s, order, k);
    MoveTwice(s, c, Sweeping(Members(order[k..]), Between), Sweeping(Members(order[k + 1..]), Marked(order[k])));
  }

  lemma CancelsNext(s: State, c: Conn, order: seq<Conn>, k: nat)
    requires c in s.workers && Lists(order, s.leases) && k < |order| && order[k] in s.leases
    requires !s.leases[order[k]].cancelled
    ensures Enabled(Halfway(s, c, order, k, false), CleanCancel(c))
    ensures Step(Halfway(s, c, order, k, false), CleanCancel(c)) == Halfway(s, c, order, k, true)
  {
    LeasesAdvance(s.leases, order, k);
    CancelStep(Halfway(s, c, order, k, false), c);
    MoveTwice(s, c, Sweeping(Members(order[k + 1..]), Marked(order[k])),
              Sweeping(Members(order[k + 1..]), CancelStored(order[k])));
  }

  lemma DisconnectsNext(s: State, c: Conn, order: seq<Conn>, k: nat)
    requires c in s.workers && Lists(order, s.leases) && k < |order| && order[k] in s.leases
    ensures Enabled(Halfway(s, c, order, k, true), CleanShutdown(c))
    ensures Step(Halfway(s, c, order, k, true), CleanShutdown(c)) == SweptTo(s, c, order, k + 1)
  {
    LeasesAdvance(s.leases, order, k);
    ShutdownStep(Halfway(s, c, order, k, true), c);
    MoveTwice(s, c, Sweeping(Members(order[k + 1..]), CancelStored(order[k])),
              Sweeping(Members(order[k + 1..]), Between));
  }

  /** The cleanup has nothing to do with a socket, or it is the session's own. */
  predicate MeetsSafely(s: State, l: Conn) {
    l in s.leases && !s.leases[l].cancelled ==> IsLive(s, l)
  }

  /** The run so far has disconnected no orphan, exactly if all these sessions still had their sockets. */
  predicate SparedAsFar(s: State, steps: seq<Action>, met: seq<Conn>)
    requires IsRun(s, steps)
  {
    SparesOrphans(s, steps) <==> forall l | l in met :: MeetsSafely(s, l)
  }

  lemma Sweeps(s: State, c: Conn, order: seq<Conn>, k: nat, steps: seq<Action>) returns (longer: seq<Action>)
    requires c in s.workers && IsOpen(s.workers[c].phase) && Lists(order, s.leases) && k < |order|
    requires IsRun(s, steps) && After(s, steps) == SweptTo(s, c, order, k) && SparedAsFar(s, steps, order[..k])
    ensures IsRun(s, longer) && After(s, longer) == SweptTo(s, c, order, k + 1)
    ensures SparedAsFar(s, longer, order[..k + 1])
  {
    assert order[k] in order;
    MetOneMore(s, order, k);
    if s.leases[order[k]].cancelled {
      PassesOver(s, c, order, k);
      longer := Then(s, steps, CleanLook(c, order[k]));
    } else {
      longer := SweepsLive(s, c, order, k, steps);
    }
  }

  lemma MetOneMore(s: State, order: seq<Conn>, k: nat)
    requires k < |order|
    ensures (forall l | l in order[..k + 1] :: MeetsSafely(s, l)) <==>
            (forall l | l in order[..k] :: MeetsSafely(s, l)) && MeetsSafely(s, order[k])
  {
    assert order[..k + 1] == order[..k] + [order[k]];
  }

  lemma SweepsLive(s: State, c: Conn, order: seq<Conn>, k: nat, steps: seq<Action>) returns (longer: seq<Action>)
    requires c in s.workers && IsOpen(s.workers[c].phase) && Lists(order, s.leases) && k < |order|
    requires order[k] in s.leases && !s.leases[order[k]].cancelled
    requires IsRun(s, steps) && After(s, steps) == SweptTo(s, c, order, k)
    ensures IsRun(s, longer) && After(s, longer) == SweptTo(s, c, order, k + 1)
    ensures SparesOrphans(s, longer) <==> SparesOrphans(s, steps) && IsLive(s, order[k])
  {
    LooksAt(s, c, order, k);
    longer := Then(s, steps, CleanLook(c, order[k]));
    CancelsNext(s, c, order, k);
    longer := Then(s, longer, CleanCancel(c));
    DisconnectsNext(s, c, order, k);
    HalfwayIsLive(s, c, order, k);
    longer := Then(s, longer, CleanShutdown(c));
  }

  lemma HalfwayIsLive(s: State, c: Conn, order: seq<Conn>, k: nat)
    requires c in s.workers && IsOpen(s.workers[c].phase) && Lists(order, s.leases) && k < |order|
    requires order[k] in s.leases
    ensures var t := Halfway(s, c, order, k, true);
            t.workers[c].phase.stage.of == order[k] && (Orphaned(t, order[k]) <==> !IsLive(s, order[k]))
  {
    assert order[k] in Halfway(s, c, order, k, true).leases;
  }

  /** The run is extended by one step. */
  lemma Then(s: State, steps: seq<Action>, a: Action) returns (longer: seq<Action>)
    requires IsRun(s, steps) && Enabled(After(s, steps), a)
    ensures IsRun(s, longer) && longer == steps + [a] && After(s, longer) == Step(After(s, steps), a)
    ensures SparesOrphans(s, longer) <==> SparesOrphans(s, steps) && !DisconnectsOrphan(After(s, steps), a)
  {
    OneMoreStep(s, steps, a);
    SparesOneMore(s, steps, a);
    longer := steps + [a];
  }

  /**
   * Alone, the cleanup of the transition system has the effect of the registry's Clean, in any order of the sessions.
   */
  lemma CleanupAlone(s: State, c: Conn, order: seq<Conn>) returns (steps: seq<Action>)
    requires Enabled(s, CleanBegin(c)) && Lists(order, s.leases)
    ensures IsRun(s, steps) && After(s, steps) == CleanedUp(s, c, order)
    ensures SparesOrphans(s, steps) <==> forall l | l in order :: MeetsSafely(s, l)
  {
    steps := Then(s, [], CleanBegin(c));
    Begins(s, c, order);
    for k := 0 to |order|
      invariant IsRun(s, steps) && After(s, steps) == SweptTo(s, c, order, k) && SparedAsFar(s, steps, order[..k])
    {
      steps := Sweeps(s, c, order, k, steps);
    }
    Ends(s, c, order);
    assert order[..|order|] == order;
    steps := Then(s, steps, CleanEnd(c));
  }

  /**
   * A cleanup alone reaches only its own sessions' sockets if and only if no uncancelled session has lost its socket.
   */
  lemma CleanupIsAimedIff(s: State, c: Conn, order: seq<Conn>) returns (steps: seq<Action>)
    requires Inv(s) && Enabled(s, CleanBegin(c)) && Lists(order, s.leases)
    ensures IsRun(s, steps) && After(s, steps) == CleanedUp(s, c, order)
    ensures AllAimed(Trace(s, steps)) <==> forall l | l in s.leases && !s.leases[l].cancelled :: IsLive(s, l)
  {
    steps := CleanupAlone(s, c, order);
    DescriptorsAreSafe(s, steps);
    if forall l | l in order :: MeetsSafely(s, l) {
      assert forall l | l in s.leases :: MeetsSafely(s, l);
    }
  }
}
