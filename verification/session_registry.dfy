// The registry of playing sessions: capacity, the generation token that fences off
// requests from before a cleanup, and permanent cancellation of what a cleanup met.
module SessionRegistry {
  import opened Bytes
  import Numerals
  import opened SessionStatus

  const TWO64: nat := 0x1_0000_0000_0000_0000

  // ------------------------------------------------- generation fencing

  /** The part of the registry that decides which playback tokens are still good. */
  datatype Fence = Fence(epoch: bytes, sequence: nat, generation: bytes, cleaned: bool)

  /** The token of the n-th cleanup of a service instance. */
  function Token(epoch: bytes, n: nat): (token: bytes)
    ensures token != []
  {
    epoch + [0x2D] + Numerals.Rendered(n, 10)
  }

  lemma TokensDiffer(epoch: bytes, m: nat, n: nat)
    requires Token(epoch, m) == Token(epoch, n)
    ensures m == n
  {
    var a, b := Token(epoch, m), Token(epoch, n);
    assert a[|epoch| + 1..] == Numerals.Rendered(m, 10) && b[|epoch| + 1..] == Numerals.Rendered(n, 10);
    Numerals.RenderedIsInjective(m, n, 10);
  }

  predicate WellFormed(f: Fence) {
    f.sequence < TWO64 && f.generation == Token(f.epoch, f.sequence)
  }

  function NewFence(epoch: bytes): Fence {
    Fence(epoch, 0, Token(epoch, 0), false)
  }

  /** A cleanup moves to the next generation; the counter is 64 bits wide. */
  function NextGeneration(f: Fence): Fence {
    var n := (f.sequence + 1) % TWO64;
    Fence(f.epoch, n, Token(f.epoch, n), true)
  }

  /** An empty token is a legacy client's; it is good until the first cleanup. */
  predicate Accepts(f: Fence, token: bytes) {
    if token == [] then !f.cleaned else token == f.generation
  }

  /**
   * A token is accepted if it is empty and there was no cleanup yet, or if it is the service instance's epoch, a hyphen
   * and the number of cleanups so far; no other number of cleanups gives an accepted token.
   */
  lemma AcceptedTokens(f: Fence, token: bytes, n: nat)
    requires WellFormed(f)
    ensures token == [] ==> (Accepts(f, token) <==> !f.cleaned)
    ensures token != [] ==> (Accepts(f, token) <==> token == f.epoch + [0x2D] + Numerals.Rendered(f.sequence, 10))
    ensures token == f.epoch + [0x2D] + Numerals.Rendered(n, 10) ==> (Accepts(f, token) <==> n == f.sequence)
  {
    if Token(f.epoch, n) == Token(f.epoch, f.sequence) { TokensDiffer(f.epoch, n, f.sequence); }
  }

  datatype Admission = Stale | Full | Admitted

  /** `reserve` before it touches anything: the token first, then the capacity. */
  function Admit(f: Fence, token: bytes, occupied: nat, max: nat): Admission {
    if !Accepts(f, token) then Stale else if occupied >= max then Full else Admitted
  }

  function Generations(f: Fence, n: nat): Fence {
    if n == 0 then f else NextGeneration(Generations(f, n - 1))
  }

  lemma CounterStep(a: nat)
    ensures (a % TWO64 + 1) % TWO64 == (a + 1) % TWO64
  {
  }

  lemma CounterReturns(a: nat, n: nat)
    requires a < TWO64
    ensures (a + n) % TWO64 == a <==> n % TWO64 == 0
  {
    var q, r := n / TWO64, n % TWO64;
    assert a + n == (a + r) + q * TWO64;
    assert (a + n) % TWO64 == (a + r) % TWO64;
  }

  lemma {:induction false} GenerationAfter(f: Fence, n: nat)
    requires WellFormed(f)
    ensures WellFormed(Generations(f, n))
    ensures Generations(f, n).epoch == f.epoch
    ensures Generations(f, n).sequence == (f.sequence + n) % TWO64
    ensures Generations(f, n).cleaned == (f.cleaned || n > 0)
  {
    if n > 0 {
      GenerationAfter(f, n - 1);
      CounterStep(f.sequence + n - 1);
    }
  }

  /** A token survives n cleanups exactly when n is a multiple of 2^64; the empty token survives none. */
  lemma TokenFate(f: Fence, n: nat)
    requires WellFormed(f)
    ensures Accepts(Generations(f, n), f.generation) <==> n % TWO64 == 0
    ensures Accepts(Generations(f, n), []) <==> n == 0 && !f.cleaned
  {
    GenerationAfter(f, n);
    var later := (f.sequence + n) % TWO64;
    if Token(f.epoch, later) == f.generation { TokensDiffer(f.epoch, later, f.sequence); }
    CounterReturns(f.sequence, n);
  }

  // ------------------------------------------------------------- classes

  datatype Lease = Lease(sid: string, fd: Option<nat>, generation: bytes, cancelled: bool)

  /** What a cleanup does to the outside, in order. */
  datatype Event = Marked(sid: string) | CancelStored(sid: string) | Shutdown(fd: nat)

  class SessionState {
    const sid: string
    const fd: Option<nat>
    const generation: bytes
    var cancelled: bool

    constructor (sid: string, fd: Option<nat>, generation: bytes)
      ensures this.sid == sid && this.fd == fd && this.generation == generation && !cancelled
    {
      this.sid, this.fd, this.generation, cancelled := sid, fd, generation, false;
    }

    function View(): Lease
      reads this
    {
      Lease(sid, fd, generation, cancelled)
    }
  }

  /** The sessions that are cancelled, or that are not. */
  function Count(views: seq<Lease>, cancelled: bool): nat {
    if views == [] then 0
    else Count(views[..|views| - 1], cancelled) + if views[|views| - 1].cancelled == cancelled then 1 else 0
  }

  /** The events of a cleanup over these sessions: publish the reason, store the cancellation, disconnect. */
  function CleanEvents(views: seq<Lease>): seq<Event> {
    if views == [] then []
    else
      CleanEvents(views[..|views| - 1]) + EventsOf(views[|views| - 1])
  }

  /** The status entries after every session that was not cancelled has been marked. */
  function MarkedStatuses(items: Statuses, views: seq<Lease>, now: nat): Statuses {
    if views == [] then items
    else
      var before := MarkedStatuses(items, views[..|views| - 1], now);
      var v := views[|views| - 1];
      if v.cancelled then before else Ended(before, v.sid, ManualCleanup, NOTHING, now)
  }

  function EventsOf(v: Lease): seq<Event> {
    if v.cancelled then []
    else [Marked(v.sid), CancelStored(v.sid)] + if v.fd.Some? then [Event.Shutdown(v.fd.value)] else []
  }

  /** Each session that was not cancelled is marked, then cancelled, then disconnected if it has a socket. */
  lemma {:induction false} EachIsCleanedInOrder(views: seq<Lease>, i: nat) returns (at: nat)
    requires i < |views| && !views[i].cancelled
    ensures at + 1 < |CleanEvents(views)|
    ensures CleanEvents(views)[at] == Marked(views[i].sid) && CleanEvents(views)[at + 1] == CancelStored(views[i].sid)
    ensures views[i].fd.Some? ==>
              at + 2 < |CleanEvents(views)| && CleanEvents(views)[at + 2] == Event.Shutdown(views[i].fd.value)
    decreases |views|
  {
    var n := |views| - 1;
    if i < n { at := EachIsCleanedInOrder(views[..n], i); } else { at := |CleanEvents(views[..n])|; }
  }

  /** Nothing happens to sessions that had been cancelled before, and no other connection is disconnected. */
  lemma {:induction false} OnlyTheseAreCleaned(views: seq<Lease>, e: Event) returns (i: nat)
    requires e in CleanEvents(views)
    ensures i < |views| && !views[i].cancelled
    ensures match e
            case Marked(sid) => views[i].sid == sid
            case CancelStored(sid) => views[i].sid == sid
            case Shutdown(fd) => views[i].fd == Some(fd)
    decreases |views|
  {
    var n := |views| - 1;
    if e in CleanEvents(views[..n]) { i := OnlyTheseAreCleaned(views[..n], e); } else { i := n; }
  }

  /** Where these sessions are. */
  function Which(views: seq<Lease>, cancelled: bool): set<nat> {
    set i | 0 <= i < |views| && views[i].cancelled == cancelled
  }

  lemma WhichNext(views: seq<Lease>, v: Lease, cancelled: bool)
    ensures Which(views + [v], cancelled) ==
            if v.cancelled == cancelled then Which(views, cancelled) + {|views|} else Which(views, cancelled)
  {
  }

  /** Count is the number of these sessions. */
  lemma {:induction false} CountIsCardinality(views: seq<Lease>, cancelled: bool)
    ensures Count(views, cancelled) == |Which(views, cancelled)|
    decreases |views|
  {
    if views != [] {
      var n := |views| - 1;
      CountIsCardinality(views[..n], cancelled);
      WhichNext(views[..n], views[n], cancelled);
      assert views == views[..n] + [views[n]];
    }
  }

  lemma CleanNext(items: Statuses, events: seq<Event>, views: seq<Lease>, i: nat, now: nat)
    requires i < |views|
    ensures var v := views[i]; var before := MarkedStatuses(items, views[..i], now);
            && Count(views[..i + 1], false) == Count(views[..i], false) + (if v.cancelled then 0 else 1)
            && MarkedStatuses(items, views[..i + 1], now) ==
               (if v.cancelled then before else Ended(before, v.sid, ManualCleanup, NOTHING, now))
            && events + CleanEvents(views[..i + 1]) == events + CleanEvents(views[..i]) + EventsOf(v)
  {
    assert views[..i + 1][..i] == views[..i];
    Assoc(events, CleanEvents(views[..i]), EventsOf(views[i]));
  }

  /** Every session a cleanup meets ends up reporting the cleanup, unless it had been cancelled before. */
  lemma {:induction false} EveryLiveSessionIsMarked(items: Statuses, views: seq<Lease>, now: nat, i: nat)
    requires i < |views| && !views[i].cancelled
    ensures Settled(MarkedStatuses(items, views, now), views[i].sid)
    ensures MarkedStatuses(items, views, now)[views[i].sid].updated + RETENTION >= now
    decreases |views|
  {
    var n := |views| - 1;
    var v := views[n];
    var before := MarkedStatuses(items, views[..n], now);
    if i < n {
      EveryLiveSessionIsMarked(items, views[..n], now, i);
      if !v.cancelled { CleanupIsSticky(before, views[i].sid, v.sid, ManualCleanup, NOTHING, now); }
    }
  }

  /** Where memory runs out inside `reserve`, if it does. */
  datatype Fault = NoFault | AtState | AtStatus | AtPush | AtLease

  datatype Reservation = Refused(admission: Admission) | Failed | Leased(state: SessionState)

  /** The statuses when `reserve` fails there: the entry is set between AtStatus and AtPush. */
  function StatusesAfter(items: Statuses, sid: string, now: nat, fault: Fault): Statuses {
    match fault
    case AtState => items
    case AtStatus => Kept(items, now)
    case _ => Activated(items, sid, now)
  }

  class SessionRegistry {
    const max: nat
    const epoch: bytes
    var sequence: nat
    var generation: bytes
    var cleaned: bool
    var states: seq<SessionState>
    var events: seq<Event>

    function FenceNow(): Fence
      reads this
    {
      Fence(epoch, sequence, generation, cleaned)
    }

    function Views(): (views: seq<Lease>)
      reads this, states
      ensures |views| == |states|
      ensures forall i | 0 <= i < |states| :: views[i] == states[i].View()
    {
      seq(|states|, i requires 0 <= i < |states| reads this, states => states[i].View())
    }

    ghost predicate Valid()
      reads this, states
    {
      && WellFormed(FenceNow()) && |states| <= max
      && (forall i, j | 0 <= i < j < |states| :: states[i] != states[j])
    }

    /** Every session that no cleanup has cancelled carries the current generation. */
    ghost predicate Fenced()
      reads this, states
    {
      forall i | 0 <= i < |states| :: !states[i].cancelled ==> states[i].generation == generation
    }

    constructor (max: nat, epoch: bytes)
      ensures Valid() && Fenced() && FenceNow() == NewFence(epoch) && states == [] && events == [] && this.max == max
    {
      this.max, this.epoch := max, epoch;
      sequence, generation, cleaned := 0, Token(epoch, 0), false;
      states, events := [], [];
    }

    /**
     * `reserve`: stale tokens are refused before capacity is looked at; the status is set only for an admitted
     * request. When memory runs out for the Lease object, the session stays registered although nobody owns it.
     */
    method Reserve(statuses: SessionStatusRegistry, sid: string, fd: Option<nat>, token: bytes, now: nat, fault: Fault)
      returns (result: Reservation)
      requires Valid() && Fenced()
      modifies this`states, statuses
      ensures Valid() && Fenced()
      ensures result == Refused(Stale) <==>
                (token == [] && cleaned) || (token != [] && token != Token(epoch, sequence))
      ensures result == Refused(Full) <==>
                (if token == [] then !cleaned else token == Token(epoch, sequence)) && |old(states)| >= max
      ensures var admission := Admit(FenceNow(), token, |old(states)|, max);
              match result
              case Refused(why) =>
                admission == why != Admitted && states == old(states) && statuses.items == old(statuses.items)
              case Failed =>
                && admission == Admitted && fault != NoFault
                && statuses.items == StatusesAfter(old(statuses.items), sid, now, fault)
                && (fault != AtLease ==> states == old(states))
                && (fault == AtLease ==>
                      && states != [] && states[..|states| - 1] == old(states) && fresh(states[|states| - 1])
                      && states[|states| - 1].View() == Lease(sid, fd, generation, false))
              case Leased(state) =>
                && admission == Admitted && fault == NoFault && fresh(state) && states == old(states) + [state]
                && state.View() == Lease(sid, fd, generation, false)
                && statuses.items == Activated(old(statuses.items), sid, now)
    {
      if (token == [] && cleaned) || (token != [] && token != generation) { return Refused(Stale); }
      if |states| >= max { return Refused(Full); }
      if fault == AtState { return Failed; }
      var state := new SessionState(sid, fd, generation);
      if fault == AtStatus {
        statuses.Cleanup(now);
        return Failed;
      }
      statuses.SetActive(sid, now);
      if fault == AtPush { return Failed; }
      states := states + [state];
      result := if fault == AtLease then Failed else Leased(state);
    }

    /** One session of a cleanup; one that is cancelled already is left alone. */
    method CleanOne(statuses: SessionStatusRegistry, state: SessionState, now: nat) returns (hit: bool)
      modifies this`events, state, statuses
      ensures state.cancelled && hit == !old(state.cancelled)
      ensures statuses.items ==
              if hit then Ended(old(statuses.items), state.sid, ManualCleanup, NOTHING, now) else old(statuses.items)
      ensures events == old(events) + EventsOf(old(state.View()))
    {
      ghost var before := events;
      if state.cancelled {
        assert events + [] == events;
        return false;
      }
      statuses.SetEnded(state.sid, ManualCleanup, NOTHING, now);
      events := events + [Marked(state.sid)];
      state.cancelled := true;
      events := events + [CancelStored(state.sid)];
      if state.fd.Some? { events := events + [Event.Shutdown(state.fd.value)]; }
      assert events == before + EventsOf(old(state.View()));
      hit := true;
    }

    /** Statuses, events and count after a cleanup that started from `items` and `log` met these sessions. */
    ghost predicate HasSwept(statuses: SessionStatusRegistry, items: Statuses, log: seq<Event>, views: seq<Lease>,
                             affected: nat, now: nat)
      reads statuses, this`events
    {
      && affected == Count(views, false)
      && statuses.items == MarkedStatuses(items, views, now)
      && events == log + CleanEvents(views)
    }

    method CleanNth(statuses: SessionStatusRegistry, ghost items: Statuses, ghost log: seq<Event>,
                    ghost views: seq<Lease>, affected: nat, now: nat, i: nat) returns (count: nat)
      requires i < |states| == |views| && views[i] == states[i].View()
      requires HasSwept(statuses, items, log, views[..i], affected, now)
      modifies this`events, states[i], statuses
      ensures states[i].cancelled && HasSwept(statuses, items, log, views[..i + 1], count, now)
    {
      CleanNext(items, log, views, i, now);
      var hit := CleanOne(statuses, states[i], now);
      count := if hit then affected + 1 else affected;
    }

    method CleanAll(statuses: SessionStatusRegistry, now: nat) returns (affected: nat)
      requires Valid()
      modifies this`events, states, statuses
      ensures forall i | 0 <= i < |states| :: states[i].cancelled
      ensures HasSwept(statuses, old(statuses.items), old(events), old(Views()), affected, now)
    {
      ghost var views, items, log := Views(), statuses.items, events;
      affected := 0;
      assert log + [] == log;
      for i := 0 to |states|
        modifies this`events, states, statuses
        invariant forall j | 0 <= j < i :: states[j].cancelled
        invariant forall j | i <= j < |states| :: states[j].View() == views[j]
        invariant HasSwept(statuses, items, log, views[..i], affected, now)
      {
        affected := CleanNth(statuses, items, log, views, affected, now, i);
      }
      assert views[..|states|] == views;
    }

    /** `clean`: a new generation, and every session of the old one marked, cancelled, disconnected and counted once. */
    method Clean(statuses: SessionStatusRegistry, now: nat) returns (affected: nat)
      requires Valid()
      modifies this`sequence, this`generation, this`cleaned, this`events, states, statuses
      ensures Valid() && Fenced() && FenceNow() == NextGeneration(old(FenceNow()))
      ensures forall i | 0 <= i < |states| :: states[i].cancelled
      ensures HasSwept(statuses, old(statuses.items), old(events), old(Views()), affected, now)
    {
      ghost var views := Views();
      sequence := (sequence + 1) % TWO64;
      generation := Token(epoch, sequence);
      cleaned := true;
      assert Views() == views;
      affected := CleanAll(statuses, now);
    }

    /** `release`: exactly this session leaves. */
    method Release(state: SessionState) returns (ghost k: nat)
      requires Valid() && Fenced() && state in states
      modifies this`states
      ensures Valid() && Fenced() && state !in states
      ensures k < |old(states)| && old(states)[k] == state && states == old(states)[..k] + old(states)[k + 1..]
    {
      var i := 0;
      while states[i] != state
        invariant 0 <= i < |states| && state !in states[..i]
        decreases |states| - i
      {
        i := i + 1;
      }
      k := i;
      states := states[..i] + states[i + 1..];
    }

    method Cleaning() returns (n: nat)
      ensures n == Count(Views(), true)
    {
      n := 0;
      ghost var views := Views();
      for i := 0 to |states|
        invariant n == Count(views[..i], true)
      {
        assert views[..i + 1][..i] == views[..i];
        if states[i].cancelled { n := n + 1; }
      }
      assert views[..|states|] == views;
    }
  }
}
