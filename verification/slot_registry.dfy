// The C# session registry: a counting semaphore and a concurrent dictionary of
// session ids, each operation on them atomic by itself, and a disposable
// reservation. Keys are compared without case, so they stand here already folded.
module SlotRegistry {
  import opened Bytes

  type Key = string

  // ------------------------------------------------ one caller at a time

  datatype Outcome = Reserved(reservation: Reservation) | SessionLimit | DuplicateSid

  class Registry {
    const maximum: nat
    var free: nat
    var ids: set<Key>

    ghost predicate Valid()
      reads this
    {
      free + |ids| == maximum
    }

    constructor (maximum: nat)
      ensures Valid() && this.maximum == maximum && ids == {}
    {
      this.maximum, free, ids := maximum, maximum, {};
    }

    /** A slot first, then the key; a taken key gives the slot back. */
    method Reserve(key: Key) returns (outcome: Outcome)
      requires Valid()
      modifies this
      ensures Valid()
      ensures outcome.SessionLimit? <==> old(|ids|) == maximum
      ensures outcome.DuplicateSid? <==> old(|ids|) < maximum && key in old(ids)
      ensures outcome.Reserved? ==>
                fresh(outcome.reservation) && outcome.reservation.owner == this && outcome.reservation.key == key
      ensures ids == if outcome.Reserved? then old(ids) + {key} else old(ids)
    {
      if free == 0 { return SessionLimit; }
      free := free - 1;
      if key in ids {
        free := free + 1;
        return DuplicateSid;
      }
      ids := ids + {key};
      var reservation := new Reservation(this, key);
      outcome := Reserved(reservation);
    }

    method Release(key: Key)
      requires Valid()
      modifies this
      ensures Valid() && ids == old(ids) - {key}
    {
      if key in ids {
        ids := ids - {key};
        free := free + 1;
      }
    }
  }

  class Reservation {
    var owner: Registry?
    const key: Key

    constructor (owner: Registry, key: Key)
      ensures this.owner == owner && this.key == key
    {
      this.owner, this.key := owner, key;
    }

    /** The first call gives key and slot back; every later call changes nothing. */
    method Dispose()
      requires owner != null ==> owner.Valid()
      modifies this, owner
      ensures owner == null
      ensures old(owner) != null ==> old(owner).Valid() && old(owner).ids == old(owner.ids) - {key}
    {
      var registry := owner;
      owner := null;
      if registry != null { registry.Release(key); }
    }
  }

  // --------------------------------------------- any number of threads

  /** Where a thread is between two atomic operations. */
  datatype Thread =
    | Idle
    | HasSlot(key: Key)    // took a slot, TryAdd is next
    | Refused              // TryAdd failed, the slot goes back next
    | Leaving(key: Key)    // took a reservation's owner, TryRemove is next
    | Removed              // TryRemove succeeded, the slot goes back next

  datatype Ticket = Ticket(key: Key, live: bool)

  /** Who a dictionary key belongs to: a live reservation, or the thread that is disposing it. */
  datatype Holder = Live(ticket: nat) | Disposing(thread: nat)

  datatype State = State(
    maximum: nat, free: nat,
    ids: map<Key, Holder>,
    threads: map<nat, Thread>,
    tickets: map<nat, Ticket>)

  datatype Action =
    | TakeSlot(t: nat, key: Key)
    | TryAdd(t: nat, ticket: nat)
    | GiveBack(t: nat)
    | TakeOwner(t: nat, ticket: nat)
    | TryRemove(t: nat)
    | Release(t: nat)

  predicate Enabled(s: State, a: Action) {
    a.t in s.threads &&
    var now := s.threads[a.t];
    match a
    case TakeSlot(_, _) => now == Idle
    case TryAdd(_, ticket) => now.HasSlot? && ticket !in s.tickets
    case GiveBack(_) => now == Refused
    case TakeOwner(_, ticket) => now == Idle && ticket in s.tickets
    case TryRemove(_) => now.Leaving?
    case Release(_) => now == Removed
  }

  function Step(s: State, a: Action): State
    requires Enabled(s, a)
  {
    var now := s.threads[a.t];
    match a
    case TakeSlot(t, key) =>
      if s.free == 0 then s else s.(free := s.free - 1, threads := s.threads[t := HasSlot(key)])
    case TryAdd(t, ticket) =>
      if now.key in s.ids then s.(threads := s.threads[t := Refused])
      else s.(ids := s.ids[now.key := Live(ticket)],
              tickets := s.tickets[ticket := Ticket(now.key, true)],
              threads := s.threads[t := Idle])
    case GiveBack(t) => s.(free := s.free + 1, threads := s.threads[t := Idle])
    case TakeOwner(t, ticket) =>
      var k := s.tickets[ticket];
      if !k.live then s
      else s.(tickets := s.tickets[ticket := k.(live := false)],
              threads := s.threads[t := Leaving(k.key)],
              ids := if k.key in s.ids then s.ids[k.key := Disposing(t)] else s.ids)
    case TryRemove(t) =>
      if now.key in s.ids then s.(ids := s.ids - {now.key}, threads := s.threads[t := Removed])
      else s.(threads := s.threads[t := Idle])
    case Release(t) => s.(free := s.free + 1, threads := s.threads[t := Idle])
  }

  /** The threads that hold a slot that is not (or no longer) backed by a key. */
  function InFlight(s: State): set<nat> {
    set t | t in s.threads && HoldsSlot(s.threads[t])
  }

  predicate HoldsSlot(th: Thread) { th.HasSlot? || th.Refused? || th.Removed? }

  /** Every key belongs to the live reservation, or the disposing thread, that names it. */
  ghost predicate Linked(s: State) {
    && (forall r | r in s.tickets && s.tickets[r].live ::
          s.tickets[r].key in s.ids && s.ids[s.tickets[r].key] == Live(r))
    && (forall t | t in s.threads && s.threads[t].Leaving? ::
          s.threads[t].key in s.ids && s.ids[s.threads[t].key] == Disposing(t))
    && (forall k | k in s.ids ::
          match s.ids[k]
          case Live(r) => r in s.tickets && s.tickets[r] == Ticket(k, true)
          case Disposing(t) => t in s.threads && s.threads[t] == Leaving(k))
  }

  ghost predicate Inv(s: State) {
    Linked(s) && s.free + |s.ids| + |InFlight(s)| == s.maximum
  }

  predicate Start(s: State) {
    s.free == s.maximum && s.ids == map[] && s.tickets == map[] && forall t | t in s.threads :: s.threads[t] == Idle
  }

  lemma InFlightHas(s: State, t: nat)
    ensures t in InFlight(s) <==> t in s.threads && HoldsSlot(s.threads[t])
  {
    if t in s.threads && HoldsSlot(s.threads[t]) {
      var th := s.threads[t];
      assert HoldsSlot(th);
    }
  }

  lemma ThreadMoves(s: State, s': State, t: nat)
    requires t in s.threads && t in s'.threads && s'.threads == s.threads[t := s'.threads[t]]
    ensures InFlight(s') == if t in InFlight(s') then InFlight(s) + {t} else InFlight(s) - {t}
    ensures |InFlight(s')| == |InFlight(s)| + (if t in InFlight(s') then 1 else 0) - (if t in InFlight(s) then 1 else 0)
  {
    var before, after := InFlight(s), InFlight(s');
    forall u: nat | u != t
      ensures u in before <==> u in after
    {
      InFlightHas(s, u);
      InFlightHas(s', u);
      var moved := s.threads[t := s'.threads[t]];
      assert u in s.threads <==> u in moved;
      assert u in s.threads ==> moved[u] == s.threads[u];
      assert u in s.threads ==> HoldsSlot(s'.threads[u]) == HoldsSlot(s.threads[u]);
    }
    if t in after {
      assert after == before + {t};
    } else {
      assert after == before - {t};
    }
  }

  lemma StepKeepsLinks(s: State, a: Action)
    requires Linked(s) && Enabled(s, a)
    ensures Linked(Step(s, a))
  {
    match a {
      case TakeSlot(_, _) =>
      case TryAdd(_, _) =>
      case GiveBack(_) =>
      case TakeOwner(_, _) =>
      case TryRemove(_) =>
      case Release(_) =>
    }
  }

  /** Every atomic operation keeps slots and keys accounted for. */
  lemma StepKeepsInv(s: State, a: Action)
    requires Inv(s) && Enabled(s, a)
    ensures Inv(Step(s, a)) && Step(s, a).maximum == s.maximum
  {
    StepKeepsLinks(s, a);
    KeysMove(s, a);
    var s' := Step(s, a);
    if s' != s { ThreadMoves(s, s', a.t); }
  }

  lemma KeysMove(s: State, a: Action)
    requires Inv(s) && Enabled(s, a)
    ensures |Step(s, a).ids| ==
            |s.ids| + (if a.TryAdd? && s.threads[a.t].key !in s.ids then 1 else 0) - (if a.TryRemove? then 1 else 0)
  {
    match a {
      case TryRemove(t) => SizeWithout(s.ids, s.threads[t].key);
      case TryAdd(t, ticket) => SizeWith(s.ids, s.threads[t].key, Live(ticket));
      case TakeOwner(t, ticket) => SizeWith(s.ids, s.tickets[ticket].key, Disposing(t));
      case _ =>
    }
  }

  /** A run: each action enabled where it is taken. */
  predicate IsRun(s: State, actions: seq<Action>)
    decreases |actions|
  {
    actions == [] || (Enabled(s, actions[0]) && IsRun(Step(s, actions[0]), actions[1..]))
  }

  function After(s: State, actions: seq<Action>): State
    requires IsRun(s, actions)
    decreases |actions|
  {
    if actions == [] then s else After(Step(s, actions[0]), actions[1..])
  }

  lemma {:induction false} RunKeepsInv(s: State, actions: seq<Action>)
    requires Inv(s) && IsRun(s, actions)
    ensures Inv(After(s, actions)) && After(s, actions).maximum == s.maximum
    decreases |actions|
  {
    if actions != [] {
      StepKeepsInv(s, actions[0]);
      RunKeepsInv(Step(s, actions[0]), actions[1..]);
    }
  }

  /**
   * In every interleaving slots are conserved, no release overfills the semaphore, and a key has one live
   * reservation.
   */
  lemma SlotsAreConserved(s: State, actions: seq<Action>)
    requires Start(s) && IsRun(s, actions)
    ensures var e := After(s, actions);
            && e.free + |e.ids| + |InFlight(e)| == s.maximum
            && (forall t | t in e.threads && e.threads[t] in {Refused, Removed} :: e.free < s.maximum)
            && (forall p, q | p in e.tickets && q in e.tickets && e.tickets[p].live && e.tickets[q].live &&
                  e.tickets[p].key == e.tickets[q].key :: p == q)
  {
    assert InFlight(s) == {};
    RunKeepsInv(s, actions);
    var e := After(s, actions);
    forall t | t in e.threads && e.threads[t] in {Refused, Removed}
      ensures e.free < s.maximum
    {
      assert t in InFlight(e);
    }
  }

  lemma {:induction false} RunsChain(s: State, first: seq<Action>, a: Action)
    requires IsRun(s, first) && Enabled(After(s, first), a)
    ensures IsRun(s, first + [a]) && After(s, first + [a]) == Step(After(s, first), a)
    decreases |first|
  {
    if first == [] {
      assert [] + [a] == [a] && [a][1..] == [];
    } else {
      assert (first + [a])[1..] == first[1..] + [a];
      RunsChain(Step(s, first[0]), first[1..], a);
    }
  }

  lemma TwoActions(s: State, a: Action, b: Action)
    requires Enabled(s, a) && Enabled(Step(s, a), b)
    ensures IsRun(s, [a] + [b]) && After(s, [a] + [b]) == Step(Step(s, a), b)
  {
    assert [a][1..] == [];
    RunsChain(s, [a], b);
  }

  /** Undisturbed, a request for a free key gets a slot and a live reservation, if there is a slot. */
  lemma FreeKeyIsReserved(s: State, t: nat, key: Key, ticket: nat)
    requires Enabled(s, TakeSlot(t, key)) && ticket !in s.tickets && s.free > 0 && key !in s.ids
    ensures IsRun(s, [TakeSlot(t, key)] + [TryAdd(t, ticket)])
    ensures var e := After(s, [TakeSlot(t, key)] + [TryAdd(t, ticket)]);
            && e.ids == s.ids[key := Live(ticket)] && e.tickets == s.tickets[ticket := Ticket(key, true)]
            && e.free == s.free - 1 && e.threads == s.threads
  {
    TwoActions(s, TakeSlot(t, key), TryAdd(t, ticket));
    assert s.threads[t := HasSlot(key)][t := Idle] == s.threads;
  }

  /** A request for a taken key takes a slot and gives it back; without a free slot it does nothing at all. */
  lemma TakenKeyIsRefused(s: State, t: nat, key: Key, ticket: nat)
    requires Enabled(s, TakeSlot(t, key)) && ticket !in s.tickets
    ensures s.free == 0 ==> Step(s, TakeSlot(t, key)) == s
    ensures s.free > 0 && key in s.ids ==>
              && IsRun(s, [TakeSlot(t, key)] + [TryAdd(t, ticket)] + [GiveBack(t)])
              && After(s, [TakeSlot(t, key)] + [TryAdd(t, ticket)] + [GiveBack(t)]) == s
  {
    if s.free > 0 && key in s.ids {
      TwoActions(s, TakeSlot(t, key), TryAdd(t, ticket));
      RunsChain(s, [TakeSlot(t, key)] + [TryAdd(t, ticket)], GiveBack(t));
      assert s.threads[t := HasSlot(key)][t := Refused][t := Idle] == s.threads;
    }
  }

  /** Undisturbed, disposing a live reservation frees its key and its slot. */
  lemma LiveReservationIsFreed(s: State, t: nat, ticket: nat)
    requires Inv(s) && Enabled(s, TakeOwner(t, ticket)) && s.tickets[ticket].live
    ensures IsRun(s, [TakeOwner(t, ticket)] + [TryRemove(t)] + [Release(t)])
    ensures var e := After(s, [TakeOwner(t, ticket)] + [TryRemove(t)] + [Release(t)]);
            && e.ids == s.ids - {s.tickets[ticket].key} && e.free == s.free + 1
            && e.tickets == s.tickets[ticket := s.tickets[ticket].(live := false)] && e.threads == s.threads
  {
    var key := s.tickets[ticket].key;
    assert key in s.ids;
    TwoActions(s, TakeOwner(t, ticket), TryRemove(t));
    RunsChain(s, [TakeOwner(t, ticket)] + [TryRemove(t)], Release(t));
    assert s.ids[key := Disposing(t)] - {key} == s.ids - {key};
    assert s.threads[t := Leaving(key)][t := Removed][t := Idle] == s.threads;
  }

  /** Only disposing a reservation itself ever takes its key away. */
  lemma LiveReservationStays(s: State, a: Action, r: nat)
    requires Inv(s) && Enabled(s, a) && r in s.tickets && s.tickets[r].live
    requires !(a.TakeOwner? && a.ticket == r)
    ensures r in Step(s, a).tickets && Step(s, a).tickets[r] == s.tickets[r] && s.tickets[r].key in Step(s, a).ids
  {
    StepKeepsInv(s, a);
  }

  /** Disposing again changes nothing, whoever holds the same session id by then. */
  lemma {:induction false} DisposedStaysDisposed(s: State, actions: seq<Action>, r: nat, t: nat)
    requires Inv(s) && IsRun(s, actions) && r in s.tickets && !s.tickets[r].live
    ensures var e := After(s, actions);
            && r in e.tickets && !e.tickets[r].live
            && (Enabled(e, TakeOwner(t, r)) ==> Step(e, TakeOwner(t, r)) == e)
    decreases |actions|
  {
    if actions != [] {
      StepKeepsInv(s, actions[0]);
      DisposedStaysDisposed(Step(s, actions[0]), actions[1..], r, t);
    }
  }

  /** A live reservation survives every run in which nobody disposes that reservation. */
  lemma {:induction false} LiveThroughRun(s: State, actions: seq<Action>, r: nat)
    requires Inv(s) && IsRun(s, actions) && r in s.tickets && s.tickets[r].live
    requires forall i | 0 <= i < |actions| :: !(actions[i].TakeOwner? && actions[i].ticket == r)
    ensures var e := After(s, actions);
            r in e.tickets && e.tickets[r] == s.tickets[r] && s.tickets[r].key in e.ids
    decreases |actions|
  {
    if actions != [] {
      assert !(actions[0].TakeOwner? && actions[0].ticket == r);
      StepKeepsInv(s, actions[0]);
      LiveReservationStays(s, actions[0], r);
      LiveThroughRun(Step(s, actions[0]), actions[1..], r);
    }
  }
}
