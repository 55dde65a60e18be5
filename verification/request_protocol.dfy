// The proved request handler is a worker of the connection protocol: what it holds,
// moment by moment, is a run of one worker from the reservation to the release.
module RequestProtocol {
  import opened Bytes
  import opened SessionStatus
  import opened ConnectionProtocol
  import opened ProtocolRuns
  import opened ProtocolWitnesses
  import V = VideoPipeline

  /** Worker c holds these resources. */
  function Holding(s: State, c: Conn, r: Resources): State
    requires c in s.workers
  {
    s.(workers := s.workers[c := s.workers[c].(held := r)])
  }

  function Change(c: Conn, r: Resource, live: bool): Action {
    if live then Acquire(c, r) else Drop(c, r)
  }

  lemma ChangeStep(s: State, c: Conn, r: Resource, live: bool)
    requires At(s, c, Streaming) && MayChange(s.workers[c].held, r, live)
    ensures Enabled(s, Change(c, r, live))
    ensures Step(s, Change(c, r, live)) == Holding(s, c, With(s.workers[c].held, r, live))
  {
  }

  /** From one moment of a request to the next. */
  lemma Follows(s: State, c: Conn, a: V.Live, b: V.Live) returns (steps: seq<Action>)
    requires At(s, c, Streaming) && s.workers[c].held == V.Held(a)
    requires V.Follows(a, b) && a.lease && b.lease
    ensures IsRun(s, steps) && After(s, steps) == Holding(s, c, V.Held(b))
  {
    var h, k := V.Held(a), V.Held(b);
    steps := [];
    if h == k {
      assert s.workers[c].(held := k) == s.workers[c] && s.workers[c := s.workers[c]] == s.workers;
    } else if h.sdk != k.sdk {
      steps := Single(s, c, Sdk, k.sdk);
    } else if h.output == k.output {
      steps := Single(s, c, Probe, k.probe);
    } else if h.probe == k.probe {
      steps := Single(s, c, Output, k.output);
    } else {
      var t := Holding(s, c, With(h, Probe, false));
      ChangeStep(s, c, Probe, false);
      ChangeStep(t, c, Output, true);
      TwoSteps(s, Drop(c, Probe), Acquire(c, Output));
      steps := [Drop(c, Probe), Acquire(c, Output)];
      assert Holding(t, c, k).workers == Holding(s, c, k).workers;
    }
  }

  lemma Single(s: State, c: Conn, r: Resource, live: bool) returns (steps: seq<Action>)
    requires At(s, c, Streaming) && MayChange(s.workers[c].held, r, live)
    ensures IsRun(s, steps) && After(s, steps) == Holding(s, c, With(s.workers[c].held, r, live))
  {
    ChangeStep(s, c, r, live);
    OneMoreStep(s, [], Change(c, r, live));
    steps := [] + [Change(c, r, live)];
  }

  /** The first k steps of the run lead to t. */
  predicate ReachedAt(s: State, steps: seq<Action>, k: nat, t: State) {
    k <= |steps| && IsRun(s, steps[..k]) && After(s, steps[..k]) == t
  }

  predicate Passes(s: State, steps: seq<Action>, t: State) {
    exists k | 0 <= k <= |steps| :: ReachedAt(s, steps, k, t)
  }

  lemma PassesLonger(s: State, steps: seq<Action>, more: seq<Action>, t: State)
    requires Passes(s, steps, t)
    ensures Passes(s, steps + more, t)
  {
    var k :| 0 <= k <= |steps| && ReachedAt(s, steps, k, t);
    assert (steps + more)[..k] == steps[..k];
    assert ReachedAt(s, steps + more, k, t);
  }

  lemma PassesEnd(s: State, steps: seq<Action>)
    requires IsRun(s, steps)
    ensures Passes(s, steps, After(s, steps))
  {
    assert steps[..|steps|] == steps;
    assert ReachedAt(s, steps, |steps|, After(s, steps));
  }

  lemma PassesAfter(s: State, first: seq<Action>, later: seq<Action>, t: State)
    requires IsRun(s, first) && Passes(After(s, first), later, t)
    ensures Passes(s, first + later, t)
  {
    var k :| 0 <= k <= |later| && ReachedAt(After(s, first), later, k, t);
    RunsChain(s, first, later[..k]);
    assert (first + later)[..|first| + k] == first + later[..k];
    assert ReachedAt(s, first + later, |first| + k, t);
  }

  /** The run goes through all these moments of worker c. */
  ghost predicate GoesThrough(s: State, steps: seq<Action>, t: State, c: Conn, h: seq<V.Live>)
    requires c in t.workers
  {
    forall m | m in h :: Passes(s, steps, Holding(t, c, V.Held(m)))
  }

  /** All moments of a request, one after the other. */
  lemma {:induction false} Moments(s: State, c: Conn, h: seq<V.Live>) returns (steps: seq<Action>)
    requires At(s, c, Streaming) && s.workers[c].held == NONE && h != [] && V.IsHeld(h)
    ensures IsRun(s, steps) && After(s, steps) == Holding(s, c, V.Held(h[|h| - 1]))
    ensures GoesThrough(s, steps, s, c, h)
    decreases |h|
  {
    var n := |h| - 1;
    if n == 0 {
      steps := [];
      assert s.workers[c].(held := NONE) == s.workers[c] && s.workers[c := s.workers[c]] == s.workers;
    } else {
      assert forall m | m in h[..n] :: m in h;
      var first := Moments(s, c, h[..n]);
      assert h[n - 1] in h && h[n] in h && V.Follows(h[n - 1], h[n]);
      var more := NextMoment(s, c, first, h[n - 1], h[n]);
      steps := first + more;
      forall m | m in h[..n]
        ensures Passes(s, steps, Holding(s, c, V.Held(m)))
      {
        PassesLonger(s, first, more, Holding(s, c, V.Held(m)));
      }
      assert h == h[..n] + [h[n]];
    }
    PassesEnd(s, steps);
  }

  lemma NextMoment(s: State, c: Conn, first: seq<Action>, a: V.Live, b: V.Live) returns (more: seq<Action>)
    requires At(s, c, Streaming) && IsRun(s, first) && After(s, first) == Holding(s, c, V.Held(a))
    requires V.Follows(a, b) && a.lease && b.lease
    ensures IsRun(s, first + more) && After(s, first + more) == Holding(s, c, V.Held(b))
  {
    var t := Holding(s, c, V.Held(a));
    more := Follows(t, c, a, b);
    RunsChain(s, first, more);
    assert Holding(t, c, V.Held(b)).workers == Holding(s, c, V.Held(b)).workers;
  }

  /** The worker has served its request: the status entry stays, and nothing else. */
  function Served(s: State, c: Conn, sid: string): State
    requires c in s.workers
  {
    s.(workers := s.workers[c := s.workers[c].(phase := Returning, sid := sid)],
       statuses := Activated(s.statuses, sid, s.now))
  }

  lemma ReleaseSteps(s: State, c: Conn, sid: string)
    requires c in s.workers && s.workers[c].held == NONE && s.lock == None && c !in s.leases
    ensures var t := Registered(s, c, sid, Streaming);
            IsRun(t, [Unwind(c), Release(c)]) && After(t, [Unwind(c), Release(c)]) == Served(s, c, sid)
  {
    var t := Registered(s, c, sid, Streaming);
    TwoSteps(t, Unwind(c), Release(c));
    assert t.leases - {c} == s.leases;
    assert Step(Step(t, Unwind(c)), Release(c)).workers == Served(s, c, sid).workers;
  }

  /**
   * Whatever a request handler did with its resources, a worker of the connection protocol can do: from any state
   * in which it may reserve, through every moment of the request under its lease, until the lease is given back.
   */
  lemma RequestIsProtocolRun(s: State, c: Conn, sid: string, h: seq<V.Live>) returns (steps: seq<Action>)
    requires Inv(s) && HasRoom(s, 0, 1) && At(s, c, Serving) && V.IsServed(h)
    ensures IsRun(s, steps) && After(s, steps) == Served(s, c, sid)
    ensures GoesThrough(s, steps, Registered(s, c, sid, Streaming), c, h)
  {
    var t := Registered(s, c, sid, Streaming);
    Plays(s, c, sid);
    ServingIsBare(s, c);
    var middle := Moments(t, c, h);
    assert Holding(t, c, NONE).workers == t.workers;
    ReleaseSteps(s, c, sid);
    RunsChain(t, middle, [Unwind(c), Release(c)]);
    RunsChain(s, PlaySteps(s, c, sid), middle + [Unwind(c), Release(c)]);
    steps := PlaySteps(s, c, sid) + (middle + [Unwind(c), Release(c)]);
    Between(s, PlaySteps(s, c, sid), middle, [Unwind(c), Release(c)], t, c, h);
  }

  lemma Between(s: State, first: seq<Action>, middle: seq<Action>, last: seq<Action>, t: State, c: Conn, h: seq<V.Live>)
    requires IsRun(s, first) && After(s, first) == t && c in t.workers && GoesThrough(t, middle, t, c, h)
    ensures GoesThrough(s, first + (middle + last), t, c, h)
  {
    forall m | m in h
      ensures Passes(s, first + (middle + last), Holding(t, c, V.Held(m)))
    {
      PassesLonger(t, middle, last, Holding(t, c, V.Held(m)));
      PassesAfter(s, first, middle + last, Holding(t, c, V.Held(m)));
    }
  }

  lemma ServingIsBare(s: State, c: Conn)
    requires LeasesHeld(s) && At(s, c, Serving)
    ensures s.workers[c].held == NONE && c !in s.leases
  {
    assert c in s.leases ==> LeaseFits(s, c);
  }
}
