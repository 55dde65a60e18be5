// One playback request from the reservation of its session to the last byte: which
// codec is assumed, which FFmpeg process feeds on which device session, how a
// failed choice is replaced, and what reaches the browser. Devices, processes and
// clients are arbitrary: every call may fail in every way it can.
module VideoPipeline {
  import opened Bytes
  import C = ChunkedBody
  import P = ConnectionProtocol

  datatype Codec = Unknown | H264 | H265

  datatype Mode = Copy | Transcode

  /** ClientDisconnected, BridgeError, or anything else that is thrown. */
  datatype Error = Disconnected | Bridge | Fault

  /** `tapped`: an FFmpeg process has been reading from this session's queue. */
  datatype Session = Session(id: nat, started: bool, tapped: bool)

  /** `feeds` is the session whose queue the process consumes, `produced` what was read from its output. */
  datatype Process = Process(mode: Mode, hardware: bool, feeds: Option<nat>, produced: bytes)

  /** Everything a request holds at one moment. */
  datatype Live = Live(lease: bool, session: Option<Session>, probe: Option<Process>, output: Option<Process>)

  predicate FeedsOn(p: Option<Process>, s: Option<Session>) {
    p.Some? && p.value.feeds.Some? ==> s.Some? && s.value.id == p.value.feeds.value
  }

  predicate Pumps(p: Option<Process>) { p.Some? && p.value.feeds.Some? }

  /** One pump at most, none without its session, and nothing without the lease. */
  predicate Safe(m: Live) {
    && !(Pumps(m.probe) && Pumps(m.output))
    && FeedsOn(m.probe, m.session) && FeedsOn(m.output, m.session)
    && (m.probe.Some? || m.output.Some? ==> m.session.Some?)
    && (m.session.Some? ==> m.lease)
  }

  /** The resources as the connection protocol sees them. */
  function Held(m: Live): P.Resources {
    P.Resources(m.session.Some?, m.probe.Some?, m.output.Some?)
  }

  /**
   * From one moment to the next: one resource comes or goes, the device session around its processes, the lease
   * around all.
   */
  predicate Follows(a: Live, b: Live) {
    var h, k := Held(a), Held(b);
    if a.lease != b.lease then h == k == P.NONE
    else
      || h == k
      || (h.sdk != k.sdk && !h.probe && !h.output && !k.probe && !k.output)
      || (h.sdk && k.sdk && (h.probe == k.probe || h.output == k.output))
      || (h.sdk && k.sdk && h.probe && !h.output && k.output && !k.probe)     // the probe becomes the output
  }

  /**
   * Such a step is a step of the connection protocol: nothing, one change, or a probe dropped and an output acquired.
   */
  lemma FollowsTheProtocol(a: Live, b: Live)
    requires Follows(a, b)
    ensures Held(a) == Held(b)
         || (exists r: P.Resource, on: bool :: P.MayChange(Held(a), r, on) && Held(b) == P.With(Held(a), r, on))
         || (P.MayChange(Held(a), P.Probe, false) && P.MayChange(P.With(Held(a), P.Probe, false), P.Output, true)
             && Held(b) == P.With(P.With(Held(a), P.Probe, false), P.Output, true))
  {
    var h, k := Held(a), Held(b);
    if h.sdk != k.sdk {
      assert P.MayChange(h, P.Sdk, k.sdk) && k == P.With(h, P.Sdk, k.sdk);
    } else if h.probe != k.probe && h.output == k.output {
      assert P.MayChange(h, P.Probe, k.probe) && k == P.With(h, P.Probe, k.probe);
    } else if h.probe == k.probe && h.output != k.output {
      assert P.MayChange(h, P.Output, k.output) && k == P.With(h, P.Output, k.output);
    }
  }

  /** The same holdings, after this much was read from the output process. */
  function Produced(m: Live, produced: bytes): Live
    requires m.output.Some?
  {
    m.(output := Some(m.output.value.(produced := produced)))
  }

  /** `h264_copy_allowed` */
  predicate CopyAllowed(normalSpeed: bool, windows: bool, realPlay: bool) {
    normalSpeed && (windows || realPlay)
  }

  /** Whether the four bytes occur anywhere. */
  predicate Contains(data: bytes, atom: bytes) {
    exists i | 0 <= i <= |data| :: OccursAt(data, atom, i)
  }

  predicate OccursAt(data: bytes, atom: bytes, i: nat) {
    i + |atom| <= |data| && data[i..i + |atom|] == atom
  }

  const FTYP: bytes := [0x66, 0x74, 0x79, 0x70]
  const MOOV: bytes := [0x6D, 0x6F, 0x6F, 0x76]
  const MOOF: bytes := [0x6D, 0x6F, 0x6F, 0x66]
  const MDAT: bytes := [0x6D, 0x64, 0x61, 0x74]
  const HVCC: bytes := [0x68, 0x76, 0x63, 0x43]
  const AVCC: bytes := [0x61, 0x76, 0x63, 0x43]

  const MOST: nat := 4 * 1024 * 1024   // bytes read before giving up on the wanted boxes

  function DetectVideoCodec(initial: bytes): Codec {
    if Contains(initial, HVCC) then H265 else if Contains(initial, AVCC) then H264 else Unknown
  }

  /** A text contains an atom exactly if it is some text, the atom and some other text. */
  lemma ContainsAtom(a: bytes, atom: bytes, b: bytes)
    ensures Contains(a + atom + b, atom)
  {
    assert OccursAt(a + atom + b, atom, |a|);
  }

  lemma ContainedAtom(data: bytes, atom: bytes) returns (a: bytes, b: bytes)
    requires Contains(data, atom)
    ensures data == a + atom + b
  {
    var i :| 0 <= i <= |data| && OccursAt(data, atom, i);
    a, b := data[..i], data[i + |atom|..];
  }

  /**
   * The letters hvcC anywhere make a stream H.265, and without them the letters avcC anywhere make it H.264; a stream
   * of neither has neither.
   */
  lemma DetectionMeans(a: bytes, b: bytes, data: bytes)
    ensures DetectVideoCodec(a + Ascii("hvcC") + b) == H265
    ensures DetectVideoCodec(a + Ascii("avcC") + b) in {H264, H265}
    ensures DetectVideoCodec(data) == H265 <==> Contains(data, Ascii("hvcC"))
    ensures DetectVideoCodec(data) == H264 <==> Contains(data, Ascii("avcC")) && !Contains(data, Ascii("hvcC"))
  {
    assert HVCC == Ascii("hvcC") && AVCC == Ascii("avcC");
    ContainsAtom(a, HVCC, b);
    ContainsAtom(a, AVCC, b);
  }

  /** Playable output holds the letters of all four boxes. */
  lemma MediaReadyMeans(data: bytes)
    ensures MediaReady(data) <==>
            && Contains(data, Ascii("ftyp")) && Contains(data, Ascii("moov"))
            && Contains(data, Ascii("moof")) && Contains(data, Ascii("mdat"))
  {
    assert FTYP == Ascii("ftyp") && MOOV == Ascii("moov") && MOOF == Ascii("moof") && MDAT == Ascii("mdat");
  }

  const FIRST_MEDIA: bytes := FTYP + MOOV + MOOF + MDAT

  lemma ReadyWithFirstMedia(before: bytes, after: bytes)
    ensures MediaReady(before + (FIRST_MEDIA + after))
  {
    var all := before + (FIRST_MEDIA + after);
    assert all == before + FTYP + (MOOV + MOOF + MDAT + after);
    assert all == before + FTYP + MOOV + (MOOF + MDAT + after);
    assert all == before + FTYP + MOOV + MOOF + (MDAT + after);
    assert all == before + FTYP + MOOV + MOOF + MDAT + after;
    ContainsAtom(before, FTYP, MOOV + MOOF + MDAT + after);
    ContainsAtom(before + FTYP, MOOV, MOOF + MDAT + after);
    ContainsAtom(before + FTYP + MOOV, MOOF, MDAT + after);
    ContainsAtom(before + FTYP + MOOV + MOOF, MDAT, after);
  }

  predicate Initialized(data: bytes) { Contains(data, FTYP) && Contains(data, MOOV) }

  predicate MediaReady(data: bytes) { Initialized(data) && Contains(data, MOOF) && Contains(data, MDAT) }

  /** `select_plan`: a hardware encoder only for transcoding, only if one was found, and only if not ruled out. */
  predicate SelectsHardware(mode: Mode, forceSoftware: bool, backend: bool) {
    mode != Copy && !forceSoftware && backend
  }

  /** What start_pipeline was called with. */
  datatype Start = Start(detected: Codec, tapped: bool, mode: Mode, hardware: bool)

  /** H.264 always starts from a fresh queue, and only H.265 is given to a hardware encoder. */
  predicate WellStarted(s: Start) {
    (s.detected == H264 ==> !s.tapped) && (s.hardware ==> s.detected == H265 && s.mode == Transcode)
  }

  /** The moments of a request that has its lease: safe, each one following from the one before. */
  predicate IsHeld(h: seq<Live>) {
    && (h != [] ==> h[0] == Live(true, None, None, None))
    && (forall m | m in h :: Safe(m) && m.lease)
    && (forall i | 0 < i < |h| :: Follows(h[i - 1], h[i]))
  }

  /** What a request held, from the grant of its lease until it gives it back, when everything is gone. */
  predicate IsServed(h: seq<Live>) {
    IsHeld(h) && h != [] && Held(h[|h| - 1]) == P.NONE
  }

  /** One read from the output process: data, nothing because it has ended, the end of the service, or an error. */
  datatype OutputTurn = Read(data: bytes) | ServiceStops | Fails(error: Error)

  /**
   * The blocks after the first are the reads, in order, up to the first that yields nothing, fails, or cannot be sent;
   * the error is that of the read or of the sending. Reads that `outputs` says nothing about yield nothing.
   */
  predicate IsRelayed(blocks: seq<bytes>, outputs: seq<OutputTurn>, error: Option<Error>, verdict: C.Verdict) {
    && 0 < |blocks| <= |outputs| + 1
    && (forall k | 0 < k < |blocks| :: outputs[k - 1] == Read(blocks[k]))
    && if verdict != C.Done then error == Some(Thrown(verdict))
       else if |blocks| == |outputs| + 1 then error.None?
       else match outputs[|blocks| - 1]
         case Read(data) => data == [] && error.None?
         case ServiceStops => error.None?
         case Fails(e) => error == Some(e)
  }

  class Request {
    const calm: bool               // nothing outside goes wrong before the response
    const copyAllowed: bool
    const backend: bool
    var live: Live
    var detected: Codec
    var mode: Mode
    var prefix: bytes
    var cached: Option<Codec>      // the codec this request last handed to the cache
    var sessions: nat              // device sessions created
    var processes: nat             // FFmpeg processes created, or tried to
    ghost var history: seq<Live>   // every moment since the lease was granted
    ghost var starts: seq<Start>

    constructor (normalSpeed: bool, windows: bool, realPlay: bool, backend: bool, calm: bool)
      ensures copyAllowed == (normalSpeed && (windows || realPlay)) && this.backend == backend && this.calm == calm
      ensures Valid() && Blank()
    {
      copyAllowed, this.backend, this.calm := CopyAllowed(normalSpeed, windows, realPlay), backend, calm;
      live, detected, mode, prefix, cached := Live(false, None, None, None), Unknown, Transcode, [], None;
      sessions, processes, history, starts := 0, 0, [], [];
    }

    ghost predicate Blank()
      reads this
    {
      live == Live(false, None, None, None) && sessions == 0 && processes == 0 && starts == [] && history == []
    }

    ghost predicate Valid()
      reads this
    {
      && Safe(live) && IsHeld(history) && (live.lease ==> history != [] && history[|history| - 1] == live)
      && (forall s | s in starts :: WellStarted(s))
    }

    method Become(m: Live)
      requires Valid() && live.lease && m.lease && Safe(m) && Follows(live, m)
      modifies this`live, this`history
      ensures Valid() && live == m && history == old(history) + [m]
    {
      live := m;
      history := history + [m];
    }

    method Grant()
      requires Valid() && Blank()
      modifies this`live, this`history
      ensures Valid() && live == Live(true, None, None, None) && history == [live]
    {
      live := Live(true, None, None, None);
      history := [live];
    }

    /** A check of the client, a device call, a wait: fine, or any error. */
    method MayThrow() returns (error: Option<Error>)
      ensures calm ==> error.None?
    {
      error := *;
      if calm { error := None; }
    }

    /** `start_pump` cannot create its thread; that is no bridge error. */
    method ThreadFails() returns (error: Option<Error>)
      ensures error.None? || error == Some(Fault)
      ensures calm ==> error.None?
    {
      var fails: bool := *;
      error := if fails && !calm then Some(Fault) else None;
    }

    /** A new device session, logged in and with its configuration read. */
    method OpenSession() returns (error: Option<Error>)
      requires Valid() && live.lease && live.session.None?
      modifies this`live, this`history, this`sessions
      ensures Valid() && sessions == old(sessions) + 1
      ensures live == old(live).(session := Some(Session(old(sessions), false, false)))
      ensures calm ==> error.None?
    {
      Become(live.(session := Some(Session(sessions, false, false))));
      sessions := sessions + 1;
      error := MayThrow();
    }

    method CloseSession()
      requires Valid() && live.lease && live.probe.None? && live.output.None?
      modifies this`live, this`history
      ensures Valid() && live == old(live).(session := None)
    {
      Become(live.(session := None));
    }

    /** Starts the stream; a timeout may come after the stream was started. */
    method StartStream() returns (error: Option<Error>)
      requires Valid() && live.session.Some?
      modifies this`live, this`history
      ensures Valid() && live.session.Some? && (error.None? ==> live.session.value.started)
      ensures live == old(live).(session := Some(old(live).session.value.(started := live.session.value.started)))
      ensures calm ==> error.None?
    {
      error := MayThrow();
      var started: bool := *;
      if error.None? { started := true; }
      Become(live.(session := Some(live.session.value.(started := started))));
    }

    /** The constructor of FfmpegProcess; when it throws, nothing is left. */
    method Launch(mode: Mode, forceSoftware: bool) returns (error: Option<Error>, process: Process)
      modifies this`processes
      ensures processes == old(processes) + 1
      ensures process == Process(mode, mode == Transcode && !forceSoftware && backend, None, [])
      ensures calm ==> error.None?
    {
      processes := processes + 1;
      process := Process(mode, SelectsHardware(mode, forceSoftware, backend), None, []);
      error := MayThrow();
    }

    /** `read_until_ready`: appends what the process produces until the wanted boxes are there. */
    method ReadUntilReady(p: Process, initial: bytes, media: bool)
      returns (error: Option<Error>, q: Process, result: bytes)
      ensures q == p.(produced := q.produced)
      ensures initial == p.produced ==> result == q.produced
      ensures error.None? ==> |initial| < MOST && Initialized(result) && (media ==> MediaReady(result))
      ensures calm ==> error.None? || (error == Some(Bridge) && |initial| >= MOST)
    {
      q, result := p, initial;
      var patience: nat :| calm ==> patience > 0;
      while patience > 0 && |result| < MOST
        invariant q == p.(produced := q.produced)
        invariant initial == p.produced ==> result == q.produced
        invariant |initial| <= |result|
        invariant calm ==> patience > 0 && result == initial
        decreases patience
      {
        patience := patience - 1;
        error := MayThrow();
        if error.Some? { return; }
        var chunk: bytes, waiting: bool := *, *;
        if calm {
          ReadyWithFirstMedia(result, chunk);
          chunk, waiting := FIRST_MEDIA + chunk, false;
        }
        if !waiting {
          if chunk == [] { break; }
          q, result := q.(produced := q.produced + chunk), result + chunk;
          if Initialized(result) && (!media || MediaReady(result)) { return None, q, result; }
        }
      }
      error := Some(Bridge);
    }

    // ------------------------------------------------------------- detection

    /** `start_pump` on the probe: from now on it consumes the session's queue. */
    method FeedProbe()
      requires Valid() && live.session.Some? && live.probe.Some? && live.output.None?
      modifies this`live, this`history
      ensures Valid()
      ensures live == old(live).(session := Some(old(live).session.value.(tapped := true)),
                                 probe := Some(old(live).probe.value.(feeds := Some(old(live).session.value.id))))
    {
      var s := live.session.value;
      Become(live.(session := Some(s.(tapped := true)), probe := Some(live.probe.value.(feeds := Some(s.id)))));
    }

    /** Probing: a copying process looks at the start of the stream. */
    method Probe() returns (error: Option<Error>)
      requires Valid() && live.session.Some? && live.probe.None? && live.output.None? && processes == 0
      modifies this`live, this`history, this`processes, this`prefix, this`detected, this`cached
      ensures Valid() && live.session.Some? && live.session.value.id == old(live).session.value.id
      ensures live.lease == old(live.lease) && live.output.None? && processes <= 1
      ensures error.None? ==>
                && live.session.value.started && live.probe.Some? && live.probe.value.mode == Copy && processes == 1
                && prefix == live.probe.value.produced && detected == DetectVideoCodec(prefix)
                && cached == if detected != Unknown then Some(detected) else old(cached)
      ensures calm ==> error.None?
    {
      error := StartStream();
      if error.Some? { return; }
      var p: Process;
      error, p := Launch(Copy, false);
      if error.Some? { return; }
      Become(live.(probe := Some(p)));
      error := ThreadFails();
      if error.Some? { return; }
      FeedProbe();
      error, p, prefix := ReadUntilReady(live.probe.value, [], false);
      Become(live.(probe := Some(p)));
      if error.Some? { return; }
      detected := DetectVideoCodec(prefix);
      if detected != Unknown { cached := Some(detected); }
    }

    /**
     * The codec is taken from the cache, from the device's configuration, or from a probe.
     * A copying probe of an H.264 stream that may be copied becomes the output process.
     */
    method Detect(hit: Option<Codec>, configured: Codec) returns (error: Option<Error>, restart: bool)
      requires Valid() && live == Live(true, None, None, None)
      requires sessions == 0 && processes == 0 && starts == []
      modifies this`live, this`history, this`sessions, this`processes, this`prefix, this`detected, this`cached
      ensures Valid() && live.lease && sessions == 1 && processes <= 1
      ensures calm ==> error.None?
      ensures error.None? ==> AfterDetect(restart)
      ensures error.None? ==>
                detected == if hit.Some? then hit.value
                            else if configured != Unknown then configured
                            else DetectVideoCodec(prefix)
      ensures error.None? && hit.None? && detected != Unknown ==> cached == Some(detected)
      ensures hit.Some? || configured != Unknown ==> processes == 0 && (hit.Some? ==> cached == old(cached))
    {
      restart := false;
      error := OpenSession();
      if error.Some? { return; }
      if hit.Some? {
        detected := hit.value;
      } else if configured != Unknown {
        detected := configured;
        cached := Some(configured);
      } else {
        error := Probe();
        if error.Some? { return; }
        if detected == H264 && copyAllowed {
          Become(live.(output := live.probe, probe := None));
        } else if detected == H264 {
          restart := true;
        }
      }
    }

    /** What detection leaves: a fresh session, a probe that is still running, or a reused probe. */
    ghost predicate AfterDetect(restart: bool)
      reads this
    {
      && live.lease && live.session.Some? && sessions == 1 && processes <= 1
      && (live.output.Some? ==>
            live.probe.None? && detected == H264 && copyAllowed && processes == 1
            && live.output.value.mode == Copy && prefix == live.output.value.produced && live.session.value.started)
      && (live.probe.Some? ==>
            processes == 1 && live.session.value.started && (detected == H264 ==> !copyAllowed)
            && (restart <==> detected == H264))
      && (live.probe.None? ==> !restart)
      && (live.probe.None? && live.output.None? ==> !live.session.value.tapped && processes == 0)
    }

    // ------------------------------------------------- the output process

    method StopProbe()
      requires Valid()
      modifies this`live, this`history
      ensures Valid() && live == old(live).(probe := None)
    {
      if live.probe.Some? { Become(live.(probe := None)); }
    }

    method StopOutput()
      requires Valid()
      modifies this`live, this`history
      ensures Valid() && live == old(live).(output := None)
    {
      if live.output.Some? { Become(live.(output := None)); }
    }

    /** The probe is stopped unless it was reused; H.264 that must be transcoded gets a fresh session. */
    method Settle(restart: bool) returns (error: Option<Error>)
      requires Valid() && AfterDetect(restart)
      modifies this`live, this`history, this`sessions, this`mode
      ensures Valid() && live.lease && sessions == old(sessions) + if restart then 1 else 0
      ensures calm ==> error.None?
      ensures error.None? ==> IsSettled()
    {
      mode := if detected == H264 && copyAllowed then Copy else Transcode;
      StopProbe();
      if restart {
        CloseSession();
        error := OpenSession();
        if error.Some? { return; }
      }
      error := None;
      if !live.session.value.started { error := StartStream(); }
    }

    /** Ready to produce output: H.264 either is being copied already or has an untouched queue. */
    ghost predicate IsSettled()
      reads this
    {
      && live.lease && live.probe.None? && live.session.Some? && live.session.value.started
      && mode == (if detected == H264 && copyAllowed then Copy else Transcode)
      && sessions <= 2 && (mode == Copy ==> sessions == 1)
      && (if live.output.Some? then
            processes == 1 && mode == Copy && live.output.value.mode == Copy && prefix == live.output.value.produced
          else
            (detected == H264 ==> !live.session.value.tapped) && processes <= if mode == Copy then 0 else 1)
    }

    /** `start_pipeline`: a process for this mode, fed from the session, up to its first media fragment. */
    method StartPipeline(mode: Mode, forceSoftware: bool) returns (error: Option<Error>)
      requires Valid() && live.probe.None? && live.output.None? && live.session.Some?
      requires detected == H264 ==> !live.session.value.tapped
      modifies this`live, this`history, this`processes, this`prefix, this`starts
      ensures Valid() && processes == old(processes) + 1 && live.probe.None? && live.lease == old(live.lease)
      ensures live.session.Some? && live.session.value.started == old(live).session.value.started
      ensures live.session.value.id == old(live).session.value.id
      ensures live.output.Some? && error != Some(Fault) ==> live.session.value.tapped
      ensures calm ==> error.None?
      ensures var hardware := mode == Transcode && !forceSoftware && detected == H265 && backend;
              && (live.output.Some? ==> live.output.value.mode == mode && live.output.value.hardware == hardware)
              && starts == old(starts) + [Start(detected, old(live).session.value.tapped, mode, hardware)]
      ensures error.None? ==> HasMedia(mode)
    {
      var useSoftware := forceSoftware || detected != H265;
      ghost var hardware := SelectsHardware(mode, useSoftware, backend);
      starts := starts + [Start(detected, live.session.value.tapped, mode, hardware)];
      var p: Process;
      error, p := Launch(mode, useSoftware);
      if error.Some? { return; }
      Become(live.(output := Some(p)));
      error := ThreadFails();
      if error.Some? { return; }
      var s := live.session.value;
      p := p.(feeds := Some(s.id));
      Become(live.(session := Some(s.(tapped := true)), output := Some(p)));
      var first: bytes;
      error, p, first := ReadUntilReady(p, [], true);
      Become(live.(output := Some(p)));
      if error.None? { prefix := first; }
    }

    /** The output process has produced exactly `prefix`, and that starts a playable stream. */
    ghost predicate HasMedia(mode: Mode)
      reads this
    {
      live.output.Some? && live.output.value.mode == mode && prefix == live.output.value.produced && MediaReady(prefix)
    }

    method ReadFirstMedia() returns (error: Option<Error>)
      requires Valid() && live.output.Some? && prefix == live.output.value.produced
      modifies this`live, this`history, this`prefix
      ensures Valid() && live.output.Some?
      ensures live == Produced(old(live), live.output.value.produced)
      ensures error.None? ==> prefix == live.output.value.produced && MediaReady(prefix)
      ensures calm ==> error.None? || (error == Some(Bridge) && |old(prefix)| >= MOST)
    {
      var p, first;
      error, p, first := ReadUntilReady(live.output.value, prefix, true);
      Become(live.(output := Some(p)));
      if error.None? { prefix := first; }
    }

    /** One start, or two: the second one in software, and only after a hardware start failed. */
    ghost predicate Retried(before: seq<Start>, tapped: bool, error: Option<Error>)
      reads this
    {
      var first := Start(detected, tapped, Transcode, detected == H265 && backend);
      if starts == before + [first] then error == Some(Bridge) ==> live.output.None? || !first.hardware
      else first.hardware && starts == before + [first] + [Start(detected, true, Transcode, false)]
    }

    /** A failed hardware encoder is replaced by software once, on the same session. */
    method StartOrFallBack() returns (error: Option<Error>)
      requires Valid() && live.probe.None? && live.output.None? && live.session.Some? && mode == Transcode
      requires detected == H264 ==> !live.session.value.tapped
      modifies this`live, this`history, this`processes, this`prefix, this`starts
      ensures Valid() && processes <= old(processes) + 2 && live.probe.None? && live.lease == old(live.lease)
      ensures live.session.Some? && live.session.value.started == old(live).session.value.started
      ensures live.session.value.id == old(live).session.value.id
      ensures calm ==> error.None?
      ensures error.None? ==> HasMedia(Transcode)
      ensures Retried(old(starts), old(live).session.value.tapped, error)
    {
      error := StartPipeline(mode, false);
      if error == Some(Bridge) && live.output.Some? && live.output.value.hardware {
        StopOutput();
        error := StartPipeline(mode, true);
      }
    }

    /** The first media fragment, or for copying the verdict that another way must be found. */
    method FirstMedia() returns (error: Option<Error>, fallback: bool)
      requires Valid() && IsSettled()
      modifies this`live, this`history, this`processes, this`prefix, this`starts
      ensures Valid() && live.lease && live.probe.None? && live.session.Some? && processes <= 3
      ensures mode == Copy ==> processes == 1
      ensures error.None? && !fallback ==> HasMedia(mode)
      ensures calm ==> error.None? && (|old(prefix)| < MOST || old(live).output.None? ==> !fallback)
      ensures fallback ==> error.None? && mode == Copy
      ensures mode == Copy ==> error != Some(Bridge)
    {
      fallback := false;
      if live.output.Some? {
        error := ReadFirstMedia();
      } else if mode == Copy {
        error := StartPipeline(mode, false);
      } else {
        error := StartOrFallBack();
      }
      if mode == Copy && error == Some(Bridge) { error, fallback := None, true; }
    }

    /** Copying failed: everything is taken down, and a fresh session is transcoded in software. */
    method FallBackFromCopy() returns (error: Option<Error>)
      requires Valid() && live.lease && live.probe.None? && live.session.Some?
      modifies this`live, this`history, this`sessions, this`processes, this`prefix, this`mode, this`starts
      ensures Valid() && live.lease && live.probe.None?
      ensures sessions == old(sessions) + 1 && processes <= old(processes) + 1
      ensures calm ==> error.None?
      ensures error.None? ==> mode == Transcode && HasMedia(Transcode) && live.session.Some?
      ensures error.None? ==> starts == old(starts) + [Start(detected, false, Transcode, false)]
    {
      StopOutput();
      CloseSession();
      error := OpenSession();
      if error.Some? { return; }
      error := StartStream();
      if error.Some? { return; }
      mode := Transcode;
      error := StartPipeline(mode, true);
    }

    /** The boxes say H.265 although H.264 was copied: the cache is corrected and the same session is transcoded. */
    method CorrectMismatch() returns (error: Option<Error>)
      requires Valid() && live.lease && live.probe.None? && live.session.Some? && HasMedia(mode)
      modifies this`live, this`history, this`processes, this`prefix, this`detected, this`cached, this`mode, this`starts
      ensures Valid() && live.lease && live.probe.None? && live.session.Some?
      ensures calm ==> error.None?
      ensures processes <= old(processes) + if old(mode) == Copy then 2 else 0
      ensures error.None? ==> HasMedia(mode)
      ensures error.None? && mode == Copy ==> old(mode) == Copy && !Contains(prefix, HVCC)
      ensures old(mode) == Copy && Contains(old(prefix), HVCC) ==> cached == Some(H265) && mode == Transcode
      ensures !(old(mode) == Copy && Contains(old(prefix), HVCC)) ==>
                error.None? && live == old(live) && detected == old(detected) && cached == old(cached)
    {
      error := None;
      if mode == Copy && DetectVideoCodec(prefix) == H265 {
        detected, cached := H265, Some(H265);
        StopOutput();
        mode := Transcode;
        error := StartOrFallBack();
      }
    }

    /** Everything before the response. */
    method Prepare(hit: Option<Codec>, configured: Codec) returns (error: Option<Error>)
      requires Valid() && live == Live(true, None, None, None) && sessions == 0 && processes == 0 && starts == []
      modifies this
      ensures Valid() && live.lease && sessions <= 2 && processes <= 3
      ensures calm ==> error.None?
      ensures error.None? ==> live.session.Some? && HasMedia(mode)
      ensures error.None? && mode == Copy ==> copyAllowed && !Contains(prefix, HVCC)
    {
      var restart, fallback;
      error, restart := Detect(hit, configured);
      if error.Some? { return; }
      error := Settle(restart);
      if error.Some? { return; }
      error, fallback := FirstMedia();
      if error.Some? { return; }
      if fallback {
        error := FallBackFromCopy();
        if error.Some? { return; }
      }
      error := CorrectMismatch();
    }

    /** Destruction in the order probe, output, device session, and the lease last. */
    method Release()
      requires Valid() && live.lease
      modifies this`live, this`history
      ensures Valid() && live == Live(false, None, None, None) && IsServed(history)
    {
      StopProbe();
      StopOutput();
      CloseSession();
      live := Live(false, None, None, None);
    }

    // -------------------------------------------------------- the response

    /** One read from the output process. */
    method ReadOutput(turn: OutputTurn) returns (error: Option<Error>, data: bytes)
      requires Valid() && live.output.Some?
      modifies this`live, this`history
      ensures Valid()
      ensures live == Produced(old(live), old(live).output.value.produced + data)
      ensures error == if turn.Fails? then Some(turn.error) else None
      ensures data == if turn.Read? then turn.data else []
    {
      error := if turn.Fails? then Some(turn.error) else None;
      data := if turn.Read? then turn.data else [];
      var p := live.output.value;
      Become(live.(output := Some(p.(produced := p.produced + data))));
    }

    /** One more chunk after those of `blocks`. */
    method RelayOne(
      conn: C.Connection, data: bytes, ghost base: bytes, ghost blocks: seq<bytes>, ghost body: bytes,
      ghost since: seq<C.Turn>) returns (verdict: C.Verdict, ghost longer: bytes)
      requires conn.sent == base + body && body == C.Chunks(blocks) && C.Explains(since, conn.turns, C.Done)
      modifies conn
      ensures conn.sent == base + longer && C.Explains(since, conn.turns, verdict)
      ensures if verdict == C.Done then longer == C.Chunks(blocks + [data]) else C.IsCut(longer, blocks + [data])
    {
      ghost var written, was := 0, conn.turns;
      verdict, written := conn.SendChunk(data);
      C.ExplainsOn(since, was, conn.turns, verdict);
      Assoc(base, body, C.Chunk(data)[..written]);
      longer := body + C.Chunk(data)[..written];
      if verdict == C.Done { C.ChunksSnoc(blocks, data); } else { C.CutInChunk(blocks, data, written); }
    }

    /** Everything after the prefix: each block read is sent as a chunk, until a read yields nothing. */
    method Relay(conn: C.Connection, outputs: seq<OutputTurn>, ghost base: bytes)
      returns (error: Option<Error>, ghost blocks: seq<bytes>, ghost body: bytes, ghost how: C.Verdict)
      requires Valid() && live.output.Some? && prefix == live.output.value.produced && prefix != []
      requires conn.sent == base + C.Chunk(prefix)
      modifies this`live, this`history, conn
      ensures Valid() && live.output.Some? && live == Produced(old(live), live.output.value.produced)
      ensures [] !in blocks && Join(blocks) == live.output.value.produced && blocks != [] && blocks[0] == prefix
      ensures conn.sent == base + body
      ensures if error.None? then body == C.Chunks(blocks) else C.IsCut(body, blocks)
      ensures IsRelayed(blocks, outputs, error, how) && C.Explains(old(conn.turns), conn.turns, how)
    {
      error, blocks, how := None, [prefix], C.Done;
      body := C.Chunks(blocks);
      var i := 0;
      while i < |outputs|
        invariant Valid() && live.output.Some? && live == Produced(old(live), live.output.value.produced)
        invariant [] !in blocks && Join(blocks) == live.output.value.produced && blocks != [] && blocks[0] == prefix
        invariant error.None? && body == C.Chunks(blocks) && conn.sent == base + body
        invariant |blocks| == i + 1 <= |outputs| + 1
        invariant forall k | 0 < k < |blocks| :: outputs[k - 1] == Read(blocks[k])
        invariant how == C.Done && C.Explains(old(conn.turns), conn.turns, C.Done)
      {
        var data;
        error, data := ReadOutput(outputs[i]);
        if error.Some? {
          C.CutBetweenChunks(blocks);
          return;
        }
        if data == [] { return; }
        JoinSnoc(blocks, data);
        var verdict: C.Verdict;
        verdict, body := RelayOne(conn, data, base, blocks, body, old(conn.turns));
        blocks := blocks + [data];
        if verdict != C.Done { return Some(Thrown(verdict)), blocks, body, verdict; }
        i := i + 1;
      }
    }

    /** How a response stands: the headers and what followed them on the wire. */
    ghost predicate Sent(conn: C.Connection, before: bytes, headers: bytes, r: Response)
      reads conn
    {
      if r.started then conn.sent == before + headers + r.body
      else |r.body| <= |headers| && r.body == headers[..|r.body|] && conn.sent == before + r.body
    }

    /** Headers, prefix, relayed blocks, last chunk. */
    method Respond(conn: C.Connection, headers: bytes, outputs: seq<OutputTurn>)
      returns (error: Option<Error>, ghost r: Response)
      requires Valid() && live.output.Some? && prefix == live.output.value.produced && prefix != []
      modifies this`live, this`history, conn
      ensures Valid() && live.output.Some? && live == Produced(old(live), live.output.value.produced)
      ensures Sent(conn, old(conn.sent), headers, r)
      ensures C.Explains(old(conn.turns), conn.turns, r.verdict)
      ensures !r.started ==> r.verdict != C.Done && error == Some(Thrown(r.verdict))
      ensures r.started ==> IsRelayed(r.blocks, outputs, error, r.verdict)
      ensures r.started ==> [] !in r.blocks && Join(r.blocks) == live.output.value.produced
      ensures r.started ==> r.blocks != [] && r.blocks[0] == prefix
      ensures r.started ==> if error.None? then r.body == C.Body(r.blocks) else C.IsCut(r.body, r.blocks)
    {
      ghost var before, since := conn.sent, conn.turns;
      ghost var written;
      var verdict: C.Verdict;
      verdict, written := conn.WriteAll(headers);
      if verdict != C.Done { return Some(Thrown(verdict)), Response(false, [], headers[..written], verdict); }
      ghost var base := before + headers;
      ghost var was := conn.turns;
      verdict, written := conn.SendChunk(prefix);
      C.ExplainsOn(since, was, conn.turns, verdict);
      if verdict != C.Done {
        CutInPrefix(prefix, written);
        return Some(Thrown(verdict)), Response(true, [prefix], C.Chunk(prefix)[..written], verdict);
      }
      error, r := RespondRest(conn, outputs, base, since);
    }

    /** The response from the second chunk on. */
    method RespondRest(conn: C.Connection, outputs: seq<OutputTurn>, ghost base: bytes, ghost since: seq<C.Turn>)
      returns (error: Option<Error>, ghost r: Response)
      requires Valid() && live.output.Some? && prefix == live.output.value.produced && prefix != []
      requires conn.sent == base + C.Chunk(prefix) && C.Explains(since, conn.turns, C.Done)
      modifies this`live, this`history, conn
      ensures Valid() && live.output.Some? && live == Produced(old(live), live.output.value.produced)
      ensures r.started && conn.sent == base + r.body && C.Explains(since, conn.turns, r.verdict)
      ensures IsRelayed(r.blocks, outputs, error, r.verdict)
      ensures [] !in r.blocks && Join(r.blocks) == live.output.value.produced && r.blocks != [] && r.blocks[0] == prefix
      ensures if error.None? then r.body == C.Body(r.blocks) else C.IsCut(r.body, r.blocks)
    {
      ghost var blocks, body, how;
      ghost var was := conn.turns;
      error, blocks, body, how := Relay(conn, outputs, base);
      C.ExplainsOn(since, was, conn.turns, how);
      if error.Some? { return error, Response(true, blocks, body, how); }
      was := conn.turns;
      ghost var written;
      var verdict: C.Verdict;
      verdict, written := conn.SendLast();
      C.ExplainsOn(since, was, conn.turns, verdict);
      Assoc(base, body, C.LAST_CHUNK[..written]);
      C.BodyIsChunks(blocks);
      r := Response(true, blocks, body + C.LAST_CHUNK[..written], verdict);
      if verdict != C.Done {
        C.CutInLastChunk(blocks, written);
        error := Some(Thrown(verdict));
      }
    }

    /**
     * `handle_video`: whatever fails, everything is released, the lease last; and a response
     * that is complete carries exactly what the FFmpeg process in use produced.
     */
    method Handle(
      conn: C.Connection, headers: bytes, hit: Option<Codec>, configured: Codec, outputs: seq<OutputTurn>)
      returns (error: Option<Error>, ghost r: Response, ghost used: Process)
      requires Valid() && Blank()
      modifies this, conn
      ensures Valid() && live == Live(false, None, None, None) && sessions <= 2 && processes <= 3
      ensures history == [] || IsServed(history)
      ensures Sent(conn, old(conn.sent), headers, r) && (r.started || error.Some?)
      ensures C.Explains(old(conn.turns), conn.turns, r.verdict)
      ensures calm && r.verdict == C.Done ==> r.started
      ensures r.started ==> IsRelayed(r.blocks, outputs, error, r.verdict)
      ensures r.started ==> r.blocks != [] && r.blocks[0] == prefix && MediaReady(prefix)
      ensures r.started && used.mode == Copy ==> copyAllowed && !Contains(prefix, HVCC)
      ensures r.started && error.None? ==> C.Decode(r.body) == C.Complete(used.produced, [])
      ensures r.started && error.Some? ==> C.Decode(r.body) == C.Incomplete && C.IsCut(r.body, r.blocks)
      ensures r.started ==> Join(r.blocks) == used.produced
    {
      r, used := Response(false, [], [], C.Done), *;
      error := MayThrow();
      if error.Some? { return; }
      Grant();
      error := Prepare(hit, configured);
      if error.None? {
        MediaIsNotEmpty(prefix);
        error, r := Respond(conn, headers, outputs);
        used := live.output.value;
        if r.started {
          if error.None? { C.DecodeBody(r.blocks); } else { C.CutIsIncomplete(r.body, r.blocks); }
        }
      }
      Release();
    }
  }

  /**
   * A response: whether the headers are complete, the blocks that were to be sent, and the bytes after the headers
   * (or of them), and how the last write ended.
   */
  datatype Response = Response(started: bool, blocks: seq<bytes>, body: bytes, verdict: C.Verdict)

  lemma MediaIsNotEmpty(data: bytes)
    requires MediaReady(data)
    ensures data != []
  {
  }

  lemma CutInPrefix(prefix: bytes, n: nat)
    requires n < |C.Chunk(prefix)|
    ensures C.IsCut(C.Chunk(prefix)[..n], [prefix]) && Join([prefix]) == prefix
  {
    C.CutInChunk([], prefix, n);
    assert [] + C.Chunk(prefix)[..n] == C.Chunk(prefix)[..n];
    assert [] + [prefix] == [prefix];
    JoinSnoc([], prefix);
    assert [] + prefix == prefix;
  }

  /** What a failed send throws. */
  function Thrown(verdict: C.Verdict): Error {
    match verdict
    case TimedOut => Bridge
    case Cut => Fault
    case _ => Disconnected
  }
}
