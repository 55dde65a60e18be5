// The browser demo's fragmented-MP4 splitter: `accept` is fed the response body
// in arbitrary chunks and hands whole initialization and media segments to MSE.
// Box sizes follow section 4.2 of ISO/IEC 14496-12 (32-bit size, size 1 for a
// 64-bit size); a size of 0 ("to the end of the file") is rejected.
module BoxSplitter {
  import opened Bytes

  // ---------------------------------------------------------------- boxes

  datatype Header = Short | Malformed | Sized(size: nat)

  function U32(v: bytes, o: nat): nat
    requires o + 4 <= |v|
  {
    v[o] as int * 0x1000000 + v[o + 1] as int * 0x10000 + v[o + 2] as int * 0x100 + v[o + 3] as int
  }

  lemma U32Within(v: bytes, at: nat, o: nat)
    requires at + o + 4 <= |v|
    ensures U32(v[at..], o) == U32(v, at + o)
  {
  }

  /** What the first bytes of `s` say about the box that starts there. */
  function ReadHeader(s: bytes): Header {
    if |s| < 8 then Short
    else if U32(s, 0) == 1 then
      if |s| < 16 then Short
      else if U32(s, 8) != 0 then Malformed
      else if U32(s, 12) < 16 then Malformed
      else Sized(U32(s, 12))
    else if U32(s, 0) < 8 then Malformed
    else Sized(U32(s, 0))
  }

  /** `b` is exactly one complete box. */
  predicate IsBox(b: bytes) {
    ReadHeader(b) == Sized(|b|)
  }

  /** `s` begins with a complete box. */
  predicate StartsWithBox(s: bytes) {
    ReadHeader(s).Sized? && ReadHeader(s).size <= |s|
  }

  datatype Parsed = Parsed(boxes: seq<bytes>, rest: bytes, failed: bool)

  /** The whole-input parser: the boxes of `s`, what is left, and whether the left-over is malformed. */
  function Parse(s: bytes): Parsed
    decreases |s|
  {
    if StartsWithBox(s) then
      var n := ReadHeader(s).size;
      var tail := Parse(s[n..]);
      Parsed([s[..n]] + tail.boxes, tail.rest, tail.failed)
    else
      Parsed([], s, ReadHeader(s).Malformed?)
  }

  lemma HeaderIsLocal(s: bytes, t: bytes)
    requires ReadHeader(s) != Short
    ensures ReadHeader(s + t) == ReadHeader(s)
  {
    assert forall i | 0 <= i < |s| :: (s + t)[i] == s[i];
  }

  lemma PrefixIsBox(s: bytes)
    requires StartsWithBox(s)
    ensures 8 <= ReadHeader(s).size && IsBox(s[..ReadHeader(s).size])
  {
    var n := ReadHeader(s).size;
    var b := s[..n];
    assert s == b + s[n..];
    assert ReadHeader(b) != Short;
    HeaderIsLocal(b, s[n..]);
  }

  /** The boxes and the left-over are the input. */
  lemma {:induction false} ParseLosesNothing(s: bytes)
    ensures Join(Parse(s).boxes) + Parse(s).rest == s
    decreases |s|
  {
    if StartsWithBox(s) {
      var n := ReadHeader(s).size;
      PrefixIsBox(s);
      ParseLosesNothing(s[n..]);
      var tail := Parse(s[n..]);
      assert Parse(s) == Parsed([s[..n]] + tail.boxes, tail.rest, tail.failed);
      Rejoin(s, n, tail.boxes, tail.rest);
    }
  }

  /** Everything cut off is one whole box, and the left-over holds no further one. */
  lemma {:induction false} ParseCutsWholeBoxes(s: bytes)
    ensures forall k | 0 <= k < |Parse(s).boxes| :: IsBox(Parse(s).boxes[k])
    ensures !StartsWithBox(Parse(s).rest)
    ensures Parse(s).failed <==> ReadHeader(Parse(s).rest).Malformed?
    decreases |s|
  {
    if StartsWithBox(s) {
      PrefixIsBox(s);
      ParseCutsWholeBoxes(s[ReadHeader(s).size..]);
    }
  }

  /** No other cut of the input into boxes is possible. */
  lemma {:induction false} ParseIsTheOnlyCut(boxes: seq<bytes>, rest: bytes)
    requires forall k | 0 <= k < |boxes| :: IsBox(boxes[k])
    requires !StartsWithBox(rest)
    ensures Parse(Join(boxes) + rest) == Parsed(boxes, rest, ReadHeader(rest).Malformed?)
  {
    var s := Join(boxes) + rest;
    if boxes == [] {
      assert s == rest;
    } else {
      var b := boxes[0];
      assert IsBox(b);
      var tail := Join(boxes[1..]) + rest;
      assert s == b + tail;
      HeaderIsLocal(b, tail);
      assert s[|b|..] == tail && s[..|b|] == b;
      ParseIsTheOnlyCut(boxes[1..], rest);
    }
  }

  /** Parsing is incremental: a left-over is enough to continue, and an error is final. */
  lemma {:induction false} ParseContinues(a: bytes, b: bytes)
    ensures var p := Parse(a); var q := Parse(p.rest + b);
            && Parse(a + b) == Parsed(p.boxes + q.boxes, q.rest, q.failed)
            && (p.failed ==> Parse(a + b).failed && Parse(a + b).boxes == p.boxes)
    decreases |a|
  {
    if StartsWithBox(a) {
      var n := ReadHeader(a).size;
      HeaderIsLocal(a, b);
      assert (a + b)[n..] == a[n..] + b && (a + b)[..n] == a[..n];
      ParseContinues(a[n..], b);
      var p := Parse(a[n..]);
      var q := Parse(p.rest + b);
      assert [a[..n]] + (p.boxes + q.boxes) == ([a[..n]] + p.boxes) + q.boxes;
    } else {
      assert Parse(a).rest + b == a + b;
      assert Parse(a).boxes + Parse(a + b).boxes == Parse(a + b).boxes;
      if ReadHeader(a).Malformed? { HeaderIsLocal(a, b); }
    }
  }

  // ------------------------------------------------------------- segments

  datatype Kind = Ftyp | Moov | Styp | Moof | Mdat | Other

  /** The four-character type at offset 4, read as one big-endian number. */
  function KindOf(box: bytes): Kind {
    if |box| < 8 then Other
    else
      var code := U32(box, 4);
      if code == 0x66747970 then Ftyp        // "ftyp"
      else if code == 0x6d6f6f76 then Moov   // "moov"
      else if code == 0x73747970 then Styp   // "styp"
      else if code == 0x6d6f6f66 then Moof   // "moof"
      else if code == 0x6d646174 then Mdat   // "mdat"
      else Other
  }

  predicate IsInit(box: bytes) { KindOf(box) in {Ftyp, Moov} }

  /** The splitter's grouping state: parts of the two open segments and the segments finished so far. */
  datatype Grouping = Grouping(init: seq<bytes>, fragment: Option<seq<bytes>>, out: seq<bytes>)

  const EMPTY := Grouping([], None, [])

  function Group(g: Grouping, box: bytes): Grouping {
    match KindOf(box)
    case Ftyp => g.(init := g.init + [box])
    case Moov => g.(init := [], out := g.out + [Join(g.init + [box])])
    case Styp => g.(fragment := Some([box]))
    case Moof => g.(fragment := Some([box]))
    case Mdat =>
      if g.fragment.Some? then g.(fragment := None, out := g.out + [Join(g.fragment.value + [box])]) else g
    case Other =>
      if g.fragment.Some? then g.(fragment := Some(g.fragment.value + [box])) else g
  }

  function GroupAll(g: Grouping, boxes: seq<bytes>): Grouping
    decreases |boxes|
  {
    if boxes == [] then g else GroupAll(Group(g, boxes[0]), boxes[1..])
  }

  lemma {:induction false} GroupAllConcat(g: Grouping, a: seq<bytes>, b: seq<bytes>)
    ensures GroupAll(g, a + b) == GroupAll(GroupAll(g, a), b)
    decreases |a|
  {
    if a == [] {
      assert a + b == b;
    } else {
      assert (a + b)[1..] == a[1..] + b;
      GroupAllConcat(Group(g, a[0]), a[1..], b);
    }
  }

  // Which segments a box sequence means, said without a running state: every
  // `moov` closes an initialization segment, and an `mdat` closes a media segment
  // exactly when the closest earlier styp, moof or mdat is a styp or a moof.

  /** Whether a box ends the reach of earlier initialization parts, or of earlier media parts. */
  predicate Resets(box: bytes, init: bool) {
    if init then KindOf(box) == Moov else KindOf(box) in {Styp, Moof, Mdat}
  }

  /** Index of the last resetting box before `i`, or -1. */
  function Last(boxes: seq<bytes>, i: nat, init: bool): (j: int)
    requires i <= |boxes|
    ensures -1 <= j < i
    ensures 0 <= j ==> Resets(boxes[j], init)
    ensures forall k | j < k < i :: !Resets(boxes[k], init)
  {
    if i == 0 then -1 else if Resets(boxes[i - 1], init) then i - 1 else Last(boxes, i - 1, init)
  }

  /** The boxes at lo..hi that are (or are not) initialization boxes. */
  function Pick(boxes: seq<bytes>, lo: nat, hi: nat, init: bool): seq<bytes>
    requires lo <= hi <= |boxes|
  {
    if lo == hi then []
    else if IsInit(boxes[hi - 1]) == init then Pick(boxes, lo, hi - 1, init) + [boxes[hi - 1]]
    else Pick(boxes, lo, hi - 1, init)
  }

  function MoovBefore(boxes: seq<bytes>, i: nat): int
    requires i <= |boxes|
  {
    Last(boxes, i, true)
  }

  function BoundaryBefore(boxes: seq<bytes>, i: nat): int
    requires i <= |boxes|
  {
    Last(boxes, i, false)
  }

  function FragmentOpen(boxes: seq<bytes>, i: nat): bool
    requires i <= |boxes|
  {
    var j := BoundaryBefore(boxes, i);
    0 <= j && KindOf(boxes[j]) != Mdat
  }

  /** The parts of the segment that box i closes, if it closes one. */
  function PartsClosedBy(boxes: seq<bytes>, i: nat): Option<seq<bytes>>
    requires i < |boxes|
  {
    if KindOf(boxes[i]) == Moov then Some(Pick(boxes, MoovBefore(boxes, i) + 1, i + 1, true))
    else if KindOf(boxes[i]) == Mdat && FragmentOpen(boxes, i) then
      Some(Pick(boxes, BoundaryBefore(boxes, i), i + 1, false))
    else None
  }

  function Segments(boxes: seq<bytes>, n: nat): seq<bytes>
    requires n <= |boxes|
  {
    if n == 0 then []
    else match PartsClosedBy(boxes, n - 1)
      case Some(parts) => Segments(boxes, n - 1) + [Join(parts)]
      case None => Segments(boxes, n - 1)
  }

  /** What the grouping state is after n boxes. */
  ghost predicate Describes(g: Grouping, boxes: seq<bytes>, n: nat)
    requires n <= |boxes|
  {
    && g.out == Segments(boxes, n)
    && g.init == Pick(boxes, MoovBefore(boxes, n) + 1, n, true)
    && g.fragment == if FragmentOpen(boxes, n) then Some(Pick(boxes, BoundaryBefore(boxes, n), n, false)) else None
  }

  lemma DescribesNext(g: Grouping, boxes: seq<bytes>, n: nat)
    requires n < |boxes| && Describes(g, boxes, n)
    ensures Describes(Group(g, boxes[n]), boxes, n + 1)
  {
    var box := boxes[n];
    assert MoovBefore(boxes, n + 1) == if KindOf(box) == Moov then n as int else MoovBefore(boxes, n);
    assert BoundaryBefore(boxes, n + 1) == if Resets(box, false) then n as int else BoundaryBefore(boxes, n);
    assert Pick(boxes, n, n, false) == [] && Pick(boxes, n + 1, n + 1, true) == [];
    match KindOf(box) {
      case Ftyp => assert FragmentOpen(boxes, n + 1) == FragmentOpen(boxes, n);
      case Moov =>
        assert FragmentOpen(boxes, n + 1) == FragmentOpen(boxes, n);
        assert IsInit(box);
      case Styp => assert Pick(boxes, n, n + 1, false) == [box];
      case Moof => assert Pick(boxes, n, n + 1, false) == [box];
      case Mdat => assert !FragmentOpen(boxes, n + 1);
      case Other => assert FragmentOpen(boxes, n + 1) == FragmentOpen(boxes, n);
    }
  }

  /** Grouping box by box yields exactly the segments the box sequence means. */
  lemma {:induction false} GroupingMeansSegments(boxes: seq<bytes>, n: nat)
    requires n <= |boxes|
    ensures Describes(GroupAll(EMPTY, boxes[..n]), boxes, n)
  {
    if n > 0 {
      GroupingMeansSegments(boxes, n - 1);
      var before := GroupAll(EMPTY, boxes[..n - 1]);
      GroupAllConcat(EMPTY, boxes[..n - 1], [boxes[n - 1]]);
      assert boxes[..n] == boxes[..n - 1] + [boxes[n - 1]];
      assert GroupAll(before, [boxes[n - 1]]) == Group(before, boxes[n - 1]);
      DescribesNext(before, boxes, n - 1);
    }
  }

  lemma {:induction false} PickMembers(boxes: seq<bytes>, lo: nat, hi: nat)
    requires lo <= hi <= |boxes|
    ensures forall b | b in Pick(boxes, lo, hi, false) :: exists k | lo <= k < hi :: boxes[k] == b && !IsInit(b)
    ensures lo < hi && !IsInit(boxes[lo]) ==>
              |Pick(boxes, lo, hi, false)| > 0 && Pick(boxes, lo, hi, false)[0] == boxes[lo]
    decreases hi - lo
  {
    if lo < hi {
      PickMembers(boxes, lo, hi - 1);
      assert forall b | b in Pick(boxes, lo, hi - 1, false) :: b in Pick(boxes, lo, hi, false);
      assert IsInit(boxes[hi - 1]) == false ==> boxes[hi - 1] in Pick(boxes, lo, hi, false);
      if lo == hi - 1 { assert Pick(boxes, lo, lo, false) == []; }
    }
  }

  /** A media segment starts with styp or moof, ends with its only mdat, and holds neither in between. */
  lemma MediaSegmentShape(boxes: seq<bytes>, i: nat)
    requires i < |boxes| && KindOf(boxes[i]) == Mdat && PartsClosedBy(boxes, i).Some?
    ensures var parts := PartsClosedBy(boxes, i).value;
            && |parts| >= 2
            && KindOf(parts[0]) in {Styp, Moof}
            && parts[|parts| - 1] == boxes[i]
            && forall k | 0 < k < |parts| - 1 :: KindOf(parts[k]) == Other
  {
    var lo := BoundaryBefore(boxes, i);
    var head := Pick(boxes, lo, i, false);
    var parts := PartsClosedBy(boxes, i).value;
    assert parts == head + [boxes[i]];
    PickMembers(boxes, lo, i);
    PickMembers(boxes, lo + 1, i);
    PickSplit(boxes, lo, i);
    forall k | 0 < k < |head|
      ensures KindOf(head[k]) == Other
    {
      assert head[k] == Pick(boxes, lo + 1, i, false)[k - 1];
      assert head[k] in Pick(boxes, lo + 1, i, false);
    }
  }

  lemma {:induction false} PickSplit(boxes: seq<bytes>, lo: nat, hi: nat)
    requires lo < hi <= |boxes| && !IsInit(boxes[lo])
    ensures Pick(boxes, lo, hi, false) == [boxes[lo]] + Pick(boxes, lo + 1, hi, false)
    decreases hi - lo
  {
    if lo + 1 < hi {
      PickSplit(boxes, lo, hi - 1);
    } else {
      assert Pick(boxes, lo, lo, false) == [] && Pick(boxes, lo + 1, lo + 1, false) == [];
    }
  }

  // ------------------------------------------------------------ the player

  /**
   * What the page sees: a body chunk, or the source buffer's updateend; `idle` says whether MSE takes a segment now.
   */
  datatype Event = Chunk(data: bytes, idle: bool) | UpdateEnd(idle: bool)

  function Payload(events: seq<Event>): bytes {
    if events == [] then []
    else (if events[0].Chunk? then events[0].data else []) + Payload(events[1..])
  }

  /** How often MSE could take a segment. */
  function Chances(events: seq<Event>): nat {
    if events == [] then 0
    else
      var last := |events| - 1;
      Chances(events[..last]) + if events[last].idle then 1 else 0
  }

  /** How often it could since the last chunk came. */
  function ChancesAtEnd(events: seq<Event>): nat {
    if events == [] || events[|events| - 1].Chunk? then 0
    else
      var last := |events| - 1;
      ChancesAtEnd(events[..last]) + if events[last].idle then 1 else 0
  }

  lemma {:induction false} PayloadSnoc(events: seq<Event>, e: Event)
    ensures Payload(events + [e]) == Payload(events) + if e.Chunk? then e.data else []
  {
    if events == [] {
      assert events + [e] == [e] && Payload([e][1..]) == [];
    } else {
      assert (events + [e])[1..] == events[1..] + [e];
      PayloadSnoc(events[1..], e);
    }
  }

  /** What grouping the boxes of `s` from `g` ends in. */
  datatype Outcome = Outcome(grouping: Grouping, rest: bytes, failed: bool)

  function Finish(g: Grouping, s: bytes): Outcome {
    Outcome(GroupAll(g, Parse(s).boxes), Parse(s).rest, Parse(s).failed)
  }

  lemma FinishContinues(g: Grouping, a: bytes, b: bytes)
    requires !Parse(a).failed
    ensures Finish(g, a + b) == Finish(Finish(g, a).grouping, Finish(g, a).rest + b)
  {
    ParseContinues(a, b);
    GroupAllConcat(g, Parse(a).boxes, Parse(Parse(a).rest + b).boxes);
  }

  /** The segments a whole stream means. */
  function SegmentsIn(s: bytes): seq<bytes> {
    Segments(Parse(s).boxes, |Parse(s).boxes|)
  }

  /** The splitter's output on a whole stream is exactly the segments its boxes mean. */
  lemma SegmentsOfStream(s: bytes)
    ensures Finish(EMPTY, s).grouping.out == SegmentsIn(s)
  {
    var boxes := Parse(s).boxes;
    GroupingMeansSegments(boxes, |boxes|);
    assert boxes[..|boxes|] == boxes;
  }

  lemma NoBox(s: bytes, g: Grouping)
    requires !StartsWithBox(s)
    ensures Finish(g, s) == Outcome(g, s, ReadHeader(s).Malformed?)
  {
  }

  lemma NextBox(buffer: bytes, at: nat, size: nat, g: Grouping)
    requires at + size <= |buffer| && ReadHeader(buffer[at..]) == Sized(size)
    ensures 8 <= size
    ensures Finish(g, buffer[at..]) == Finish(Group(g, buffer[at..at + size]), buffer[at + size..])
  {
    var here := buffer[at..];
    assert here[..size] == buffer[at..at + size] && here[size..] == buffer[at + size..];
    assert Parse(here).boxes[1..] == Parse(here[size..]).boxes;
  }

  lemma PayloadNext(events: seq<Event>, i: nat)
    requires i < |events|
    ensures Payload(events[..i + 1]) ==
            match events[i] case Chunk(data, _) => Payload(events[..i]) + data case UpdateEnd(_) => Payload(events[..i])
  {
    PayloadSnoc(events[..i], events[i]);
    assert events[..i + 1] == events[..i] + [events[i]];
  }

  class Player {
    var parserBuffer: bytes
    var initParts: seq<bytes>
    var fragmentParts: Option<seq<bytes>>
    var pending: seq<bytes>
    var appended: seq<bytes>   // segments handed to appendBuffer, in order

    constructor ()
      ensures parserBuffer == [] && Grouped() == EMPTY
    {
      parserBuffer, initParts, fragmentParts, pending, appended := [], [], None, [], [];
    }

    function Grouped(): Grouping
      reads this
    {
      Grouping(initParts, fragmentParts, appended + pending)
    }

    method Drain(idle: bool)
      modifies this`pending, this`appended
      ensures appended + pending == old(appended + pending)
      ensures |appended| == old(|appended|) + if idle && old(pending) != [] then 1 else 0
    {
      if idle && pending != [] {
        var next := pending[0];
        pending := pending[1..];
        appended := appended + [next];
      }
    }

    /** The size fields at `at`: 32 bits, or 64 bits whose high half must be zero. */
    static method HeaderAt(buffer: bytes, at: nat) returns (header: Header)
      requires at + 8 <= |buffer|
      ensures header == ReadHeader(buffer[at..])
    {
      U32Within(buffer, at, 0);
      var size, head := U32(buffer, at), 8;
      if size == 1 {
        if |buffer| - at < 16 { return Short; }
        U32Within(buffer, at, 8);
        U32Within(buffer, at, 12);
        if U32(buffer, at + 8) != 0 { return Malformed; }
        size, head := U32(buffer, at + 12), 16;
      }
      header := if size < head then Malformed else Sized(size);
    }

    /** What `accept` does with one complete box. */
    method Place(box: bytes)
      modifies this`initParts, this`fragmentParts, this`pending
      ensures Grouped() == Group(old(Grouped()), box)
    {
      match KindOf(box) {
        case Ftyp =>
          initParts := initParts + [box];
        case Moov =>
          initParts := initParts + [box];
          pending := pending + [Join(initParts)];
          initParts := [];
        case Styp => fragmentParts := Some([box]);
        case Moof => fragmentParts := Some([box]);
        case Mdat =>
          if fragmentParts.Some? {
            pending := pending + [Join(fragmentParts.value + [box])];
            fragmentParts := None;
          }
        case Other =>
          if fragmentParts.Some? { fragmentParts := Some(fragmentParts.value + [box]); }
      }
    }

    ghost predicate Heading(buffer: bytes, at: nat, goal: Outcome)
      reads this
    {
      at <= |buffer| && Finish(Grouped(), buffer[at..]) == goal
    }

    /** One turn of the loop of `accept`: wait for more bytes, throw, or place one box and advance. */
    method Turn(buffer: bytes, at: nat, ghost goal: Outcome) returns (header: Header)
      requires at + 8 <= |buffer| && Heading(buffer, at, goal)
      modifies this`initParts, this`fragmentParts, this`pending
      ensures match header
              case Short => goal == Outcome(Grouped(), buffer[at..], false)
              case Malformed => goal == Outcome(Grouped(), buffer[at..], true)
              case Sized(n) => 0 < n && Heading(buffer, at + n, goal)
    {
      header := HeaderAt(buffer, at);
      if header.Sized? && header.size <= |buffer| - at {
        NextBox(buffer, at, header.size, Grouped());
        ghost var next := Group(Grouped(), buffer[at..at + header.size]);
        Place(buffer[at..at + header.size]);
        assert Grouped() == next;
      } else {
        NoBox(buffer[at..], Grouped());
        if header.Sized? { header := Short; }
      }
    }

    /** The loop of `accept`: place complete boxes until more bytes are needed or a box is malformed. */
    method Scan(buffer: bytes) returns (at: nat, threw: bool)
      modifies this`initParts, this`fragmentParts, this`pending
      ensures at <= |buffer|
      ensures Finish(old(Grouped()), buffer) == Outcome(Grouped(), buffer[at..], threw)
    {
      at := 0;
      ghost var goal := Finish(Grouped(), buffer);
      assert buffer[0..] == buffer;
      while |buffer| - at >= 8
        invariant Heading(buffer, at, goal)
        decreases |buffer| - at
      {
        var header := Turn(buffer, at, goal);
        match header {
          case Short => return at, false;
          case Malformed => return at, true;
          case Sized(n) => at := at + n;
        }
      }
      NoBox(buffer[at..], Grouped());
      threw := false;
    }

    /** One call of `accept`. A malformed box throws after the complete boxes before it were grouped. */
    method Accept(chunk: bytes, idle: bool) returns (threw: bool)
      modifies this
      ensures var done := Finish(old(Grouped()), old(parserBuffer) + chunk);
              && threw == done.failed
              && Grouped() == done.grouping
              && parserBuffer == if threw then old(parserBuffer) + chunk else done.rest
      ensures |appended| ==
              old(|appended|) + if !threw && idle && |appended + pending| > old(|appended|) then 1 else 0
    {
      parserBuffer := parserBuffer + chunk;
      var at;
      at, threw := Scan(parserBuffer);
      if !threw {
        if at > 0 { parserBuffer := parserBuffer[at..]; }
        Drain(idle);
      }
    }

    /** The player has read `seen`; `threw` says a malformed box ended it. */
    ghost predicate HasRead(seen: bytes, threw: bool)
      reads this
    {
      && threw == Parse(seen).failed
      && Grouped() == Finish(EMPTY, seen).grouping
      && (!threw ==> parserBuffer == Parse(seen).rest)
    }

    method Handle(e: Event, ghost seen: bytes) returns (threw: bool)
      requires HasRead(seen, false)
      modifies this
      ensures HasRead(match e case Chunk(data, _) => seen + data case UpdateEnd(_) => seen, threw)
      ensures e.UpdateEnd? ==> appended + pending == old(appended + pending)
      ensures |appended| ==
              old(|appended|) + if !threw && e.idle && |appended + pending| > old(|appended|) then 1 else 0
    {
      match e {
        case Chunk(data, idle) =>
          FinishContinues(EMPTY, seen, data);
          threw := Accept(data, idle);
        case UpdateEnd(idle) =>
          Drain(idle);
          threw := false;
      }
    }

    /** The read loop of `start`: every event in turn, stopping at the first malformed box. */
    method Play(events: seq<Event>) returns (threw: bool)
      requires parserBuffer == [] && Grouped() == EMPTY
      modifies this
      ensures threw == Parse(Payload(events)).failed
      ensures appended + pending == SegmentsIn(Payload(events))
      ensures |appended| <= Chances(events)
      ensures !threw && ChancesAtEnd(events) >= |SegmentsIn(Payload(events))| ==> pending == []
      ensures !threw ==> parserBuffer == Parse(Payload(events)).rest
    {
      var i := 0;
      threw := false;
      while i < |events| && !threw
        invariant 0 <= i <= |events|
        invariant HasRead(Payload(events[..i]), threw)
        invariant |appended| <= Chances(events[..i])
        invariant !threw ==> pending == [] || |appended| >= ChancesAtEnd(events[..i])
      {
        PayloadNext(events, i);
        assert events[..i + 1][..i] == events[..i];
        threw := Handle(events[i], Payload(events[..i]));
        i := i + 1;
      }
      ErrorIsFinal(events, i);
      if !threw { assert events[..i] == events; } else { ChancesGrow(events, i); }
    }
  }

  lemma {:induction false} ChancesGrow(events: seq<Event>, i: nat)
    requires i <= |events|
    ensures Chances(events[..i]) <= Chances(events)
    decreases |events|
  {
    if i == |events| {
      assert events[..i] == events;
    } else {
      assert events[..|events| - 1][..i] == events[..i];
      ChancesGrow(events[..|events| - 1], i);
    }
  }

  /** Events after the one that failed do not change the reading of the stream. */
  lemma ErrorIsFinal(events: seq<Event>, i: nat)
    requires i <= |events|
    requires i < |events| ==> Parse(Payload(events[..i])).failed
    ensures Finish(EMPTY, Payload(events[..i])).grouping.out == SegmentsIn(Payload(events))
    ensures Parse(Payload(events)).failed == Parse(Payload(events[..i])).failed
    ensures i == |events| ==> Payload(events) == Payload(events[..i])
  {
    assert events[..i] + events[i..] == events;
    PayloadConcat(events[..i], events[i..]);
    if i == |events| {
      assert events[..i] == events;
    } else {
      ParseContinues(Payload(events[..i]), Payload(events[i..]));
    }
    SegmentsOfStream(Payload(events));
  }

  lemma {:induction false} PayloadConcat(a: seq<Event>, b: seq<Event>)
    ensures Payload(a + b) == Payload(a) + Payload(b)
  {
    if a == [] {
      assert a + b == b;
    } else {
      assert (a + b)[1..] == a[1..] + b;
      PayloadConcat(a[1..], b);
    }
  }

  /** Two cuts of the same bytes into chunks mean the same segments and the same verdict. */
  method SameForEveryChunking(a: Player, b: Player, cut: seq<Event>, whole: bytes, idle: bool)
    returns (threwA: bool, threwB: bool)
    requires a != b && Payload(cut) == whole
    requires a.parserBuffer == [] && a.Grouped() == EMPTY && b.parserBuffer == [] && b.Grouped() == EMPTY
    modifies a, b
    ensures threwA == threwB
    ensures a.appended + a.pending == b.appended + b.pending
  {
    threwA := a.Play(cut);
    PayloadSnoc([], Chunk(whole, idle));
    assert [] + [Chunk(whole, idle)] == [Chunk(whole, idle)] && [] + whole == whole;
    threwB := b.Play([Chunk(whole, idle)]);
  }
}
