// The chunked response body (section 7.1 of RFC 9112): the chunks the bridge
// writes through partial, blocked and interrupted socket sends, and what a
// decoder on the other side makes of the bytes that arrived.
module ChunkedBody {
  import opened Bytes
  import opened Numerals

  const CR: byte := 0x0D
  const LF: byte := 0x0A
  const CRLF: bytes := [CR, LF]
  const LAST_CHUNK: bytes := [0x30] + CRLF + CRLF

  // ------------------------------------------------------------- encoding

  function ChunkHead(size: nat): bytes {
    Rendered(size, 16) + CRLF
  }

  function Chunk(data: bytes): bytes {
    ChunkHead(|data|) + (data + CRLF)
  }

  /** The body that carries the blocks, one chunk each, and ends with the last chunk. */
  function Body(blocks: seq<bytes>): bytes {
    if blocks == [] then LAST_CHUNK else Chunk(blocks[0]) + Body(blocks[1..])
  }

  /** Chunks as they are on the wire: the size in hexadecimal, and CRLF after it and after the data. */
  lemma ChunksOnTheWire(data: bytes)
    ensures ChunkHead(26) == Ascii("1a\r\n") && LAST_CHUNK == Ascii("0\r\n\r\n")
    ensures |data| == 26 ==> Chunk(data) == Ascii("1a\r\n") + data + Ascii("\r\n")
  {
    assert Rendered(1, 16) == [0x31];
    assert Rendered(26, 16) == [0x31] + [0x61];
  }

  // ------------------------------------------------------------- decoding

  datatype Reading = Complete(data: bytes, rest: bytes) | Incomplete | Invalid

  /** End of the run of hexadecimal digits that starts at `i`. */
  function DigitsEnd(s: bytes, i: nat): (n: nat)
    requires i <= |s|
    ensures i <= n <= |s|
    decreases |s| - i
  {
    if i == |s| || !IsHexDigit(s[i]) then i else DigitsEnd(s, i + 1)
  }

  lemma {:induction false} DigitsEndIs(s: bytes, i: nat, n: nat)
    requires i <= n <= |s|
    requires forall k | i <= k < n :: IsHexDigit(s[k])
    requires n < |s| ==> !IsHexDigit(s[n])
    ensures DigitsEnd(s, i) == n
    decreases n - i
  {
    if i < n { DigitsEndIs(s, i + 1, n); }
  }

  lemma {:induction false} DigitsUntilEnd(s: bytes, i: nat, k: nat)
    requires i <= |s| && i <= k < DigitsEnd(s, i)
    ensures IsHexDigit(s[k])
    decreases |s| - i
  {
    if i < k { DigitsUntilEnd(s, i + 1, k); }
  }

  datatype Mark = Missing | Wrong | Present

  /** Whether CRLF stands at `i`; Missing when the input stops too early to tell. */
  function CrlfAt(s: bytes, i: nat): Mark {
    if i >= |s| then Missing
    else if s[i] != CR then Wrong
    else if i + 1 >= |s| then Missing
    else if s[i + 1] != LF then Wrong
    else Present
  }

  datatype Head = NoHead(mark: Mark) | HeadOf(size: nat, length: nat)

  /** The size line that `s` starts with. Chunk extensions are not accepted. */
  function ReadHead(s: bytes): Head {
    var n := DigitsEnd(s, 0);
    if n == |s| then NoHead(Missing)
    else if n == 0 then NoHead(Wrong)
    else if CrlfAt(s, n) != Present then NoHead(CrlfAt(s, n))
    else
      HeadDigits(s);
      HeadOf(Value(s[..n], 16), n + 2)
  }

  lemma HeadDigits(s: bytes)
    ensures AreDigits(s[..DigitsEnd(s, 0)], 16)
  {
    var n := DigitsEnd(s, 0);
    forall k | 0 <= k < n
      ensures IsHexDigit(s[k])
    {
      DigitsUntilEnd(s, 0, k);
    }
  }

  function Prepend(data: bytes, reading: Reading): Reading {
    match reading
    case Complete(more, rest) => Complete(data + more, rest)
    case _ => reading
  }

  /** Decodes one body. Trailer fields are not accepted. */
  function Decode(s: bytes): Reading
    decreases |s|, 1
  {
    DecodeAfter(s, ReadHead(s))
  }

  function DecodeAfter(s: bytes, head: Head): Reading
    decreases |s|, 0
  {
    match head
    case NoHead(mark) => if mark == Missing then Incomplete else Invalid
    case HeadOf(size, length) =>
      if size == 0 then
        match CrlfAt(s, length)
        case Missing => Incomplete
        case Wrong => Invalid
        case Present => Complete([], s[length + 2..])
      else if |s| < length + size then Incomplete
      else
        match CrlfAt(s, length + size)
        case Missing => Incomplete
        case Wrong => Invalid
        case Present => Prepend(s[length..length + size], Decode(s[length + size + 2..]))
  }

  // --------------------------------------------------------- round trips

  lemma HeadOfChunk(size: nat, tail: bytes)
    ensures ReadHead(ChunkHead(size) + tail) == HeadOf(size, |ChunkHead(size)|)
  {
    var digits := Rendered(size, 16);
    var s := ChunkHead(size) + tail;
    assert forall k | 0 <= k < |digits| :: s[k] == digits[k] && digits[k] in digits;
    assert s[|digits|] == CR && s[|digits| + 1] == LF;
    DigitsEndIs(s, 0, |digits|);
    assert s[..|digits|] == digits;
    ValueOfRendered(size, 16);
  }

  /** Where the pieces of a chunk are. */
  lemma ChunkLayout(data: bytes, tail: bytes)
    ensures var s := Chunk(data) + tail; var n := |ChunkHead(|data|)|; var end := n + |data|;
            && |s| == end + 2 + |tail|
            && s[n..end] == data && CrlfAt(s, end) == Present && s[end + 2..] == tail
            && ReadHead(s) == HeadOf(|data|, n)
  {
    var head := ChunkHead(|data|);
    var s := Chunk(data) + tail;
    var end := |head| + |data|;
    assert s == head + (data + CRLF + tail);
    assert s == head + data + (CRLF + tail);
    assert s == head + data + CRLF + tail;
    assert s[end] == CR && s[end + 1] == LF;
    HeadOfChunk(|data|, data + CRLF + tail);
  }

  lemma DecodeLaidOut(s: bytes, n: nat, data: bytes, tail: bytes)
    requires data != [] && n + |data| + 2 <= |s|
    requires s[n..n + |data|] == data && CrlfAt(s, n + |data|) == Present && s[n + |data| + 2..] == tail
    ensures DecodeAfter(s, HeadOf(|data|, n)) == Prepend(data, Decode(tail))
  {
  }

  lemma DecodeChunk(data: bytes, tail: bytes)
    requires data != []
    ensures Decode(Chunk(data) + tail) ==
            Prepend(data, Decode(tail))
  {
    ChunkLayout(data, tail);
    DecodeLaidOut(Chunk(data) + tail, |ChunkHead(|data|)|, data, tail);
  }

  lemma DecodeEmptyChunk(tail: bytes)
    ensures Decode(Chunk([]) + tail) == Complete([], tail)
  {
    ChunkLayout([], tail);
  }

  lemma LastChunkIsEmptyChunk()
    ensures LAST_CHUNK == Chunk([])
  {
    assert Rendered(0, 16) == [0x30];
    assert [] + CRLF == CRLF;
  }

  lemma {:induction false} DecodeBody(blocks: seq<bytes>)
    requires [] !in blocks
    ensures Decode(Body(blocks)) == Complete(Join(blocks), [])
  {
    if blocks == [] {
      LastChunkIsEmptyChunk();
      assert Chunk([]) + [] == Chunk([]);
      DecodeEmptyChunk([]);
    } else {
      assert blocks[0] in blocks;
      DecodeChunk(blocks[0], Body(blocks[1..]));
      DecodeBody(blocks[1..]);
    }
  }

  lemma {:induction false} EmptyBlockEndsBody(blocks: seq<bytes>)
    requires [] in blocks
    ensures Decode(Body(blocks)).Complete? && Decode(Body(blocks)).rest != []
  {
    if blocks[0] == [] {
      DecodeEmptyChunk(Body(blocks[1..]));
      BodyNotEmpty(blocks[1..]);
    } else {
      assert [] in blocks[1..];
      EmptyBlockEndsBody(blocks[1..]);
      DecodeChunk(blocks[0], Body(blocks[1..]));
    }
  }

  lemma {:induction false} BodyNotEmpty(blocks: seq<bytes>)
    ensures Body(blocks) != []
  {
  }

  /** The decoder recovers the blocks exactly when none of them is empty. */
  lemma BodyRoundTrip(blocks: seq<bytes>)
    ensures Decode(Body(blocks)) == Complete(Join(blocks), []) <==> [] !in blocks
  {
    if [] in blocks { EmptyBlockEndsBody(blocks); } else { DecodeBody(blocks); }
  }

  // ------------------------------------------------------ truncated bodies

  /** A chunk cut anywhere before its end is recognized as incomplete. */
  lemma CutChunk(data: bytes, n: nat)
    requires n < |Chunk(data)|
    ensures Decode(Chunk(data)[..n]) == Incomplete
  {
    var digits := Rendered(|data|, 16);
    var head := ChunkHead(|data|);
    var s := Chunk(data)[..n];
    if n < |head| {
      CutHead(|data|, data + CRLF, n);
    } else {
      assert s == head + (data + CRLF)[..n - |head|];
      HeadOfChunk(|data|, (data + CRLF)[..n - |head|]);
      var end := |head| + |data|;
      if n == end + 1 { assert s[end] == CR; }
    }
  }

  lemma CutHead(size: nat, tail: bytes, n: nat)
    requires n < |ChunkHead(size)|
    ensures Decode((ChunkHead(size) + tail)[..n]) == Incomplete
  {
    var digits := Rendered(size, 16);
    var s := (ChunkHead(size) + tail)[..n];
    assert forall k | 0 <= k < n && k < |digits| :: s[k] == digits[k] && digits[k] in digits;
    if n <= |digits| {
      DigitsEndIs(s, 0, n);
    } else {
      assert s[|digits|] == CR;
      DigitsEndIs(s, 0, |digits|);
    }
  }

  lemma ChunkPrefix(a: bytes, b: bytes, n: nat)
    requires n <= |a + b|
    ensures n < |a| ==> (a + b)[..n] == a[..n]
    ensures n >= |a| ==> (a + b)[..n] == a + b[..n - |a|]
  {
  }

  /** No proper prefix of a body passes for a complete one. */
  lemma {:induction false} CutBody(blocks: seq<bytes>, n: nat)
    requires [] !in blocks && n < |Body(blocks)|
    ensures Decode(Body(blocks)[..n]) == Incomplete
  {
    if blocks == [] {
      LastChunkIsEmptyChunk();
      CutChunk([], n);
    } else {
      var first, later := Chunk(blocks[0]), Body(blocks[1..]);
      assert blocks[0] in blocks;
      ChunkPrefix(first, later, n);
      if n < |first| {
        CutChunk(blocks[0], n);
      } else {
        CutBody(blocks[1..], n - |first|);
        DecodeChunk(blocks[0], later[..n - |first|]);
      }
    }
  }

  /** The chunks alone, without the last one. */
  function Chunks(blocks: seq<bytes>): bytes {
    if blocks == [] then [] else Chunk(blocks[0]) + Chunks(blocks[1..])
  }

  lemma {:induction false} BodyIsChunks(blocks: seq<bytes>)
    ensures Body(blocks) == Chunks(blocks) + LAST_CHUNK
  {
    if blocks == [] {
      assert [] + LAST_CHUNK == LAST_CHUNK;
    } else {
      BodyIsChunks(blocks[1..]);
      Assoc(Chunk(blocks[0]), Chunks(blocks[1..]), LAST_CHUNK);
    }
  }

  lemma {:induction false} ChunksSnoc(blocks: seq<bytes>, block: bytes)
    ensures Chunks(blocks + [block]) == Chunks(blocks) + Chunk(block)
  {
    if blocks == [] {
      assert [block][1..] == [];
      assert Chunk(block) + [] == Chunk(block) == [] + Chunk(block);
    } else {
      assert (blocks + [block])[1..] == blocks[1..] + [block];
      ChunksSnoc(blocks[1..], block);
      Assoc(Chunk(blocks[0]), Chunks(blocks[1..]), Chunk(block));
    }
  }

  /** What was sent of a body that was to carry these blocks stops before its end. */
  predicate IsCut(body: bytes, blocks: seq<bytes>) {
    |body| < |Body(blocks)| && body == Body(blocks)[..|body|]
  }

  lemma CutBetweenChunks(blocks: seq<bytes>)
    ensures IsCut(Chunks(blocks), blocks)
  {
    BodyIsChunks(blocks);
  }

  lemma CutInChunk(blocks: seq<bytes>, block: bytes, n: nat)
    requires n < |Chunk(block)|
    ensures IsCut(Chunks(blocks) + Chunk(block)[..n], blocks + [block])
  {
    ChunksSnoc(blocks, block);
    BodyIsChunks(blocks + [block]);
    ChunkPrefix(Chunks(blocks), Chunk(block), |Chunks(blocks)| + n);
    ChunkPrefix(Chunks(blocks + [block]), LAST_CHUNK, |Chunks(blocks)| + n);
  }

  lemma CutInLastChunk(blocks: seq<bytes>, n: nat)
    requires n < |LAST_CHUNK|
    ensures IsCut(Chunks(blocks) + LAST_CHUNK[..n], blocks)
  {
    BodyIsChunks(blocks);
    ChunkPrefix(Chunks(blocks), LAST_CHUNK, |Chunks(blocks)| + n);
  }

  /** The decoder never takes a body that was cut for a complete one. */
  lemma CutIsIncomplete(body: bytes, blocks: seq<bytes>)
    requires [] !in blocks && IsCut(body, blocks)
    ensures Decode(body) == Incomplete
  {
    CutBody(blocks, |body|);
  }

  // ------------------------------------------------------------- the wire

  /** One turn of the send loop: the service stopped, a partial send, a full buffer, a signal, or a dead socket. */
  datatype Turn = Stopped | Sent(count: nat) | Blocked(gone: bool, stalled: bool) | Interrupted | Dead

  /** How a write ends. Cut means the observed run ends before the write does. */
  datatype Verdict = Done | Broken | Gone | TimedOut | Cut

  /** How this turn ends a write, if it does. */
  function Ending(t: Turn): Option<Verdict> {
    match t
    case Stopped => Some(Broken)
    case Dead => Some(Broken)
    case Sent(count) => if count == 0 then Some(Broken) else None
    case Blocked(gone, stalled) => if gone then Some(Gone) else if stalled then Some(TimedOut) else None
    case Interrupted => None
  }

  /** The first n turns end nothing. */
  predicate Harmless(turns: seq<Turn>, n: nat)
    requires n <= |turns|
  {
    forall i | 0 <= i < n :: Ending(turns[i]).None?
  }

  /** The turns used up give the verdict: the last one ends the writing if it failed, all others do not. */
  predicate Explains(before: seq<Turn>, after: seq<Turn>, verdict: Verdict) {
    && |after| <= |before| && before[|before| - |after|..] == after
    && var n := |before| - |after|;
       match verdict
       case Done => Harmless(before, n)
       case Cut => Harmless(before, n) && after == []
       case _ => n > 0 && Harmless(before, n - 1) && Ending(before[n - 1]) == Some(verdict)
  }

  lemma HarmlessOn(a: seq<Turn>, b: seq<Turn>, n: nat)
    requires |b| <= |a| && a[|a| - |b|..] == b && n <= |b| && Harmless(a, |a| - |b|) && Harmless(b, n)
    ensures Harmless(a, |a| - |b| + n)
  {
    var m := |a| - |b|;
    forall i | m <= i < m + n ensures Ending(a[i]).None? { assert a[i] == b[i - m]; }
  }

  lemma ExplainsOn(a: seq<Turn>, b: seq<Turn>, c: seq<Turn>, verdict: Verdict)
    requires Explains(a, b, Done) && Explains(b, c, verdict)
    ensures Explains(a, c, verdict)
  {
    var m, n := |a| - |b|, |b| - |c|;
    assert a[m + n..] == b[n..];
    if verdict == Done || verdict == Cut {
      HarmlessOn(a, b, n);
    } else {
      HarmlessOn(a, b, n - 1);
      assert b[n - 1] == a[m + n - 1];
    }
  }

  /** One more turn used. */
  lemma ExplainsNext(before: seq<Turn>, now: seq<Turn>)
    requires Explains(before, now, Done) && now != []
    ensures Ending(now[0]).None? ==> Explains(before, now[1..], Done)
    ensures Ending(now[0]).Some? ==> Explains(before, now[1..], Ending(now[0]).value)
  {
    var n := |before| - |now|;
    assert before[n] == now[0] && before[n + 1..] == now[1..];
  }

  class Connection {
    var sent: bytes          // bytes the socket accepted, in order
    var turns: seq<Turn>     // what the system does next

    constructor (turns: seq<Turn>)
      ensures sent == [] && this.turns == turns
    {
      sent, this.turns := [], turns;
    }

    /** `write_socket_all`: at most 64 KiB at a time, until all is sent or an error ends it. */
    method WriteAll(data: bytes) returns (verdict: Verdict, ghost written: nat)
      modifies this
      ensures written <= |data| && sent == old(sent) + data[..written]
      ensures verdict == Done <==> written == |data|
      ensures Explains(old(turns), turns, verdict)
    {
      var left := data;
      written := 0;
      while |left| > 0
        invariant written <= |data| && left == data[written..]
        invariant sent == old(sent) + data[..written]
        invariant Explains(old(turns), turns, Done)
        decreases |turns|
      {
        if turns == [] { return Cut, written; }
        ExplainsNext(old(turns), turns);
        var turn := turns[0];
        turns := turns[1..];
        match turn {
          case Stopped => return Broken, written;
          case Dead => return Broken, written;
          case Interrupted =>
          case Blocked(gone, stalled) =>
            if gone { return Gone, written; }
            if stalled { return TimedOut, written; }
          case Sent(count) =>
            if count == 0 { return Broken, written; }
            var most := if |left| < 0x10000 then |left| else 0x10000;
            var n := if count < most then count else most;
            sent := sent + left[..n];
            left := left[n..];
            assert data[..written] + data[written..written + n] == data[..written + n];
            written := written + n;
        }
      }
      verdict := Done;
    }

    /** The next piece of a text of which n bytes were sent since the socket had seen `base`. */
    method WritePiece(ghost base: bytes, ghost whole: bytes, ghost n: nat, piece: bytes, ghost since: seq<Turn>)
      returns (verdict: Verdict, ghost m: nat)
      requires n + |piece| <= |whole| && whole[n..n + |piece|] == piece && sent == base + whole[..n]
      requires Explains(since, turns, Done)
      modifies this
      ensures n <= m <= n + |piece| && sent == base + whole[..m]
      ensures verdict == Done <==> m == n + |piece|
      ensures Explains(since, turns, verdict)
    {
      ghost var was := turns;
      ghost var written;
      verdict, written := WriteAll(piece);
      ExplainsOn(since, was, turns, verdict);
      Extend(base, whole, n, piece, written);
      m := n + written;
    }

    /** `send_chunk`: head, data and line end; an empty block writes no data. */
    method SendChunk(data: bytes) returns (verdict: Verdict, ghost written: nat)
      modifies this
      ensures written <= |Chunk(data)| && sent == old(sent) + Chunk(data)[..written]
      ensures verdict == Done <==> written == |Chunk(data)|
      ensures Explains(old(turns), turns, verdict)
    {
      ghost var whole := Chunk(data);
      ghost var base, since := sent, turns;
      var head := ChunkHead(|data|);
      assert whole[..0] == [] && base + [] == base;
      verdict, written := WritePiece(base, whole, 0, head, since);
      if verdict != Done { return; }
      if |data| > 0 {
        verdict, written := WritePiece(base, whole, written, data, since);
        if verdict != Done { return; }
      }
      verdict, written := WritePiece(base, whole, written, CRLF, since);
    }

    /** The last chunk, written as one text. */
    method SendLast() returns (verdict: Verdict, ghost written: nat)
      modifies this
      ensures written <= |LAST_CHUNK| && sent == old(sent) + LAST_CHUNK[..written]
      ensures verdict == Done <==> written == |LAST_CHUNK|
      ensures Explains(old(turns), turns, verdict)
    {
      verdict, written := WriteAll(LAST_CHUNK);
    }
  }

  /** Writing a piece of `whole` that starts at n extends what was sent of it. */
  lemma Extend(before: bytes, whole: bytes, n: nat, piece: bytes, written: nat)
    requires n + |piece| <= |whole| && whole[n..n + |piece|] == piece && written <= |piece|
    ensures before + whole[..n] + piece[..written] == before + whole[..n + written]
  {
    assert whole[..n] + piece[..written] == whole[..n + written];
    Assoc(before, whole[..n], piece[..written]);
  }
}
