// The reader of FFmpeg's stderr: lines end at CR or LF, and the last 8192 bytes
// of all completed non-empty lines are kept for diagnostics.
module DiagnosticTail {
  import opened Bytes

  const LIMIT: nat := 8192
  const CR: byte := 0x0D
  const LF: byte := 0x0A

  predicate IsBreak(b: byte) { b == CR || b == LF }

  /** Index of the first line break at or after `i`, or the length of `s`. */
  function BreakFrom(s: bytes, i: nat): (n: nat)
    requires i <= |s|
    ensures i <= n <= |s|
    ensures n < |s| ==> IsBreak(s[n])
    decreases |s| - i
  {
    if i == |s| || IsBreak(s[i]) then i else BreakFrom(s, i + 1)
  }

  function FirstBreak(s: bytes): (n: nat)
    ensures n <= |s|
  {
    BreakFrom(s, 0)
  }

  /** The completed lines of `s`, without their breaks. */
  function Lines(s: bytes): seq<bytes>
    decreases |s|
  {
    var n := FirstBreak(s);
    if n == |s| then [] else [s[..n]] + Lines(s[n + 1..])
  }

  /** What follows the last break of `s`. */
  function Unfinished(s: bytes): bytes
    decreases |s|
  {
    var n := FirstBreak(s);
    if n == |s| then s else Unfinished(s[n + 1..])
  }

  /** Every non-empty line followed by a newline. */
  function Report(lines: seq<bytes>): bytes {
    if lines == [] then []
    else if lines[0] == [] then Report(lines[1..])
    else lines[0] + [LF] + Report(lines[1..])
  }

  function LastBytes(s: bytes): bytes {
    if |s| > LIMIT then s[|s| - LIMIT..] else s
  }

  /** The lines that are not empty, in order. */
  function NonEmpty(lines: seq<bytes>): seq<bytes> {
    if lines == [] then [] else (if lines[0] == [] then [] else [lines[0]]) + NonEmpty(lines[1..])
  }

  /** Read again as lines, a report is the non-empty lines it was made of, every one completed. */
  lemma {:induction false} ReportMeans(lines: seq<bytes>)
    requires forall line | line in lines :: HasNoBreak(line)
    ensures Lines(Report(lines)) == NonEmpty(lines) && Unfinished(Report(lines)) == []
    ensures |Report(lines)| > 0 ==> Report(lines)[|Report(lines)| - 1] == 0x0A
  {
    if lines != [] {
      ReportMeans(lines[1..]);
      if lines[0] != [] {
        LineAhead(lines[0], Report(lines[1..]));
        assert Report(lines) == lines[0] + [LF] + Report(lines[1..]);
      }
    }
  }

  lemma {:induction false} NoBreakAhead(line: bytes, rest: bytes, i: nat)
    requires HasNoBreak(line) && i <= |line|
    ensures BreakFrom(line + [LF] + rest, i) == |line|
    decreases |line| - i
  {
    if i < |line| {
      assert (line + [LF] + rest)[i] == line[i];
      NoBreakAhead(line, rest, i + 1);
    }
  }

  lemma LineAhead(line: bytes, rest: bytes)
    requires HasNoBreak(line)
    ensures Lines(line + [LF] + rest) == [line] + Lines(rest)
    ensures Unfinished(line + [LF] + rest) == Unfinished(rest)
  {
    NoBreakAhead(line, rest, 0);
    var s := line + [LF] + rest;
    assert s[..|line|] == line && s[|line| + 1..] == rest;
  }

  lemma LastBytesOfAppend(a: bytes, b: bytes)
    ensures LastBytes(LastBytes(a) + b) == LastBytes(a + b)
  {
  }

  lemma {:induction false} ReportConcat(a: seq<bytes>, b: seq<bytes>)
    ensures Report(a + b) == Report(a) + Report(b)
  {
    if a == [] {
      assert a + b == b;
    } else {
      assert (a + b)[1..] == a[1..] + b;
      ReportConcat(a[1..], b);
      Assoc(a[0] + [LF], Report(a[1..]), Report(b));
    }
  }

  lemma {:induction false} BreakFromAppend(a: bytes, b: bytes, i: nat)
    requires i <= |a| && BreakFrom(a, i) < |a|
    ensures BreakFrom(a + b, i) == BreakFrom(a, i)
    decreases |a| - i
  {
    assert (a + b)[i] == a[i];
    if !IsBreak(a[i]) { BreakFromAppend(a, b, i + 1); }
  }

  lemma {:induction false} NoBreakBefore(s: bytes, i: nat, k: nat)
    requires i <= |s| && i <= k < BreakFrom(s, i)
    ensures !IsBreak(s[k])
    decreases |s| - i
  {
    if i < k { NoBreakBefore(s, i + 1, k); }
  }

  predicate HasNoBreak(s: bytes) {
    forall k | 0 <= k < |s| :: s[k] != 0x0D && s[k] != 0x0A
  }

  lemma HeadHasNoBreak(s: bytes)
    ensures HasNoBreak(s[..FirstBreak(s)])
  {
    forall k | 0 <= k < FirstBreak(s)
      ensures !IsBreak(s[k])
    {
      NoBreakBefore(s, 0, k);
    }
  }

  /** The break that ends each completed line. */
  function Breaks(s: bytes): (breaks: bytes)
    ensures |breaks| == |Lines(s)|
    decreases |s|
  {
    var n := FirstBreak(s);
    if n == |s| then [] else [s[n]] + Breaks(s[n + 1..])
  }

  /** Lines with their breaks put back. */
  function Woven(lines: seq<bytes>, breaks: bytes): bytes
    requires |breaks| == |lines|
  {
    if lines == [] then [] else lines[0] + [breaks[0]] + Woven(lines[1..], breaks[1..])
  }

  lemma WovenSplit(line: bytes, end: byte, lines: seq<bytes>, breaks: bytes, rest: bytes)
    requires |breaks| == |lines|
    ensures Woven([line] + lines, [end] + breaks) + rest == line + [end] + (Woven(lines, breaks) + rest)
  {
    assert ([line] + lines)[1..] == lines && ([end] + breaks)[1..] == breaks;
    Assoc(line + [end], Woven(lines, breaks), rest);
  }

  lemma CutAt(s: bytes, n: nat)
    requires n < |s|
    ensures s == s[..n] + [s[n]] + s[n + 1..]
  {
  }

  /** With the breaks put back, lines and unfinished rest are the input. */
  lemma {:induction false} LinesLoseNothing(s: bytes)
    ensures Woven(Lines(s), Breaks(s)) + Unfinished(s) == s
    ensures forall b | b in Breaks(s) :: b == 0x0D || b == 0x0A
    decreases |s|
  {
    var n := FirstBreak(s);
    if n == |s| {
      assert [] + s == s;
    } else {
      var later := s[n + 1..];
      LinesLoseNothing(later);
      WovenSplit(s[..n], s[n], Lines(later), Breaks(later), Unfinished(later));
      CutAt(s, n);
    }
  }

  /** Neither a completed line nor the unfinished rest holds a CR or LF. */
  lemma {:induction false} LinesHaveNoBreak(s: bytes)
    ensures forall line | line in Lines(s) :: HasNoBreak(line)
    ensures HasNoBreak(Unfinished(s))
    decreases |s|
  {
    var n := FirstBreak(s);
    HeadHasNoBreak(s);
    if n == |s| {
      assert s[..n] == s;
    } else {
      LinesHaveNoBreak(s[n + 1..]);
      LinesSplit(s);
    }
  }

  lemma LinesSplit(s: bytes)
    requires FirstBreak(s) < |s|
    ensures Lines(s) == [s[..FirstBreak(s)]] + Lines(s[FirstBreak(s) + 1..])
    ensures Lines(s)[1..] == Lines(s[FirstBreak(s) + 1..]) && Unfinished(s) == Unfinished(s[FirstBreak(s) + 1..])
  {
  }

  /** What follows does not change where the first line ends. */
  lemma SplitAhead(a: bytes, b: bytes)
    requires FirstBreak(a) < |a|
    ensures var n := FirstBreak(a);
            Lines(a + b) == [a[..n]] + Lines(a[n + 1..] + b) && Unfinished(a + b) == Unfinished(a[n + 1..] + b)
  {
    var n := FirstBreak(a);
    BreakFromAppend(a, b, 0);
    assert (a + b)[..n] == a[..n] && (a + b)[n + 1..] == a[n + 1..] + b;
    LinesSplit(a + b);
  }

  /** Splitting into lines can be resumed from the unfinished line. */
  lemma {:induction false} LinesContinue(a: bytes, b: bytes)
    ensures Lines(a + b) == Lines(a) + Lines(Unfinished(a) + b)
    ensures Unfinished(a + b) == Unfinished(Unfinished(a) + b)
    decreases |a|
  {
    var n := FirstBreak(a);
    if n == |a| {
      assert [] + Lines(a + b) == Lines(a + b);
    } else {
      SplitAhead(a, b);
      LinesSplit(a);
      LinesContinue(a[n + 1..], b);
      Assoc([a[..n]], Lines(a[n + 1..]), Lines(Unfinished(a) + b));
    }
  }

  class Reader {
    var pending: bytes
    var tail: bytes

    constructor ()
      ensures HasRead([])
    {
      pending, tail := [], [];
    }

    /** The reader has been given `all`, in whatever pieces. */
    ghost predicate HasRead(all: bytes)
      reads this
    {
      pending == Unfinished(all) && tail == LastBytes(Report(Lines(all)))
    }

    /** A completed line: kept if it is not empty, and the tail cut to its limit. */
    method Keep(line: bytes)
      requires |tail| <= LIMIT
      modifies this`tail
      ensures tail == LastBytes(old(tail) + Report([line]))
    {
      if line != [] {
        assert Report([line]) == line + [LF];
        assert old(tail) + (line + [LF]) == old(tail) + line + [LF];
        tail := tail + line;
        tail := tail + [LF];
        if |tail| > LIMIT { tail := tail[|tail| - LIMIT..]; }
      } else {
        assert Report([line]) == [] && tail + [] == tail;
      }
    }

    /** One read: every line that `buffer` completes is kept, the rest waits. */
    method Feed(buffer: bytes, ghost all: bytes)
      requires HasRead(all)
      modifies this
      ensures HasRead(all + buffer)
    {
      LinesContinue(all, buffer);
      ghost var text := Report(Lines(all));
      pending := pending + buffer;
      ghost var start := pending;
      while FirstBreak(pending) < |pending|
        invariant tail == LastBytes(text)
        invariant text + Report(Lines(pending)) == Report(Lines(all)) + Report(Lines(start))
        invariant Unfinished(pending) == Unfinished(start)
        decreases |pending|
      {
        var end := FirstBreak(pending);
        var line := pending[..end];
        LinesSplit(pending);
        ReportOfNext(pending, line, Lines(pending[end + 1..]));
        Assoc(text, Report([line]), Report(Lines(pending[end + 1..])));
        LastBytesOfAppend(text, Report([line]));
        pending := pending[end + 1..];
        Keep(line);
        text := text + Report([line]);
      }
      ReportConcat(Lines(all), Lines(start));
      assert text + [] == text;
    }

    /** The whole stderr of a process, however it is cut into reads. */
    method ReadAll(pieces: seq<bytes>)
      requires HasRead([])
      modifies this
      ensures tail == LastBytes(Report(Lines(Join(pieces))))
      ensures var text := Report(Lines(Join(pieces)));
              |tail| == (if |text| <= 8192 then |text| else 8192) && tail == text[|text| - |tail|..]
    {
      for i := 0 to |pieces|
        invariant HasRead(Join(pieces[..i]))
      {
        JoinSnoc(pieces[..i], pieces[i]);
        assert pieces[..i + 1] == pieces[..i] + [pieces[i]];
        Feed(pieces[i], Join(pieces[..i]));
      }
      assert pieces[..|pieces|] == pieces;
    }
  }

  lemma ReportOfNext(s: bytes, line: bytes, later: seq<bytes>)
    requires Lines(s) == [line] + later
    ensures Report(Lines(s)) == Report([line]) + Report(later)
  {
    ReportConcat([line], later);
  }
}
