// What the splitter does in terms of the bytes on the wire: boxes written with
// big-endian sizes and four letters each (section 4.2 of ISO/IEC 14496-12), cut
// into any chunks, come out as the segments that the letters describe.
module WrittenBoxes {
  import opened Bytes
  import opened BoxSplitter

  /** Four letters and a payload; a wide box has a 64-bit size. */
  datatype Box = Box(letters: string, payload: bytes, wide: bool)

  predicate Writable(b: Box) {
    |b.letters| == 4 && IsAscii(b.letters) && |b.payload| + 16 < 0x1_0000_0000
  }

  function BigEndian(n: nat): (b: bytes)
    requires n < 0x1_0000_0000
    ensures |b| == 4
  {
    [n / 0x100_0000, n / 0x1_0000 % 0x100, n / 0x100 % 0x100, n % 0x100]
  }

  function Header(b: Box): bytes
    requires Writable(b)
  {
    if b.wide then BigEndian(1) + Ascii(b.letters) + BigEndian(0) + BigEndian(16 + |b.payload|)
    else BigEndian(8 + |b.payload|) + Ascii(b.letters)
  }

  function Written(b: Box): bytes
    requires Writable(b)
  {
    Header(b) + b.payload
  }

  ghost predicate AllWritable(boxes: seq<Box>) {
    forall i | 0 <= i < |boxes| :: Writable(boxes[i])
  }

  function EachWritten(boxes: seq<Box>): (parts: seq<bytes>)
    requires AllWritable(boxes)
    ensures |parts| == |boxes|
    ensures forall i | 0 <= i < |boxes| :: parts[i] == Written(boxes[i])
  {
    if boxes == [] then [] else [Written(boxes[0])] + EachWritten(boxes[1..])
  }

  /**
   * The segments that the rest of a stream yields, when these parts of an initialization segment and of
   * a media segment are waiting.
   */
  function Described(boxes: seq<Box>, init: seq<bytes>, media: Option<seq<bytes>>): seq<bytes>
    requires AllWritable(boxes)
  {
    if boxes == [] then []
    else
      var box, later := Written(boxes[0]), boxes[1..];
      match boxes[0].letters
      case "ftyp" => Described(later, init + [box], media)
      case "moov" => [Join(init + [box])] + Described(later, [], media)
      case "styp" => Described(later, init, Some([box]))
      case "moof" => Described(later, init, Some([box]))
      case "mdat" =>
        if media.Some? then [Join(media.value + [box])] + Described(later, init, None) else Described(later, init, None)
      case _ => Described(later, init, if media.Some? then Some(media.value + [box]) else None)
  }

  lemma BigEndianSum(n: nat)
    requires n < 0x1_0000_0000
    ensures var b := BigEndian(n);
            b[0] as int * 0x100_0000 + b[1] as int * 0x1_0000 + b[2] as int * 0x100 + b[3] as int == n
  {
    var high := n / 0x1_0000;
    assert n / 0x100_0000 == high / 0x100;
    assert n == high * 0x1_0000 + n % 0x1_0000;
    assert n / 0x100 % 0x100 == n % 0x1_0000 / 0x100;
  }

  lemma BigEndianIsRead(n: nat, before: bytes, after: bytes)
    requires n < 0x1_0000_0000
    ensures U32(before + BigEndian(n) + after, |before|) == n
  {
    var s, b, o := before + BigEndian(n) + after, BigEndian(n), |before|;
    BigEndianSum(n);
    assert s[o] == b[0] && s[o + 1] == b[1] && s[o + 2] == b[2] && s[o + 3] == b[3];
  }

  lemma WrittenIsBox(b: Box)
    requires Writable(b)
    ensures IsBox(Written(b))
  {
    if b.wide { WideLayout(b); } else { ShortLayout(b); }
  }

  lemma ShortLayout(b: Box)
    requires Writable(b) && !b.wide
    ensures |Written(b)| == 8 + |b.payload| && U32(Written(b), 0) == 8 + |b.payload|
  {
    var n, letters := 8 + |b.payload|, Ascii(b.letters);
    BigEndianIsRead(n, [], letters + b.payload);
    assert Written(b) == [] + BigEndian(n) + (letters + b.payload);
  }

  function WideHeader(letters: bytes, high: nat, low: nat): bytes
    requires high < 0x1_0000_0000 && low < 0x1_0000_0000
  {
    BigEndian(1) + letters + BigEndian(high) + BigEndian(low)
  }

  lemma WideFirst(letters: bytes, high: nat, low: nat, rest: bytes)
    requires high < 0x1_0000_0000 && low < 0x1_0000_0000
    ensures U32(WideHeader(letters, high, low) + rest, 0) == 1
  {
    var later := letters + BigEndian(high) + BigEndian(low) + rest;
    BigEndianIsRead(1, [], later);
    assert WideHeader(letters, high, low) + rest == [] + BigEndian(1) + later;
  }

  lemma WideHigh(letters: bytes, high: nat, low: nat, rest: bytes)
    requires high < 0x1_0000_0000 && low < 0x1_0000_0000 && |letters| == 4
    ensures U32(WideHeader(letters, high, low) + rest, 8) == high
  {
    var head := BigEndian(1) + letters;
    BigEndianIsRead(high, head, BigEndian(low) + rest);
    Assoc(head + BigEndian(high), BigEndian(low), rest);
  }

  lemma WideLow(letters: bytes, high: nat, low: nat, rest: bytes)
    requires high < 0x1_0000_0000 && low < 0x1_0000_0000 && |letters| == 4
    ensures U32(WideHeader(letters, high, low) + rest, 12) == low
  {
    BigEndianIsRead(low, BigEndian(1) + letters + BigEndian(high), rest);
  }

  lemma WideLayout(b: Box)
    requires Writable(b) && b.wide
    ensures var s := Written(b);
            |s| == 16 + |b.payload| && U32(s, 0) == 1 && U32(s, 8) == 0 && U32(s, 12) == 16 + |b.payload|
  {
    var letters, n := Ascii(b.letters), 16 + |b.payload|;
    WideFirst(letters, 0, n, b.payload);
    WideHigh(letters, 0, n, b.payload);
    WideLow(letters, 0, n, b.payload);
    assert Header(b) == WideHeader(letters, 0, n);
  }

  lemma LettersAt(b: Box)
    requires Writable(b)
    ensures |Written(b)| >= 8
    ensures forall i | 0 <= i < 4 :: Written(b)[4 + i] == b.letters[i] as int
  {
    var letters := Ascii(b.letters);
    var head := BigEndian(if b.wide then 1 else 8 + |b.payload|);
    assert Written(b)[..8] == head + letters;
    forall i | 0 <= i < 4
      ensures Written(b)[4 + i] == b.letters[i] as int
    {
      assert Written(b)[4 + i] == Written(b)[..8][4 + i] == letters[i];
    }
  }

  predicate Spells(box: bytes, a: char, b: char, c: char, d: char) {
    |box| >= 8 && box[4] == a as int && box[5] == b as int && box[6] == c as int && box[7] == d as int
  }

  /** The kinds of the splitter are the letters at offset 4. */
  lemma KindIsSpelled(box: bytes)
    ensures KindOf(box) == Ftyp <==> Spells(box, 'f', 't', 'y', 'p')
    ensures KindOf(box) == Moov <==> Spells(box, 'm', 'o', 'o', 'v')
    ensures KindOf(box) == Styp <==> Spells(box, 's', 't', 'y', 'p')
    ensures KindOf(box) == Moof <==> Spells(box, 'm', 'o', 'o', 'f')
    ensures KindOf(box) == Mdat <==> Spells(box, 'm', 'd', 'a', 't')
  {
  }

  lemma SpelledLetters(b: Box, word: string)
    requires Writable(b) && |word| == 4
    ensures Spells(Written(b), word[0], word[1], word[2], word[3]) <==> b.letters == word
  {
    LettersAt(b);
    assert b.letters == [b.letters[0], b.letters[1], b.letters[2], b.letters[3]];
    assert word == [word[0], word[1], word[2], word[3]];
    assert Written(b)[4 + 0] == b.letters[0] as int && Written(b)[4 + 1] == b.letters[1] as int;
    assert Written(b)[4 + 2] == b.letters[2] as int && Written(b)[4 + 3] == b.letters[3] as int;
  }

  lemma LettersDecide(b: Box)
    requires Writable(b)
    ensures KindOf(Written(b)) ==
            match b.letters
            case "ftyp" => Ftyp
            case "moov" => Moov
            case "styp" => Styp
            case "moof" => Moof
            case "mdat" => Mdat
            case _ => Kind.Other
  {
    KindIsSpelled(Written(b));
    SpelledLetters(b, "ftyp");
    SpelledLetters(b, "moov");
    SpelledLetters(b, "styp");
    SpelledLetters(b, "moof");
    SpelledLetters(b, "mdat");
  }

  /** One box placed is one box described. */
  lemma GroupIsDescribed(boxes: seq<Box>, g: Grouping)
    requires boxes != [] && AllWritable(boxes)
    ensures var next := Group(g, Written(boxes[0]));
            g.out + Described(boxes, g.init, g.fragment) ==
            next.out + Described(boxes[1..], next.init, next.fragment)
  {
    var box := Written(boxes[0]);
    var next := Group(g, box);
    LettersDecide(boxes[0]);
    match KindOf(box) {
      case Moov => Assoc(g.out, [Join(g.init + [box])], Described(boxes[1..], next.init, next.fragment));
      case Mdat =>
        if g.fragment.Some? {
          Assoc(g.out, [Join(g.fragment.value + [box])], Described(boxes[1..], next.init, next.fragment));
        }
      case _ =>
    }
  }

  lemma {:induction false} GroupAllIsDescribed(boxes: seq<Box>, g: Grouping)
    requires AllWritable(boxes)
    ensures GroupAll(g, EachWritten(boxes)).out == g.out + Described(boxes, g.init, g.fragment)
    decreases boxes
  {
    if boxes == [] {
      assert g.out + [] == g.out;
    } else {
      GroupIsDescribed(boxes, g);
      GroupAllIsDescribed(boxes[1..], Group(g, Written(boxes[0])));
      assert EachWritten(boxes)[1..] == EachWritten(boxes[1..]);
    }
  }

  lemma ParseWritten(boxes: seq<Box>)
    requires AllWritable(boxes)
    ensures Parse(Join(EachWritten(boxes))) == Parsed(EachWritten(boxes), [], false)
  {
    forall i | 0 <= i < |boxes|
      ensures IsBox(EachWritten(boxes)[i])
    {
      WrittenIsBox(boxes[i]);
    }
    ParseIsTheOnlyCut(EachWritten(boxes), []);
    assert Join(EachWritten(boxes)) + [] == Join(EachWritten(boxes));
  }

  /** Boxes in any chunks: the segments are those that the letters describe, and no byte is left or refused. */
  method PlayBoxes(player: Player, boxes: seq<Box>, events: seq<Event>) returns (threw: bool)
    requires AllWritable(boxes) && Payload(events) == Join(EachWritten(boxes))
    requires player.parserBuffer == [] && player.Grouped() == EMPTY
    modifies player
    ensures !threw && player.parserBuffer == []
    ensures player.appended + player.pending == Described(boxes, [], None)
    ensures ChancesAtEnd(events) >= |Described(boxes, [], None)| ==> player.appended == Described(boxes, [], None)
  {
    ParseWritten(boxes);
    GroupAllIsDescribed(boxes, EMPTY);
    SegmentsOfStream(Payload(events));
    assert [] + Described(boxes, [], None) == Described(boxes, [], None);
    threw := player.Play(events);
  }

  function Plain(letters: string, payload: bytes): Box {
    Box(letters, payload, false)
  }

  lemma ShortBox(letters: string, payload: bytes, box: bytes)
    requires |letters| == 4 && IsAscii(letters) && |payload| < 100
    requires |box| == 8 + |payload| && box[8..] == payload
    requires box[0] == box[1] == box[2] == 0 && box[3] == 8 + |payload|
    requires forall i | 0 <= i < 4 :: box[4 + i] == letters[i] as int
    ensures Writable(Plain(letters, payload)) && Written(Plain(letters, payload)) == box
  {
    var b := Plain(letters, payload);
    LettersAt(b);
    assert Written(b)[8..] == payload;
    forall i | 0 <= i < |box|
      ensures Written(b)[i] == box[i]
    {
      if i >= 8 {
        assert Written(b)[i] == Written(b)[8..][i - 8] && box[i] == box[8..][i - 8];
      } else if i >= 4 {
        assert Written(b)[4 + (i - 4)] == box[4 + (i - 4)];
      }
    }
  }

  lemma LiteralBox(letters: string, payload: bytes)
    requires |letters| == 4 && IsAscii(letters) && |payload| < 100
    ensures var head: bytes :=
              [0, 0, 0, 8 + |payload|, letters[0] as int, letters[1] as int, letters[2] as int, letters[3] as int];
            Writable(Plain(letters, payload)) && Written(Plain(letters, payload)) == head + payload
  {
    var head: bytes :=
      [0, 0, 0, 8 + |payload|, letters[0] as int, letters[1] as int, letters[2] as int, letters[3] as int];
    var box := head + payload;
    assert forall i | 0 <= i < 8 :: box[i] == head[i];
    ShortBox(letters, payload, box);
  }

  lemma DescribedCons(b: Box, later: seq<Box>, init: seq<bytes>, media: Option<seq<bytes>>)
    requires Writable(b) && AllWritable(later)
    ensures AllWritable([b] + later) && EachWritten([b] + later) == [Written(b)] + EachWritten(later)
    ensures b.letters == "ftyp" ==> Described([b] + later, init, media) == Described(later, init + [Written(b)], media)
    ensures b.letters == "moov" ==>
              Described([b] + later, init, media) == [Join(init + [Written(b)])] + Described(later, [], media)
    ensures b.letters == "moof" ==> Described([b] + later, init, media) == Described(later, init, Some([Written(b)]))
    ensures b.letters == "mdat" && media.Some? ==>
              Described([b] + later, init, media) == [Join(media.value + [Written(b)])] + Described(later, init, None)
  {
    assert ([b] + later)[1..] == later;
  }

  function Four(w: Box, x: Box, y: Box, z: Box): seq<Box> {
    [w] + ([x] + ([y] + ([z] + [])))
  }

  lemma FourJoined(w: Box, x: Box, y: Box, z: Box)
    requires Writable(w) && Writable(x) && Writable(y) && Writable(z)
    ensures AllWritable(Four(w, x, y, z))
    ensures Join(EachWritten(Four(w, x, y, z))) == Written(w) + Written(x) + Written(y) + Written(z)
  {
    assert EachWritten(Four(w, x, y, z)) == [Written(w), Written(x), Written(y), Written(z)];
    JoinOfFour(Written(w), Written(x), Written(y), Written(z));
  }

  lemma FourDescribed(w: Box, x: Box, y: Box, z: Box)
    requires Writable(w) && Writable(x) && Writable(y) && Writable(z) && AllWritable(Four(w, x, y, z))
    requires w.letters == "ftyp" && x.letters == "moov" && y.letters == "moof" && z.letters == "mdat"
    ensures Described(Four(w, x, y, z), [], None) == [Written(w) + Written(x), Written(y) + Written(z)]
  {
    DescribedCons(z, [], [], Some([Written(y)]));
    DescribedCons(y, [z] + [], [], None);
    DescribedCons(x, [y] + ([z] + []), [Written(w)], None);
    DescribedCons(w, [x] + ([y] + ([z] + [])), [], None);
    assert [] + [Written(w)] == [Written(w)];
    JoinOfTwo(Written(w), Written(x));
    JoinOfTwo(Written(y), Written(z));
  }

  lemma JoinOfTwo(a: bytes, b: bytes)
    ensures Join([a] + [b]) == a + b
  {
    JoinSnoc([a], b);
    JoinSnoc([], a);
    assert [] + [a] == [a] && [] + a == a;
  }

  lemma JoinOfFour(a: bytes, b: bytes, c: bytes, d: bytes)
    ensures Join([a, b, c, d]) == a + b + c + d
  {
    JoinOfTwo(a, b);
    assert [a] + [b] == [a, b] && [a, b] + [c] == [a, b, c] && [a, b, c] + [d] == [a, b, c, d];
    JoinSnoc([a, b], c);
    JoinSnoc([a, b, c], d);
  }

  /** The usual stream, byte by byte: one initialization segment, then one media segment. */
  lemma UsualStream(p: bytes, q: bytes, r: bytes, t: bytes)
    requires |p| < 100 && |q| < 100 && |r| < 100 && |t| < 100
    ensures var ftyp := [0, 0, 0, 8 + |p|, 0x66, 0x74, 0x79, 0x70] + p;
            var moov := [0, 0, 0, 8 + |q|, 0x6D, 0x6F, 0x6F, 0x76] + q;
            var moof := [0, 0, 0, 8 + |r|, 0x6D, 0x6F, 0x6F, 0x66] + r;
            var mdat := [0, 0, 0, 8 + |t|, 0x6D, 0x64, 0x61, 0x74] + t;
            SegmentsIn(ftyp + moov + moof + mdat) == [ftyp + moov, moof + mdat]
  {
    LiteralBox("ftyp", p);
    LiteralBox("moov", q);
    LiteralBox("moof", r);
    LiteralBox("mdat", t);
    var w, x, y, z := Plain("ftyp", p), Plain("moov", q), Plain("moof", r), Plain("mdat", t);
    FourJoined(w, x, y, z);
    FourDescribed(w, x, y, z);
    MeansDescribed(Four(w, x, y, z));
  }

  lemma MeansDescribed(boxes: seq<Box>)
    requires AllWritable(boxes)
    ensures SegmentsIn(Join(EachWritten(boxes))) == Described(boxes, [], None)
  {
    ParseWritten(boxes);
    GroupAllIsDescribed(boxes, EMPTY);
    SegmentsOfStream(Join(EachWritten(boxes)));
    assert [] + Described(boxes, [], None) == Described(boxes, [], None);
  }

  // --------------------------------------------------------- refused sizes

  /** The size fields 0 and 2 to 7 are refused at once, whatever follows. */
  lemma RefusedSizes(n: nat, letters: bytes, rest: bytes)
    requires n < 0x1_0000_0000 && n != 1 && |letters| == 4
    ensures var s := BigEndian(n) + letters + rest;
            (Parse(s).failed && Parse(s).boxes == [] <==> n < 8)
  {
    var s := BigEndian(n) + letters + rest;
    BigEndianIsRead(n, [], letters + rest);
    assert s == [] + BigEndian(n) + (letters + rest);
  }

  /** A 64-bit size is refused if its high half is not zero, or if it does not cover its own header. */
  lemma RefusedWideSizes(high: nat, low: nat, letters: bytes, rest: bytes)
    requires high < 0x1_0000_0000 && low < 0x1_0000_0000 && |letters| == 4
    ensures var s := BigEndian(1) + letters + BigEndian(high) + BigEndian(low) + rest;
            (Parse(s).failed && Parse(s).boxes == [] <==> high != 0 || low < 16)
  {
    var s := WideHeader(letters, high, low) + rest;
    WideFirst(letters, high, low, rest);
    WideHigh(letters, high, low, rest);
    WideLow(letters, high, low, rest);
  }
}
