// The persistent video-codec cache: lookups with expiry, and the tab-separated
// state file it writes after every change and reads once at start.
module CodecCache {
  import opened Bytes
  import opened Numerals

  const INT64_MIN := -0x8000_0000_0000_0000
  const INT64_MAX := 0x7FFF_FFFF_FFFF_FFFF

  // Seconds of the system clock, far enough from the ends of time_t that adding a
  // time-to-live of int width cannot overflow.
  type Clock = t: int | -0x4000_0000_0000_0000 <= t <= 0x4000_0000_0000_0000
  type Ttl = t: int | -0x8000_0000 <= t <= 0x7FFF_FFFF
  type Time = t: int | INT64_MIN <= t <= INT64_MAX

  datatype Codec = H264 | H265
  datatype Entry = Entry(codec: Codec, expires: Time)
  type Items = map<bytes, Entry>

  const TAB: byte := 0x09
  const NEWLINE: byte := 0x0A
  const MINUS: byte := 0x2D

  // ------------------------------------------------------------ cache keys

  datatype Channel = Channel(ip: bytes, port: nat, camera: nat, channelType: nat, stream: nat)

  function MakeKey(c: Channel): (key: bytes)
    ensures key != []
  {
    c.ip + [NEWLINE] + Rendered(c.port, 10) + [NEWLINE] + Rendered(c.camera, 10) + [NEWLINE] +
    Rendered(c.channelType, 10) + [NEWLINE] + Rendered(c.stream, 10)
  }

  lemma LastFieldIsUnique(a: bytes, x: bytes, b: bytes, y: bytes)
    requires NEWLINE !in x && NEWLINE !in y
    requires a + [NEWLINE] + x == b + [NEWLINE] + y
    ensures a == b && x == y
  {
    var s := a + [NEWLINE] + x;
    assert s[|a|] == NEWLINE && s[|b|] == NEWLINE;
    assert forall i | |a| < i < |s| :: s[i] == x[i - |a| - 1] && s[i] in x;
    assert forall i | |b| < i < |s| :: s[i] == y[i - |b| - 1] && s[i] in y;
    assert |a| == |b|;
    SameSplit(a, x, b, y);
  }

  lemma SameSplit(a: bytes, x: bytes, b: bytes, y: bytes)
    requires |a| == |b| && a + [NEWLINE] + x == b + [NEWLINE] + y
    ensures a == b && x == y
  {
    assert a == (a + [NEWLINE] + x)[..|a|] && b == (b + [NEWLINE] + y)[..|b|];
    assert x == (a + [NEWLINE] + x)[|a| + 1..] && y == (b + [NEWLINE] + y)[|b| + 1..];
  }

  /** Two channels share a key only if they agree in every field, even if the address contains line breaks. */
  lemma KeysAreIsolated(c: Channel, d: Channel)
    requires MakeKey(c) == MakeKey(d)
    ensures c == d
  {
    var c1 := c.ip + [NEWLINE] + Rendered(c.port, 10);
    var d1 := d.ip + [NEWLINE] + Rendered(d.port, 10);
    var c2 := c1 + [NEWLINE] + Rendered(c.camera, 10);
    var d2 := d1 + [NEWLINE] + Rendered(d.camera, 10);
    var c3 := c2 + [NEWLINE] + Rendered(c.channelType, 10);
    var d3 := d2 + [NEWLINE] + Rendered(d.channelType, 10);
    LastFieldIsUnique(c3, Rendered(c.stream, 10), d3, Rendered(d.stream, 10));
    LastFieldIsUnique(c2, Rendered(c.channelType, 10), d2, Rendered(d.channelType, 10));
    LastFieldIsUnique(c1, Rendered(c.camera, 10), d1, Rendered(d.camera, 10));
    LastFieldIsUnique(c.ip, Rendered(c.port, 10), d.ip, Rendered(d.port, 10));
    RenderedIsInjective(c.stream, d.stream, 10);
    RenderedIsInjective(c.channelType, d.channelType, 10);
    RenderedIsInjective(c.camera, d.camera, 10);
    RenderedIsInjective(c.port, d.port, 10);
  }

  // ----------------------------------------------------- fields of a line

  function HexEncoded(s: bytes): bytes {
    if s == [] then [] else [LowerHex(s[0] / 16), LowerHex(s[0] % 16)] + HexEncoded(s[1..])
  }

  function HexDecoded(s: bytes): Option<bytes>
    decreases |s|
  {
    if s == [] then Some([])
    else if |s| == 1 || !IsHexDigit(s[0]) || !IsHexDigit(s[1]) then None
    else match HexDecoded(s[2..])
      case None => None
      case Some(rest) => Some([16 * HexValue(s[0]) + HexValue(s[1])] + rest)
  }

  lemma {:induction false} HexRoundTrip(s: bytes)
    ensures HexDecoded(HexEncoded(s)) == Some(s)
    ensures NEWLINE !in HexEncoded(s)
    ensures s != [] ==> HexEncoded(s) != []
  {
    if s != [] {
      HexRoundTrip(s[1..]);
      assert HexEncoded(s)[2..] == HexEncoded(s[1..]);
      assert s == [s[0]] + s[1..];
    }
  }

  function TimeText(t: Time): bytes {
    if t < 0 then [MINUS] + Rendered(-(t as int), 10) else Rendered(t, 10)
  }

  /** The longest run of decimal digits that `s` starts with. */
  function DigitRun(s: bytes): (n: nat)
    ensures n <= |s|
    ensures forall i | 0 <= i < n :: IsDecimalDigit(s[i])
    ensures n < |s| ==> !IsDecimalDigit(s[n])
  {
    if s == [] || !IsDecimalDigit(s[0]) then 0 else 1 + DigitRun(s[1..])
  }

  function SkipSpaces(s: bytes): bytes {
    if s != [] && (s[0] == 0x20 || 0x09 <= s[0] <= 0x0D) then SkipSpaces(s[1..]) else s
  }

  /** std::stoll: spaces, an optional sign, digits; anything after them is ignored; None is an exception. */
  function ParseTime(text: bytes): Option<Time> {
    var s := SkipSpaces(text);
    var signed := s != [] && (s[0] == MINUS || s[0] == 0x2B);
    var digits := if signed then s[1..] else s;
    var n := DigitRun(digits);
    if n == 0 then None
    else
      var magnitude := Value(digits[..n], 10);
      var v: int := if signed && s[0] == MINUS then -(magnitude as int) else magnitude as int;
      if INT64_MIN <= v <= INT64_MAX then Some(v) else None
  }

  lemma DigitRunOfRendered(n: nat)
    ensures var s := Rendered(n, 10); DigitRun(s) == |s| && Value(s[..DigitRun(s)], 10) == n
    ensures SkipSpaces(Rendered(n, 10)) == Rendered(n, 10)
    ensures Rendered(n, 10)[0] != MINUS && Rendered(n, 10)[0] != 0x2B
  {
    var s := Rendered(n, 10);
    assert forall i | 0 <= i < |s| :: s[i] in s;
    assert s[0] in s;
    assert DigitRun(s) == |s|;
    assert s[..|s|] == s;
    ValueOfRendered(n, 10);
  }

  lemma TimeRoundTrip(t: Time)
    ensures ParseTime(TimeText(t)) == Some(t)
    ensures TAB !in TimeText(t) && NEWLINE !in TimeText(t)
  {
    var n: nat := if t < 0 then -(t as int) else t;
    var s := TimeText(t);
    DigitRunOfRendered(n);
    if t < 0 {
      assert s[1..] == Rendered(n, 10);
      assert SkipSpaces(s) == s;
    }
  }

  function CodecText(c: Codec): bytes {
    [0x68, 0x32, 0x36, if c == H264 then 0x34 else 0x35]
  }

  function ParseCodec(s: bytes): Option<Codec> {
    if s == [0x68, 0x32, 0x36, 0x34] then Some(H264)
    else if s == [0x68, 0x32, 0x36, 0x35] then Some(H265)
    else None
  }

  function Line(key: bytes, entry: Entry): bytes {
    TimeText(entry.expires) + [TAB] + (CodecText(entry.codec) + [TAB] + HexEncoded(key))
  }

  lemma CodecRoundTrip(c: Codec)
    ensures ParseCodec(CodecText(c)) == Some(c)
    ensures TAB !in CodecText(c) && NEWLINE !in CodecText(c)
  {
  }

  /** One line of the file: three tab-separated fields, the last one not empty. */
  function ParseLine(line: bytes): Option<(bytes, Entry)> {
    var a := Find(line, TAB);
    if a == |line| then None
    else
      var tail := line[a + 1..];
      var b := Find(tail, TAB);
      if b == |tail| || b + 1 == |tail| then None
      else match (ParseTime(line[..a]), HexDecoded(tail[b + 1..]), ParseCodec(tail[..b]))
        case (Some(expires), Some(key), Some(codec)) => Some((key, Entry(codec, expires)))
        case _ => None
  }

  lemma SplitAtTab(a: bytes, rest: bytes)
    requires TAB !in a
    ensures var s := a + [TAB] + rest; Find(s, TAB) == |a| && s[..|a|] == a && s[|a| + 1..] == rest
  {
    FindAfter(a, TAB, rest);
  }

  lemma ParseFields(time: bytes, codec: bytes, hex: bytes, key: bytes, entry: Entry)
    requires TAB !in time && TAB !in codec && hex != []
    requires ParseTime(time) == Some(entry.expires) && ParseCodec(codec) == Some(entry.codec)
    requires HexDecoded(hex) == Some(key)
    requires NEWLINE !in time && NEWLINE !in codec && NEWLINE !in hex
    ensures var line := time + [TAB] + (codec + [TAB] + hex);
            ParseLine(line) == Some((key, entry)) && NEWLINE !in line
  {
    SplitAtTab(time, codec + [TAB] + hex);
    SplitAtTab(codec, hex);
  }

  lemma LineRoundTrip(key: bytes, entry: Entry)
    requires key != []
    ensures ParseLine(Line(key, entry)) == Some((key, entry))
    ensures NEWLINE !in Line(key, entry)
  {
    TimeRoundTrip(entry.expires);
    CodecRoundTrip(entry.codec);
    HexRoundTrip(key);
    ParseFields(TimeText(entry.expires), CodecText(entry.codec), HexEncoded(key), key, entry);
  }

  // ------------------------------------------------------------- the file

  function WithLine(items: Items, line: bytes, now: Clock): Items {
    match ParseLine(line)
    case None => items
    case Some((key, entry)) => if entry.expires <= now then items else items[key := entry]
  }

  /** A line of the file, byte by byte: the time in decimal, the codec by name, the key in hexadecimal. */
  lemma LineOnDisk()
    ensures Line([0x61, 0x0A], Entry(H265, 90)) ==
            [0x39, 0x30, 0x09, 0x68, 0x32, 0x36, 0x35, 0x09, 0x36, 0x31, 0x30, 0x61]
    ensures CodecText(H264) == [0x68, 0x32, 0x36, 0x34]
  {
    assert Rendered(9, 10) == [0x39] && Rendered(90, 10) == [0x39, 0x30];
    assert [0x61, 0x0A][1..] == [0x0A] && [0x0A][1..] == [];
    assert HexEncoded([0x0A]) == [0x30, 0x61] && HexEncoded([0x61, 0x0A]) == [0x36, 0x31, 0x30, 0x61];
  }

  /** `load`: every line on top of `items`, dropping what has expired at `now`. */
  function Loaded(items: Items, s: bytes, now: Clock): Items
    decreases |s|
  {
    if s == [] then items
    else
      var e := Find(s, NEWLINE);
      var next := WithLine(items, s[..e], now);
      if e == |s| then next else Loaded(next, s[e + 1..], now)
  }

  predicate EndsInNewline(s: bytes) { s == [] || s[|s| - 1] == NEWLINE }

  lemma LoadedNext(items: Items, s: bytes, e: nat, now: Clock)
    requires e < |s| && s[e] == NEWLINE && NEWLINE !in s[..e]
    ensures Find(s, NEWLINE) == e
    ensures Loaded(items, s, now) == Loaded(WithLine(items, s[..e], now), s[e + 1..], now)
  {
    assert forall i | 0 <= i < e :: s[i] == s[..e][i];
  }

  lemma FirstLineEnd(a: bytes) returns (e: nat)
    requires a != [] && EndsInNewline(a)
    ensures e < |a| && a[e] == NEWLINE && NEWLINE !in a[..e] && EndsInNewline(a[e + 1..])
  {
    e := 0;
    while a[e] != NEWLINE
      invariant e < |a| && NEWLINE !in a[..e]
      decreases |a| - e
    {
      e := e + 1;
    }
    if e + 1 < |a| { assert a[e + 1..][|a| - e - 2] == a[|a| - 1]; }
  }

  lemma {:induction false} LoadedConcat(items: Items, a: bytes, b: bytes, now: Clock)
    requires EndsInNewline(a)
    ensures Loaded(items, a + b, now) == Loaded(Loaded(items, a, now), b, now)
    decreases |a|
  {
    if a == [] {
      assert a + b == b;
    } else {
      var e := FirstLineEnd(a);
      var line, later := a[..e], a[e + 1..];
      assert (a + b)[..e] == line && (a + b)[e + 1..] == later + b;
      LoadedNext(items, a, e, now);
      LoadedNext(items, a + b, e, now);
      LoadedConcat(WithLine(items, line, now), later, b, now);
    }
  }

  /** The entries still valid at `now`, among the given keys. */
  function Live(items: Items, keys: set<bytes>, now: Clock): Items {
    map k | k in keys && k in items && items[k].expires > now :: items[k]
  }

  lemma LoadedLine(items: Items, line: bytes, now: Clock)
    requires NEWLINE !in line
    ensures Loaded(items, line + [NEWLINE], now) == WithLine(items, line, now)
  {
    var s := line + [NEWLINE];
    FindAfter(line, NEWLINE, []);
    assert s + [] == s;
    assert s[..|line|] == line && s[|line| + 1..] == [];
  }

  lemma AppendLine(items: Items, done: set<bytes>, key: bytes, content: bytes, now: Clock)
    requires key in items && key !in done && key != [] && EndsInNewline(content)
    requires Loaded(map[], content, now) == Live(items, done, now)
    ensures Loaded(map[], content + (Line(key, items[key]) + [NEWLINE]), now) == Live(items, done + {key}, now)
  {
    var line := Line(key, items[key]);
    LineRoundTrip(key, items[key]);
    LoadedConcat(map[], content, line + [NEWLINE], now);
    LoadedLine(Live(items, done, now), line, now);
  }

  // ------------------------------------------------------------ the cache

  datatype WriteResult = Written | Unopened | Lost

  /** Loading `content` at any time from `now` on recovers exactly what is then valid in `items`. */
  ghost predicate Saves(content: bytes, items: Items, now: Clock) {
    forall t: Clock | t >= now :: Loaded(map[], content, t) == Live(items, items.Keys, t)
  }

  function Content(file: Option<bytes>): bytes {
    if file.Some? then file.value else []
  }

  /** What a lookup answers. */
  function Answer(ttl: Ttl, items: Items, key: bytes, now: Clock): Option<Codec> {
    if ttl > 0 && key in items && items[key].expires > now then Some(items[key].codec) else None
  }

  class VideoCodecCache {
    const ttl: Ttl
    const hasFile: bool
    var items: Items
    var file: Option<bytes>   // the state file on disk

    predicate Valid()
      reads this
    {
      [] !in items
    }

    /** The file is good for a restart at any time from `now` on. */
    ghost predicate Synced(now: Clock)
      reads this
    {
      ttl > 0 ==> Saves(Content(file), items, now)
    }

    constructor (ttl: Ttl, hasFile: bool, file: Option<bytes>, now: Clock)
      ensures this.ttl == ttl && this.hasFile == hasFile && this.file == file
      ensures items == if ttl > 0 && hasFile then Loaded(map[], Content(file), now) else map[]
    {
      this.ttl, this.hasFile, this.file := ttl, hasFile, file;
      items := if ttl <= 0 || !hasFile || file.None? then map[] else Loaded(map[], file.value, now);
    }

    /** `persist_locked`. The written order of the entries is arbitrary. */
    method Persist(now: Clock, outcome: WriteResult)
      requires Valid()
      modifies this`file
      ensures ttl > 0 && hasFile && outcome == Written ==> Saves(Content(file), items, now)
      ensures ttl <= 0 || !hasFile || outcome == Unopened ==> file == old(file)
      ensures ttl > 0 && hasFile && outcome == Lost ==> file == None
    {
      if ttl <= 0 || !hasFile || outcome == Unopened { return; }
      var output: bytes := [];
      var todo := items.Keys;
      while todo != {}
        invariant todo <= items.Keys
        invariant EndsInNewline(output)
        invariant forall t: Clock | t >= now :: Loaded(map[], output, t) == Live(items, items.Keys - todo, t)
        decreases todo
      {
        var key :| key in todo;
        ghost var done := items.Keys - todo;
        ghost var before := output;
        if items[key].expires > now {
          output := output + (Line(key, items[key]) + [NEWLINE]);
        }
        todo := todo - {key};
        assert items.Keys - todo == done + {key};
        forall t: Clock | t >= now
          ensures Loaded(map[], output, t) == Live(items, done + {key}, t)
        {
          assert Loaded(map[], before, t) == Live(items, done, t);
          if items[key].expires > now { AppendLine(items, done, key, before, t); }
        }
      }
      assert items.Keys - todo == items.Keys;
      file := if outcome == Lost then None else Some(output);
    }

    method TryGet(key: bytes, now: Clock, outcome: WriteResult) returns (codec: Option<Codec>)
      requires Valid()
      modifies this
      ensures Valid()
      ensures codec == Answer(ttl, old(items), key, now)
      ensures codec == if ttl > 0 && key in old(items) && now < old(items)[key].expires then Some(old(items)[key].codec)
                       else None
      ensures items == if ttl > 0 && key in old(items) && old(items)[key].expires <= now then old(items) - {key}
                       else old(items)
      ensures Live(items, items.Keys, now) == Live(old(items), old(items).Keys, now)
      ensures old(Synced(now)) && hasFile && outcome == Written ==> Synced(now)
    {
      if ttl <= 0 || key !in items { return None; }
      if items[key].expires <= now {
        items := items - {key};
        Persist(now, outcome);
        return None;
      }
      codec := Some(items[key].codec);
    }

    method Set(key: bytes, codec: Codec, now: Clock, outcome: WriteResult)
      requires Valid() && key != []
      modifies this
      ensures Valid()
      ensures items == if ttl > 0 then old(items)[key := Entry(codec, now + ttl)] else old(items)
      ensures hasFile && outcome == Written ==> Synced(now)
    {
      if ttl <= 0 { return; }
      items := items[key := Entry(codec, now + ttl)];
      Persist(now, outcome);
    }
  }

  // ------------------------------------------------- restart transparency

  lemma LiveLater(a: Items, b: Items, now: Clock, later: Clock)
    requires now <= later
    requires Live(a, a.Keys, now) == Live(b, b.Keys, now)
    ensures Live(a, a.Keys, later) == Live(b, b.Keys, later)
  {
    var x, y := Live(a, a.Keys, now), Live(b, b.Keys, now);
    assert Live(a, a.Keys, later) == Live(x, x.Keys, later);
    assert Live(b, b.Keys, later) == Live(y, y.Keys, later);
  }

  /** Caches that agree on what is valid answer alike from then on. */
  lemma SameAnswers(ttl: Ttl, a: Items, b: Items, key: bytes, now: Clock)
    requires Live(a, a.Keys, now) == Live(b, b.Keys, now)
    ensures Answer(ttl, a, key, now) == Answer(ttl, b, key, now)
  {
    assert key in Live(a, a.Keys, now) <==> key in Live(b, b.Keys, now);
    if key in Live(a, a.Keys, now) { assert Live(a, a.Keys, now)[key] == Live(b, b.Keys, now)[key]; }
  }

  /** A cache reloaded at `now` from a file that saves `items` answers every later lookup as `items` would. */
  lemma RestartIsTransparent(ttl: Ttl, items: Items, content: bytes, key: bytes, saved: Clock, now: Clock, later: Clock)
    requires saved <= now <= later
    requires Saves(content, items, saved)
    ensures Answer(ttl, Loaded(map[], content, now), key, later) == Answer(ttl, items, key, later)
  {
    var reloaded := Loaded(map[], content, now);
    assert reloaded == Live(items, items.Keys, now);
    assert Live(reloaded, reloaded.Keys, now) == Live(items, items.Keys, now);
    LiveLater(reloaded, items, now, later);
    SameAnswers(ttl, reloaded, items, key, later);
  }

  datatype Op = Lookup(key: bytes) | Store(key: bytes, codec: Codec) | Restart

  /** One step of a history: the clock reading and the operation. */
  datatype Timed = Timed(now: Clock, op: Op)

  predicate Ordered(history: seq<Timed>, start: Clock) {
    history == [] || (start <= history[0].now && Ordered(history[1..], history[0].now))
  }

  predicate KeysNonEmpty(history: seq<Timed>) {
    forall i | 0 <= i < |history| :: !history[i].op.Restart? ==> history[i].op.key != []
  }

  lemma {:induction false} OrderedAt(history: seq<Timed>, start: Clock, i: nat)
    requires Ordered(history, start) && i < |history|
    ensures (if i == 0 then start else history[i - 1].now) <= history[i].now
  {
    if i > 0 { OrderedAt(history[1..], history[0].now, i - 1); }
  }

  lemma LoadedKeys(content: bytes, items: Items, now: Clock)
    requires Saves(content, items, now) && [] !in items
    ensures [] !in Loaded(map[], content, now)
    ensures Live(Loaded(map[], content, now), Loaded(map[], content, now).Keys, now) == Live(items, items.Keys, now)
    ensures Saves(content, Loaded(map[], content, now), now)
  {
    var reloaded := Loaded(map[], content, now);
    assert reloaded == Live(items, items.Keys, now);
    assert Live(reloaded, reloaded.Keys, now) == Live(items, items.Keys, now);
    forall t: Clock | t >= now
      ensures Loaded(map[], content, t) == Live(reloaded, reloaded.Keys, t)
    {
      LiveLater(reloaded, items, now, t);
    }
  }

  /**
   * What one step means when restarts change nothing: the stored entries after it, and its answer if it is a lookup.
   */
  function Effect(ttl: Ttl, items: Items, step: Timed): (Items, seq<Option<Codec>>) {
    match step.op
    case Lookup(key) => (items, [Answer(ttl, items, key, step.now)])
    case Store(key, codec) => (if ttl > 0 then items[key := Entry(codec, step.now + ttl)] else items, [])
    case Restart => (items, [])
  }

  /** What a history answers when restarts change nothing and only time makes entries disappear. */
  function Answers(ttl: Ttl, items: Items, history: seq<Timed>): seq<Option<Codec>>
    decreases |history|
  {
    if history == [] then []
    else
      var (next, out) := Effect(ttl, items, history[0]);
      out + Answers(ttl, next, history[1..])
  }

  // What a history answers, in terms of its own stores and lookups.

  /** Step i is the last store of the key before step n. */
  predicate LastStore(history: seq<Timed>, n: nat, key: bytes, i: nat) {
    && i < n <= |history| && history[i].op.Store? && history[i].op.key == key
    && forall j | i < j < n :: !(history[j].op.Store? && history[j].op.key == key)
  }

  ghost predicate HasStore(history: seq<Timed>, n: nat, key: bytes) {
    exists i | 0 <= i < n :: LastStore(history, n, key, i)
  }

  function Lookups(history: seq<Timed>): nat {
    if history == [] then 0 else (if history[0].op.Lookup? then 1 else 0) + Lookups(history[1..])
  }

  /** The lookup at step n finds codec c: it was stored last, and less than the time to live ago. */
  ghost predicate Finds(ttl: Ttl, history: seq<Timed>, n: nat, c: Codec)
    requires n < |history| && history[n].op.Lookup?
  {
    ttl > 0 && exists i | 0 <= i < n :: LastStore(history, n, history[n].op.key, i) &&
                                        history[i].op.codec == c && history[n].now < history[i].now + ttl
  }

  /** The answer to the lookup at step n is the codec it finds, or none. */
  ghost predicate AnsweredRightly(ttl: Ttl, history: seq<Timed>, answers: seq<Option<Codec>>, n: nat)
    requires n < |history| && history[n].op.Lookup?
  {
    var k := Lookups(history[..n]);
    k < |answers| && forall c :: answers[k] == Some(c) <==> Finds(ttl, history, n, c)
  }

  function ItemsAfter(ttl: Ttl, items: Items, history: seq<Timed>): Items
    decreases |history|
  {
    if history == [] then items else ItemsAfter(ttl, Effect(ttl, items, history[0]).0, history[1..])
  }

  lemma {:induction false} ItemsOneMore(ttl: Ttl, items: Items, history: seq<Timed>, step: Timed)
    ensures ItemsAfter(ttl, items, history + [step]) == Effect(ttl, ItemsAfter(ttl, items, history), step).0
    decreases |history|
  {
    if history == [] {
      assert [] + [step] == [step] && [step][1..] == [];
    } else {
      assert (history + [step])[1..] == history[1..] + [step];
      ItemsOneMore(ttl, Effect(ttl, items, history[0]).0, history[1..], step);
    }
  }

  lemma {:induction false} AnswersConcat(ttl: Ttl, items: Items, a: seq<Timed>, b: seq<Timed>)
    ensures Answers(ttl, items, a + b) == Answers(ttl, items, a) + Answers(ttl, ItemsAfter(ttl, items, a), b)
    ensures |Answers(ttl, items, a)| == Lookups(a)
    decreases |a|
  {
    if a == [] {
      assert [] + b == b;
      assert [] + Answers(ttl, items, b) == Answers(ttl, items, b);
    } else {
      var (next, out) := Effect(ttl, items, a[0]);
      assert (a + b)[1..] == a[1..] + b && (a + b)[0] == a[0];
      AnswersConcat(ttl, next, a[1..], b);
      Assoc(out, Answers(ttl, next, a[1..]), Answers(ttl, ItemsAfter(ttl, next, a[1..]), b));
    }
  }

  /** What is in the cache is what was stored last, with its time of expiry. */
  lemma {:induction false} HeldIsLastStored(ttl: Ttl, history: seq<Timed>, n: nat, key: bytes)
    requires n <= |history|
    ensures var items := ItemsAfter(ttl, map[], history[..n]);
            && (key in items <==> ttl > 0 && HasStore(history, n, key))
            && (ttl > 0 ==> forall i | 0 <= i < n && LastStore(history, n, key, i) ::
                  key in items && items[key] == Entry(history[i].op.codec, history[i].now + ttl))
  {
    if n > 0 {
      var step := history[n - 1];
      HeldIsLastStored(ttl, history, n - 1, key);
      assert history[..n] == history[..n - 1] + [step];
      ItemsOneMore(ttl, map[], history[..n - 1], step);
      LastStoreOneMore(history, n, key);
    }
  }

  lemma LastStoreOneMore(history: seq<Timed>, n: nat, key: bytes)
    requires 0 < n <= |history|
    ensures var step := history[n - 1];
            if step.op.Store? && step.op.key == key then
              LastStore(history, n, key, n - 1) && forall i | 0 <= i < n - 1 :: !LastStore(history, n, key, i)
            else
              && !LastStore(history, n, key, n - 1)
              && (forall i | 0 <= i < n - 1 :: LastStore(history, n, key, i) <==> LastStore(history, n - 1, key, i))
              && (HasStore(history, n, key) <==> HasStore(history, n - 1, key))
  {
    if HasStore(history, n - 1, key) {
      var i :| 0 <= i < n - 1 && LastStore(history, n - 1, key, i);
      assert n - 1 > i && (LastStore(history, n, key, i) || LastStore(history, n, key, n - 1));
    }
    if HasStore(history, n, key) {
      var i :| 0 <= i < n && LastStore(history, n, key, i);
      assert i < n - 1 ==> LastStore(history, n - 1, key, i);
    }
  }

  /** Every lookup of a history answers what was stored last for its key, as long as it lives, and nothing else. */
  lemma AnswersMean(ttl: Ttl, history: seq<Timed>, n: nat, c: Codec)
    requires n < |history| && history[n].op.Lookup?
    ensures Lookups(history[..n]) < |Answers(ttl, map[], history)|
    ensures Answers(ttl, map[], history)[Lookups(history[..n])] == Some(c) <==> Finds(ttl, history, n, c)
  {
    var key := history[n].op.key;
    var items := ItemsAfter(ttl, map[], history[..n]);
    assert history == history[..n] + history[n..];
    AnswersConcat(ttl, map[], history[..n], history[n..]);
    assert Answers(ttl, items, history[n..])[0] == Answer(ttl, items, key, history[n].now);
    HeldIsLastStored(ttl, history, n, key);
    if key in items {
      var i :| 0 <= i < n && LastStore(history, n, key, i);
      assert items[key] == Entry(history[i].op.codec, history[i].now + ttl);
      assert forall j | 0 <= j < n && LastStore(history, n, key, j) :: j == i;
    }
  }

  lemma AnswersFrom(ttl: Ttl, items: Items, history: seq<Timed>, i: nat, done: seq<Option<Codec>>)
    requires i < |history|
    ensures var (next, out) := Effect(ttl, items, history[i]);
            done + Answers(ttl, items, history[i..]) == done + out + Answers(ttl, next, history[i + 1..])
  {
    var (next, out) := Effect(ttl, items, history[i]);
    assert history[i..][1..] == history[i + 1..];
    assert done + (out + Answers(ttl, next, history[i + 1..])) == done + out + Answers(ttl, next, history[i + 1..]);
  }

  /** A cache that may have been restarted has the same valid entries as `items`, in memory and on disk. */
  ghost predicate Alike(a: VideoCodecCache, items: Items, now: Clock)
    reads a
  {
    && a.hasFile && a.Valid() && a.Synced(now)
    && Live(a.items, a.items.Keys, now) == Live(items, items.Keys, now)
    && (a.ttl <= 0 ==> a.items == map[] && items == map[])
  }

  method ApplyLookup(a: VideoCodecCache, ghost items: Items, key: bytes, now: Clock) returns (x: Option<Codec>)
    requires Alike(a, items, now)
    modifies a
    ensures Alike(a, items, now) && x == Answer(a.ttl, items, key, now)
  {
    SameAnswers(a.ttl, a.items, items, key, now);
    x := a.TryGet(key, now, Written);
  }

  method ApplyStore(a: VideoCodecCache, ghost items: Items, key: bytes, codec: Codec, now: Clock)
    requires Alike(a, items, now) && key != []
    modifies a
    ensures Alike(a, Effect(a.ttl, items, Timed(now, Store(key, codec))).0, now)
  {
    StoreAgrees(a.items, items, key, Entry(codec, now + a.ttl), now);
    a.Set(key, codec, now, Written);
  }

  method ApplyRestart(a: VideoCodecCache, ghost items: Items, now: Clock) returns (next: VideoCodecCache)
    requires Alike(a, items, now)
    ensures fresh(next) && next.ttl == a.ttl && Alike(next, items, now)
  {
    if a.ttl > 0 { LoadedKeys(Content(a.file), a.items, now); }
    next := new VideoCodecCache(a.ttl, true, a.file, now);
  }

  /** One step of a history on a real cache; a restart builds a new one from the file. */
  method Apply(a: VideoCodecCache, ghost items: Items, ghost before: Clock, step: Timed)
    returns (next: VideoCodecCache, answers: seq<Option<Codec>>)
    requires Alike(a, items, before) && before <= step.now
    requires !step.op.Restart? ==> step.op.key != []
    modifies a
    ensures (next == a || fresh(next)) && next.ttl == a.ttl
    ensures Alike(next, Effect(a.ttl, items, step).0, step.now) && answers == Effect(a.ttl, items, step).1
  {
    LiveLater(a.items, items, before, step.now);
    next, answers := a, [];
    match step.op {
      case Lookup(key) =>
        var x := ApplyLookup(a, items, key, step.now);
        answers := [x];
      case Store(key, codec) => ApplyStore(a, items, key, codec, step.now);
      case Restart => next := ApplyRestart(a, items, step.now);
    }
  }

  /** Restart transparency: a fresh file cache answers every history as if it had never been restarted. */
  method RunHistory(ttl: Ttl, history: seq<Timed>, start: Clock) returns (answers: seq<Option<Codec>>)
    requires Ordered(history, start) && KeysNonEmpty(history)
    ensures answers == Answers(ttl, map[], history)
    ensures |answers| == Lookups(history)
    ensures forall n | 0 <= n < |history| && history[n].op.Lookup? :: AnsweredRightly(ttl, history, answers, n)
  {
    answers := [];
    var cache := new VideoCodecCache(ttl, true, None, start);
    ghost var now, items: Items := start, map[];
    assert history[0..] == history;
    for i := 0 to |history|
      invariant fresh(cache) && cache.ttl == ttl && Alike(cache, items, now)
      invariant now == if i == 0 then start else history[i - 1].now
      invariant answers + Answers(ttl, items, history[i..]) == Answers(ttl, map[], history)
    {
      OrderedAt(history, start, i);
      AnswersFrom(ttl, items, history, i, answers);
      var more;
      cache, more := Apply(cache, items, now, history[i]);
      answers := answers + more;
      items, now := Effect(ttl, items, history[i]).0, history[i].now;
    }
    assert history[|history|..] == [] && answers + [] == answers;
    AnswersMeanAll(ttl, history);
  }

  lemma AnswersMeanAll(ttl: Ttl, history: seq<Timed>)
    ensures var answers := Answers(ttl, map[], history);
            && |answers| == Lookups(history)
            && forall n | 0 <= n < |history| && history[n].op.Lookup? :: AnsweredRightly(ttl, history, answers, n)
  {
    AnswersConcat(ttl, map[], history, []);
    forall n | 0 <= n < |history| && history[n].op.Lookup?
      ensures AnsweredRightly(ttl, history, Answers(ttl, map[], history), n)
    {
      AnswersMean(ttl, history, n, H264);
      forall c
        ensures Answers(ttl, map[], history)[Lookups(history[..n])] == Some(c) <==> Finds(ttl, history, n, c)
      {
        AnswersMean(ttl, history, n, c);
      }
    }
  }

  lemma LiveStore(items: Items, key: bytes, entry: Entry, now: Clock)
    ensures var stored := items[key := entry];
            Live(stored, stored.Keys, now) ==
            if entry.expires > now then Live(items, items.Keys, now)[key := entry]
            else Live(items, items.Keys, now) - {key}
  {
  }

  lemma StoreAgrees(a: Items, b: Items, key: bytes, entry: Entry, now: Clock)
    requires Live(a, a.Keys, now) == Live(b, b.Keys, now)
    ensures Live(a[key := entry], a[key := entry].Keys, now) == Live(b[key := entry], b[key := entry].Keys, now)
  {
    LiveStore(a, key, entry, now);
    LiveStore(b, key, entry, now);
  }
}
