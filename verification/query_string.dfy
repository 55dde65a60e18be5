// Query-string parsing of the HTTP server against the serializer that browsers
// use for it (application/x-www-form-urlencoded, WHATWG URL Standard, section 5.2).
module QueryString {
  import opened Bytes
  import opened Numerals

  type Query = map<bytes, bytes>

  const PLUS: byte := 0x2B
  const PERCENT: byte := 0x25
  const AMPERSAND: byte := 0x26
  const EQUALS: byte := 0x3D
  const BLANK: byte := 0x20

  // ------------------------------------------------------------- decoding

  predicate StartsEscape(s: bytes) {
    |s| > 2 && s[0] == PERCENT && IsHexDigit(s[1]) && IsHexDigit(s[2])
  }

  function Decoded(s: bytes): bytes {
    if s == [] then []
    else if s[0] == PLUS then [BLANK] + Decoded(s[1..])
    else if StartsEscape(s) then [16 * HexValue(s[1]) + HexValue(s[2])] + Decoded(s[3..])
    else [s[0]] + Decoded(s[1..])
  }

  /** How many input bytes the next output byte takes, and which byte it is. */
  function Step(s: bytes): (r: (nat, byte))
    requires s != []
    ensures 1 <= r.0 <= |s|
    ensures Decoded(s) == [r.1] + Decoded(s[r.0..])
  {
    if s[0] == PLUS then (1, BLANK)
    else if StartsEscape(s) then (3, 16 * HexValue(s[1]) + HexValue(s[2]))
    else (1, s[0])
  }

  lemma DecodedFrom(value: bytes, i: nat, done: bytes)
    requires i < |value|
    ensures var (n, b) := Step(value[i..]);
            i + n <= |value| && done + Decoded(value[i..]) == done + [b] + Decoded(value[i + n..])
  {
    var (n, b) := Step(value[i..]);
    assert value[i..][n..] == value[i + n..];
    assert done + ([b] + Decoded(value[i + n..])) == done + [b] + Decoded(value[i + n..]);
  }

  method UrlDecode(value: bytes) returns (result: bytes)
    ensures result == Decoded(value)
  {
    result := [];
    var i := 0;
    while i < |value|
      invariant 0 <= i <= |value|
      invariant result + Decoded(value[i..]) == Decoded(value)
    {
      DecodedFrom(value, i, result);
      assert value[i..][0] == value[i] && |value[i..]| == |value| - i;
      assert i + 2 < |value| ==> value[i..][1] == value[i + 1] && value[i..][2] == value[i + 2];
      if value[i] == PLUS {
        result := result + [BLANK];
      } else if value[i] == PERCENT && i + 2 < |value| && IsHexDigit(value[i + 1]) && IsHexDigit(value[i + 2]) {
        result := result + [16 * HexValue(value[i + 1]) + HexValue(value[i + 2])];
        i := i + 2;
      } else {
        result := result + [value[i]];
      }
      i := i + 1;
    }
  }

  /** The escapes by example, in front of any text: two hexadecimal digits of either case. */
  lemma EscapesMean(rest: bytes)
    ensures Decoded(Ascii("%2F") + rest) == Ascii("/") + Decoded(rest)
    ensures Decoded(Ascii("%e9") + rest) == [0xE9] + Decoded(rest)
  {
    HexAhead(Ascii("%2F"), rest);
    HexAhead(Ascii("%e9"), rest);
  }

  /** A plus is a blank, and a percent sign that starts no escape stays. */
  lemma OthersMean(rest: bytes)
    ensures Decoded(Ascii("+") + rest) == Ascii(" ") + Decoded(rest)
    ensures Decoded(Ascii("%g9") + rest) == Ascii("%") + Decoded(Ascii("g9") + rest)
  {
    Ahead(Ascii("+"), rest);
    assert Ascii("%g9") + rest == Ascii("%") + (Ascii("g9") + rest);
    Ahead(Ascii("%"), Ascii("g9") + rest);
  }

  lemma HexAhead(escape: bytes, rest: bytes)
    requires |escape| == 3 && StartsEscape(escape)
    ensures Decoded(escape + rest) == [16 * HexValue(escape[1]) + HexValue(escape[2])] + Decoded(rest)
  {
    Ahead(escape, rest);
  }

  /** One piece of a text, followed by the rest of it. */
  lemma Ahead(piece: bytes, rest: bytes)
    requires piece != [] && Step(piece + rest).0 == |piece|
    ensures Decoded(piece + rest) == [Step(piece + rest).1] + Decoded(rest)
  {
    assert (piece + rest)[|piece|..] == rest;
  }

  function KeyOf(part: bytes): bytes {
    Decoded(part[..Find(part, EQUALS)])
  }

  function ValueOf(part: bytes): bytes {
    var e := Find(part, EQUALS);
    if e == |part| then [] else Decoded(part[e + 1..])
  }

  /** Assigns every `&`-separated part of the text, in order, on top of `query`. */
  function Assigned(query: Query, text: bytes): Query
    decreases |text|
  {
    var end := Find(text, AMPERSAND);
    var part := text[..end];
    var next := query[KeyOf(part) := ValueOf(part)];
    if end == |text| then next else Assigned(next, text[end + 1..])
  }

  method AssignPart(query: Query, part: bytes) returns (next: Query)
    ensures next == query[KeyOf(part) := ValueOf(part)]
  {
    var equals := Find(part, EQUALS);
    var key := UrlDecode(part[..equals]);
    var value: bytes := [];
    if equals < |part| { value := UrlDecode(part[equals + 1..]); }
    next := query[key := value];
  }

  method ParseQuery(text: bytes) returns (query: Query)
    ensures query == Assigned(map[], text)
  {
    query := map[];
    ghost var goal := Assigned(query, text);
    var start := 0;
    assert text[0..] == text;
    while start <= |text|
      invariant 0 <= start <= |text|
      invariant Assigned(query, text[start..]) == goal
      decreases |text| - start
    {
      var tail := text[start..];
      var end := Find(tail, AMPERSAND);
      query := AssignPart(query, tail[..end]);
      if end == |tail| { break; }
      start := start + end + 1;
      assert tail[end + 1..] == text[start..];
    }
  }

  // ---------------------------------------------------------- serializing

  type Pair = (bytes, bytes)

  /** The bytes a form serializer leaves alone: alphanumerics and * - . _ */
  predicate IsUnreserved(b: byte) {
    0x30 <= b <= 0x39 || 0x41 <= b <= 0x5A || 0x61 <= b <= 0x7A || b == 0x2A || b == 0x2D || b == 0x2E || b == 0x5F
  }

  function EncodedByte(b: byte): bytes {
    if b == BLANK then [PLUS]
    else if IsUnreserved(b) then [b]
    else [PERCENT, UpperHex(b / 16), UpperHex(b % 16)]
  }

  function Encoded(s: bytes): bytes {
    if s == [] then [] else EncodedByte(s[0]) + Encoded(s[1..])
  }

  function Field(pair: Pair): bytes {
    Encoded(pair.0) + [EQUALS] + Encoded(pair.1)
  }

  function Serialized(pairs: seq<Pair>): bytes {
    if pairs == [] then []
    else if |pairs| == 1 then Field(pairs[0])
    else Field(pairs[0]) + [AMPERSAND] + Serialized(pairs[1..])
  }

  /** The map a list of pairs means when a later pair wins over an earlier one with the same key. */
  function Meaning(query: Query, pairs: seq<Pair>): Query
    decreases |pairs|
  {
    if pairs == [] then query else Meaning(query[pairs[0].0 := pairs[0].1], pairs[1..])
  }

  // ---------------------------------------------------------- round trips

  lemma DecodeEncodedByte(b: byte, rest: bytes)
    ensures Decoded(EncodedByte(b) + rest) == [b] + Decoded(rest)
  {
    var s := EncodedByte(b) + rest;
    if b == BLANK || IsUnreserved(b) {
      assert s[1..] == rest;
    } else {
      assert s[3..] == rest;
      assert HexValue(UpperHex(b / 16)) == b / 16 && HexValue(UpperHex(b % 16)) == b % 16;
      assert StartsEscape(s);
    }
  }

  lemma {:induction false} DecodeEncoded(s: bytes)
    ensures Decoded(Encoded(s)) == s
  {
    if s != [] {
      DecodeEncodedByte(s[0], Encoded(s[1..]));
      DecodeEncoded(s[1..]);
      assert s == [s[0]] + s[1..];
    }
  }

  lemma {:induction false} EncodedHasNoSeparator(s: bytes)
    ensures AMPERSAND !in Encoded(s) && EQUALS !in Encoded(s)
  {
    if s != [] { EncodedHasNoSeparator(s[1..]); }
  }

  lemma FieldParts(pair: Pair)
    ensures AMPERSAND !in Field(pair)
    ensures KeyOf(Field(pair)) == pair.0 && ValueOf(Field(pair)) == pair.1
  {
    var (key, value) := pair;
    EncodedHasNoSeparator(key);
    EncodedHasNoSeparator(value);
    FindAfter(Encoded(key), EQUALS, Encoded(value));
    var f := Field(pair);
    assert f[..|Encoded(key)|] == Encoded(key) && f[|Encoded(key)| + 1..] == Encoded(value);
    DecodeEncoded(key);
    DecodeEncoded(value);
  }

  /** Parsing a serialized list, on top of any earlier assignments. */
  lemma {:induction false} ParseSerialized(query: Query, pairs: seq<Pair>)
    requires pairs != []
    ensures Assigned(query, Serialized(pairs)) == Meaning(query, pairs)
    decreases |pairs|
  {
    var f := Field(pairs[0]);
    FieldParts(pairs[0]);
    var next := query[pairs[0].0 := pairs[0].1];
    if |pairs| == 1 {
      FindAfter(f, AMPERSAND, []);
      assert f[..|f|] == f;
      assert pairs[1..] == [];
    } else {
      var rest := Serialized(pairs[1..]);
      FindAfter(f, AMPERSAND, rest);
      var text := Serialized(pairs);
      assert text[..|f|] == f && text[|f| + 1..] == rest;
      ParseSerialized(next, pairs[1..]);
    }
  }

  /** The parser recovers what a list means exactly when the list is not empty. */
  lemma QueryRoundTrip(pairs: seq<Pair>)
    ensures Assigned(map[], Serialized(pairs)) == Meaning(map[], pairs) <==> pairs != []
  {
    if pairs == [] {
      assert [] in Assigned(map[], []);
    } else {
      ParseSerialized(map[], pairs);
    }
  }

  predicate DistinctKeys(pairs: seq<Pair>) {
    forall i, j | 0 <= i < j < |pairs| :: pairs[i].0 != pairs[j].0
  }

  /** With distinct keys the meaning is exactly the listed associations. */
  lemma {:induction false} MeaningOfDistinct(query: Query, pairs: seq<Pair>)
    requires DistinctKeys(pairs)
    ensures Meaning(query, pairs).Keys == query.Keys + (set i | 0 <= i < |pairs| :: pairs[i].0)
    ensures forall i | 0 <= i < |pairs| :: Meaning(query, pairs)[pairs[i].0] == pairs[i].1
    ensures forall k | k in query && (forall i | 0 <= i < |pairs| :: pairs[i].0 != k) ::
              Meaning(query, pairs)[k] == query[k]
    decreases |pairs|
  {
    if pairs != [] {
      var (k0, v0) := pairs[0];
      var rest := pairs[1..];
      var next := query[k0 := v0];
      MeaningOfDistinct(next, rest);
      assert forall i | 0 <= i < |rest| :: rest[i] == pairs[i + 1];
      assert forall i | 0 < i < |pairs| :: pairs[i] == rest[i - 1];
      assert Meaning(query, pairs)[k0] == v0;
    }
  }

  /** Parsing the serialization of a non-empty list with distinct keys yields exactly that map. */
  lemma QueryOfDistinctPairs(pairs: seq<Pair>)
    requires pairs != [] && DistinctKeys(pairs)
    ensures var q := Assigned(map[], Serialized(pairs));
            && q.Keys == (set i | 0 <= i < |pairs| :: pairs[i].0)
            && forall i | 0 <= i < |pairs| :: q[pairs[i].0] == pairs[i].1
  {
    ParseSerialized(map[], pairs);
    MeaningOfDistinct(map[], pairs);
  }
}
