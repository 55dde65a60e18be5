// Bytes, concatenation and small facts about sequences and maps that several
// modules share.
module Bytes {

  type byte = b: int | 0 <= b < 256
  type bytes = seq<byte>

  datatype Option<+T> = None | Some(value: T)

  predicate IsAscii(s: string) {
    forall i | 0 <= i < |s| :: s[i] as int < 128
  }

  /** The bytes of a text. */
  function Ascii(s: string): (b: bytes)
    requires IsAscii(s)
    ensures |b| == |s|
    ensures forall i | 0 <= i < |s| :: b[i] == s[i] as int
  {
    if s == [] then [] else [s[0] as int] + Ascii(s[1..])
  }

  /** The concatenation of the parts, in order. */
  function Join<T>(parts: seq<seq<T>>): seq<T> {
    if parts == [] then [] else parts[0] + Join(parts[1..])
  }

  lemma Assoc<T>(a: seq<T>, b: seq<T>, c: seq<T>)
    ensures a + (b + c) == a + b + c
  {
  }

  lemma {:induction false} JoinConcat<T>(a: seq<seq<T>>, b: seq<seq<T>>)
    ensures Join(a + b) == Join(a) + Join(b)
  {
    if a == [] {
      assert a + b == b;
    } else {
      assert (a + b)[1..] == a[1..] + b;
      JoinConcat(a[1..], b);
    }
  }

  lemma Rejoin<T>(s: seq<T>, n: nat, parts: seq<seq<T>>, rest: seq<T>)
    requires n <= |s| && Join(parts) + rest == s[n..]
    ensures Join([s[..n]] + parts) + rest == s
  {
    assert ([s[..n]] + parts)[1..] == parts;
    assert s[..n] + Join(parts) + rest == s[..n] + (Join(parts) + rest);
    assert s[..n] + s[n..] == s;
  }

  lemma JoinSnoc<T>(a: seq<seq<T>>, x: seq<T>)
    ensures Join(a + [x]) == Join(a) + x
  {
    JoinConcat(a, [x]);
    assert Join([x]) == x;
  }

  // ------------------------------------------------------- sizes of maps

  lemma SizeWith<K, V>(m: map<K, V>, key: K, value: V)
    ensures |m[key := value]| == |m| + if key in m then 0 else 1
  {
    var next := m[key := value];
    assert next.Keys == m.Keys + {key};
    assert |m| == |m.Keys| && |next| == |next.Keys|;
    if key in m { assert next.Keys == m.Keys; }
  }

  lemma SizeWithout<K, V>(m: map<K, V>, key: K)
    ensures |m - {key}| == |m| - if key in m then 1 else 0
  {
    assert (m - {key}).Keys == m.Keys - {key};
    assert |m| == |m.Keys| && |m - {key}| == |(m - {key}).Keys|;
  }
}
