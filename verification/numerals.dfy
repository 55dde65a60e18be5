// Decimal and hexadecimal text, as the bridge's stream insertions write it and
// its parsers read it back.
module Numerals {
  import opened Bytes

  predicate IsHexDigit(b: byte) {
    0x30 <= b <= 0x39 || 0x41 <= b <= 0x46 || 0x61 <= b <= 0x66
  }

  predicate IsDecimalDigit(b: byte) {
    0x30 <= b <= 0x39
  }

  function HexValue(b: byte): (v: nat)
    requires IsHexDigit(b)
    ensures v < 16
    ensures IsDecimalDigit(b) ==> v == b - 0x30
  {
    if b <= 0x39 then b - 0x30 else if b <= 0x46 then b - 0x41 + 10 else b - 0x61 + 10
  }

  function LowerHex(n: nat): (b: byte)
    requires n < 16
    ensures IsHexDigit(b) && HexValue(b) == n
    ensures n < 10 ==> IsDecimalDigit(b)
  {
    if n < 10 then 0x30 + n else 0x61 + n - 10
  }

  function UpperHex(n: nat): (b: byte)
    requires n < 16
    ensures IsHexDigit(b) && HexValue(b) == n
  {
    if n < 10 then 0x30 + n else 0x41 + n - 10
  }

  /** The digits of `n`, most significant first, without leading zeros. */
  function Rendered(n: nat, base: nat): (s: bytes)
    requires base == 10 || base == 16
    ensures s != []
    ensures forall b | b in s :: IsHexDigit(b) && (base == 10 ==> IsDecimalDigit(b))
    decreases n
  {
    if n < base then [LowerHex(n)] else Rendered(n / base, base) + [LowerHex(n % base)]
  }

  predicate AreDigits(s: bytes, base: nat) {
    forall b | b in s :: IsHexDigit(b) && (base == 10 ==> IsDecimalDigit(b))
  }

  /** The number that a run of digits denotes. */
  function Value(s: bytes, base: nat): nat
    requires base == 10 || base == 16
    requires AreDigits(s, base)
  {
    if s == [] then 0 else Value(s[..|s| - 1], base) * base + HexValue(s[|s| - 1])
  }

  lemma {:induction false} ValueOfRendered(n: nat, base: nat)
    requires base == 10 || base == 16
    ensures Value(Rendered(n, base), base) == n
    decreases n
  {
    var s := Rendered(n, base);
    if n < base {
      assert s[..0] == [];
    } else {
      ValueOfRendered(n / base, base);
      assert s[..|s| - 1] == Rendered(n / base, base);
    }
  }

  /** Different numbers have different digits. */
  lemma RenderedIsInjective(m: nat, n: nat, base: nat)
    requires base == 10 || base == 16
    requires Rendered(m, base) == Rendered(n, base)
    ensures m == n
  {
    ValueOfRendered(m, base);
    ValueOfRendered(n, base);
  }

  /** Index of the first `b` in `s`, or the length of `s`. */
  function Find(s: bytes, b: byte): (n: nat)
    ensures n <= |s|
    ensures n < |s| ==> s[n] == b
    ensures forall i | 0 <= i < n :: s[i] != b
  {
    if s == [] || s[0] == b then 0 else 1 + Find(s[1..], b)
  }

  lemma FindAfter(a: bytes, b: byte, rest: bytes)
    requires b !in a
    ensures Find(a + [b] + rest, b) == |a|
    ensures Find(a, b) == |a|
  {
    var s := a + [b] + rest;
    assert s[|a|] == b;
    assert forall i | 0 <= i < |a| :: s[i] == a[i] && a[i] in a;
  }
}
