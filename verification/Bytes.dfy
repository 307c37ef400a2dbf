/** Byte strings, big-endian numbers and UTF-8. */
module Bytes {
  type byte = n: int | 0 <= n < 256

  type Octets = seq<byte>

  /** The value of a big-endian number. */
  function BigEndian(d: Octets): nat {
    if d == [] then 0 else 256 * BigEndian(d[..|d| - 1]) + d[|d| - 1]
  }

  /** A number in `width` bytes, most significant first. */
  function ToBigEndian(n: nat, width: nat): (d: Octets)
    ensures |d| == width
  {
    if width == 0 then [] else ToBigEndian(n / 256, width - 1) + [n % 256]
  }

  function Power256(width: nat): nat {
    if width == 0 then 1 else 256 * Power256(width - 1)
  }

  lemma {:induction false} BigEndianRoundTrip(n: nat, width: nat)
    requires n < Power256(width)
    ensures BigEndian(ToBigEndian(n, width)) == n
  {
    if width > 0 {
      BigEndianRoundTrip(n / 256, width - 1);
      var d := ToBigEndian(n, width);
      assert d[..|d| - 1] == ToBigEndian(n / 256, width - 1);
    }
  }

  lemma Powers()
    ensures Power256(1) == 0x100 && Power256(2) == 0x1_0000 && Power256(4) == 0x1_0000_0000
    ensures Power256(8) == 0x1_0000_0000_0000_0000
  {
    assert Power256(3) == 0x100_0000;
    assert Power256(5) == 0x100_0000_0000;
    assert Power256(6) == 0x1_0000_0000_0000;
    assert Power256(7) == 0x100_0000_0000_0000;
  }

  predicate IsContinuation(d: Octets, i: nat) {
    i < |d| && 0x80 <= d[i] < 0xC0
  }

  /** The length of the UTF-8 sequence at the start, 0 if there is none (section 4 of RFC 3629). */
  function Utf8Step(d: Octets): (n: nat)
    ensures n <= |d|
  {
    if d == [] then 0
    else if d[0] < 0x80 then 1
    else if 0xC2 <= d[0] < 0xE0 then if IsContinuation(d, 1) then 2 else 0
    else if 0xE0 <= d[0] < 0xF0 then
      if IsContinuation(d, 1) && IsContinuation(d, 2)
         && (d[0] == 0xE0 ==> d[1] >= 0xA0) && (d[0] == 0xED ==> d[1] < 0xA0) then 3 else 0
    else if 0xF0 <= d[0] < 0xF5 then
      if IsContinuation(d, 1) && IsContinuation(d, 2) && IsContinuation(d, 3)
         && (d[0] == 0xF0 ==> d[1] >= 0x90) && (d[0] == 0xF4 ==> d[1] < 0x90) then 4 else 0
    else 0
  }

  /** `core::str::from_utf8` accepts the bytes. */
  predicate IsUtf8(d: Octets)
    decreases |d|
  {
    d == [] || (Utf8Step(d) > 0 && IsUtf8(d[Utf8Step(d)..]))
  }

  function CharByte(c: char): byte {
    if c as int < 256 then c as int else 0
  }

  /** The bytes of an ASCII literal. */
  function Ascii(s: string): (d: Octets)
    ensures |d| == |s|
  {
    seq(|s|, i requires 0 <= i < |s| => CharByte(s[i]))
  }

  lemma SliceOfTail(d: Octets, at: nat, from: nat, to: nat)
    requires at <= |d| && from <= to <= |d| - at
    ensures d[at..][from..to] == d[at + from..at + to]
  {
  }

  lemma TailOfTail(d: Octets, at: nat, from: nat)
    requires at <= |d| && from <= |d| - at
    ensures d[at..][from..] == d[at + from..]
  {
  }

  lemma PartOfConcat(a: Octets, b: Octets, c: Octets)
    ensures (a + (b + c))[|a|..|a| + |b|] == b
    ensures (a + (b + c))[|a| + |b|..] == c
  {
  }
}
