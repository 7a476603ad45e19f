/** Byte strings, shared by the file formats and the storage models. */
module Bytes {
  import opened Numbers

  type Byte = x: int | 0 <= x < 256

  function Zeros(n: nat): (z: seq<Byte>)
    ensures |z| == n && forall i :: 0 <= i < n ==> z[i] == 0
  {
    seq(n, i => 0)
  }

  // The zeros from n to the next multiple of four.
  function Pad4(n: nat): seq<Byte> { Zeros(Align4(n) - n) }

  // Without its trailing zeros.
  function StripNul(s: seq<Byte>): seq<Byte> {
    if s != [] && s[|s| - 1] == 0 then StripNul(s[..|s| - 1]) else s
  }

  // The C string in a buffer: the bytes before the first zero.
  function CString(buf: seq<Byte>): seq<Byte> {
    if buf == [] || buf[0] == 0 then [] else [buf[0]] + CString(buf[1..])
  }

  lemma {:induction false} CStringStops(s: seq<Byte>, rest: seq<Byte>)
    requires 0 !in s && (rest == [] || rest[0] == 0)
    ensures CString(s + rest) == s
  {
    if s == [] {
      assert s + rest == rest;
    } else {
      assert s == [s[0]] + s[1..];
      assert s[0] in s;
      CStringStops(s[1..], rest);
      assert (s + rest)[1..] == s[1..] + rest;
    }
  }

  /** Little-endian words. */

  const WORD := 0x1_0000_0000

  function Le32(n: nat): (b: seq<Byte>)
    requires n < WORD
    ensures |b| == 4
  {
    [n % 256, n / 256 % 256, n / 65536 % 256, n / 16777216]
  }

  function FromLe32(b: seq<Byte>): (n: nat)
    requires |b| == 4
    ensures n < WORD
  {
    var b0: int, b1: int, b2: int, b3: int := b[0], b[1], b[2], b[3];
    b0 + 256 * b1 + 65536 * b2 + 16777216 * b3
  }

  function WordAt(buf: seq<Byte>, off: nat): (n: nat)
    requires off + 4 <= |buf|
    ensures n < WORD
  {
    FromLe32(buf[off..off + 4])
  }

  lemma Le32Read(n: nat)
    requires n < WORD
    ensures FromLe32(Le32(n)) == n
  {
    assert n / 256 / 256 == n / 65536 && n / 65536 / 256 == n / 16777216;
  }

  // The lowest byte comes first.
  lemma LowestFirst()
    ensures Le32(0x12345678) == [0x78, 0x56, 0x34, 0x12] && FromLe32([0x78, 0x56, 0x34, 0x12]) == 0x12345678
  {
  }

  /** Data written over part of a string. */

  function Patch(s: seq<Byte>, at: nat, data: seq<Byte>): (p: seq<Byte>)
    requires at + |data| <= |s|
    ensures |p| == |s|
  {
    s[..at] + data + s[at + |data|..]
  }

  lemma PatchNothing(s: seq<Byte>, at: nat)
    requires at <= |s|
    ensures Patch(s, at, []) == s
  {
  }

  lemma PatchLast(s: seq<Byte>, at: nat, data: seq<Byte>)
    requires data != [] && at + |data| <= |s|
    ensures Patch(s, at, data) == Patch(s, at, data[..|data| - 1])[at + |data| - 1 := data[|data| - 1]]
  {
  }

  lemma PatchByte(s: seq<Byte>, at: nat, data: seq<Byte>, b: nat)
    requires at + |data| <= |s| && b < |s|
    ensures Patch(s, at, data)[b] == if at <= b < at + |data| then data[b - at] else s[b]
  {
  }

  // Copies data into memory.
  method CopyTo(memory: array<Byte>, at: nat, data: seq<Byte>)
    requires at + |data| <= memory.Length
    modifies memory
    ensures memory[..] == Patch(old(memory[..]), at, data)
  {
    forall k | 0 <= k < |data| {
      memory[at + k] := data[k];
    }
  }

  lemma SliceOfSlice(s: seq<Byte>, a: nat, n: nat, i: nat, j: nat)
    requires i <= j <= n && a + n <= |s|
    ensures s[a..a + n][i..j] == s[a + i..a + j]
  {
    var part, whole := s[a..a + n][i..j], s[a + i..a + j];
    forall k | 0 <= k < j - i ensures part[k] == whole[k] {
      assert s[a..a + n][i + k] == s[a + i + k];
    }
  }

  // Where data repeats e at offset o, it repeats every part of e there.
  lemma SliceAt(data: seq<Byte>, o: nat, e: seq<Byte>, k: nat, a: nat, b: nat)
    requires o + k <= |data| && k <= |e| && data[o..o + k] == e[..k]
    requires a <= b <= k
    ensures data[o + a..o + b] == e[a..b]
  {
    forall i | 0 <= i < b - a ensures data[o + a..o + b][i] == e[a..b][i] {
      assert data[o..o + k][a + i] == e[..k][a + i];
    }
  }

  lemma TwoParts(data: seq<Byte>, o: nat, p: seq<Byte>, q: seq<Byte>)
    requires o + |p| + |q| <= |data| && data[o..o + |p| + |q|] == p + q
    ensures data[o..o + |p|] == p && data[o + |p|..o + |p| + |q|] == q
  {
    SliceOfSlice(data, o, |p| + |q|, 0, |p|);
    SliceOfSlice(data, o, |p| + |q|, |p|, |p| + |q|);
    assert (p + q)[..|p|] == p && (p + q)[|p|..] == q;
  }
}
