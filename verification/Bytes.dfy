/** Bytes and how numbers are written in them. */
module Bytes {

  type byte = x: int | 0 <= x < 256
  type bytes = seq<byte>

  function Le16(v: nat): bytes
    requires v < 0x10000
  {
    [v % 256, v / 256]
  }

  function Le32(v: nat): bytes
    requires v < 0x1_0000_0000
  {
    Le16(v % 0x10000) + Le16(v / 0x10000)
  }

  function Be32(v: nat): bytes
    requires v < 0x1_0000_0000
  {
    [v / 0x1000000, v / 0x10000 % 256, v / 256 % 256, v % 256]
  }

  function ReadLe16(b: bytes, at: nat): (v: nat)
    requires at + 2 <= |b|
    ensures v < 0x10000
  {
    b[at] as int + 256 * (b[at + 1] as int)
  }

  function ReadLe32(b: bytes, at: nat): (v: nat)
    requires at + 4 <= |b|
    ensures v < 0x1_0000_0000
  {
    ReadLe16(b, at) + 0x10000 * ReadLe16(b, at + 2)
  }

  function ReadBe32(b: bytes, at: nat): (v: nat)
    requires at + 4 <= |b|
    ensures v < 0x1_0000_0000
  {
    ((b[at] as int * 256 + b[at + 1] as int) * 256 + b[at + 2] as int) * 256 + b[at + 3] as int
  }

  lemma Le16RoundTrip(b: bytes, at: nat, v: nat)
    requires v < 0x10000 && at + 2 <= |b| && b[at..at + 2] == Le16(v)
    ensures ReadLe16(b, at) == v
  {
    assert b[at] == b[at..at + 2][0] && b[at + 1] == b[at..at + 2][1];
  }

  lemma Le32RoundTrip(b: bytes, at: nat, v: nat)
    requires v < 0x1_0000_0000 && at + 4 <= |b| && b[at..at + 4] == Le32(v)
    ensures ReadLe32(b, at) == v
  {
    assert b[at..at + 2] == b[at..at + 4][..2] == Le16(v % 0x10000);
    assert b[at + 2..at + 4] == b[at..at + 4][2..] == Le16(v / 0x10000);
    Le16RoundTrip(b, at, v % 0x10000);
    Le16RoundTrip(b, at + 2, v / 0x10000);
  }

  lemma Be32RoundTrip(b: bytes, at: nat, v: nat)
    requires v < 0x1_0000_0000 && at + 4 <= |b| && b[at..at + 4] == Be32(v)
    ensures ReadBe32(b, at) == v
  {
    var c := b[at..at + 4];
    assert b[at] == c[0] && b[at + 1] == c[1] && b[at + 2] == c[2] && b[at + 3] == c[3];
    var a0, a1, a2 := v / 256, v / 0x10000, v / 0x1000000;
    assert a1 == a0 / 256 && a2 == a1 / 256;
    assert a2 * 256 + a1 % 256 == a1 && a1 * 256 + a0 % 256 == a0;
  }

  lemma SliceOfSlice<T>(b: seq<T>, at: nat, n: nat, i: nat, j: nat)
    requires at + n <= |b| && i <= j <= n
    ensures b[at..at + n][i..j] == b[at + i..at + j]
  {
    var inner := b[at..at + n];
    var left, right := inner[i..j], b[at + i..at + j];
    forall k | 0 <= k < |left| ensures left[k] == right[k] {
      assert left[k] == inner[i + k];
    }
  }

  lemma SliceOfMiddle<T>(front: seq<T>, middle: seq<T>, back: seq<T>, i: nat, j: nat)
    requires i <= j <= |middle|
    ensures (front + middle + back)[|front| + i..|front| + j] == middle[i..j]
  {
  }
}
