/** Fixed-width integer coding and concatenation of equal-sized chunks. */
module Encoding {
  import opened Types

  function Pow256(n: nat): (p: nat)
    ensures p > 0
  {
    if n == 0 then 1 else 256 * Pow256(n - 1)
  }

  /** The `len` low-order bytes of `n`, most significant first. */
  function BigEndian(n: nat, len: nat): (b: Bytes)
    ensures |b| == len
  {
    if len == 0 then [] else BigEndian(n / 256, len - 1) + [n % 256]
  }

  /** `to_be_bytes` of a u64. */
  function Be64(n: u64): (b: Bytes)
    ensures |b| == 8
  {
    BigEndian(n, 8)
  }

  /** The value of a byte string, the first byte counting most. */
  function Value(b: Bytes, len: nat): nat
    requires len <= |b|
  {
    if len == 0 then 0 else 256 * Value(b, len - 1) + b[len - 1]
  }

  lemma {:induction false} ValueOfPrefix(b: Bytes, c: Bytes, len: nat)
    requires len <= |b| && len <= |c| && forall i :: 0 <= i < len ==> b[i] == c[i]
    ensures Value(b, len) == Value(c, len)
  {
    if len > 0 {
      ValueOfPrefix(b, c, len - 1);
    }
  }

  lemma {:induction false} BigEndianValue(n: nat, len: nat)
    requires n < Pow256(len)
    ensures Value(BigEndian(n, len), len) == n
  {
    if len > 0 {
      var high := BigEndian(n / 256, len - 1);
      BigEndianValue(n / 256, len - 1);
      ValueOfPrefix(BigEndian(n, len), high, len - 1);
    }
  }

  /** Eight bytes that spell the number, the most significant first. */
  lemma Be64Value(n: u64)
    ensures var b: seq<int> := Be64(n);
            n == 0x100_0000_0000_0000 * b[0] + 0x1_0000_0000_0000 * b[1] + 0x100_0000_0000 * b[2] + 0x1_0000_0000 * b[3]
               + 0x100_0000 * b[4] + 0x1_0000 * b[5] + 0x100 * b[6] + b[7]
  {
    hide BigEndian;
    SixtyFourBits();
    BigEndianValue(n, 8);
    var b := BigEndian(n, 8);
    assert Value(b, 0) == 0;
    assert Value(b, 1) == 256 * Value(b, 0) + b[0];
    assert Value(b, 2) == 256 * Value(b, 1) + b[1];
    assert Value(b, 3) == 256 * Value(b, 2) + b[2];
    assert Value(b, 4) == 256 * Value(b, 3) + b[3];
    assert Value(b, 5) == 256 * Value(b, 4) + b[4];
    assert Value(b, 6) == 256 * Value(b, 5) + b[5];
    assert Value(b, 7) == 256 * Value(b, 6) + b[6];
    assert Value(b, 8) == 256 * Value(b, 7) + b[7];
  }

  lemma Be64Injective(m: u64, n: u64)
    requires Be64(m) == Be64(n)
    ensures m == n
  {
    Be64Value(m);
    Be64Value(n);
  }

  lemma SixtyFourBits()
    ensures Pow256(8) == 0x1_0000_0000_0000_0000
  {
    assert Pow256(4) == 0x1_0000_0000;
    assert Pow256(6) == 0x1_0000 * Pow256(4);
    assert Pow256(8) == 0x1_0000 * Pow256(6);
  }

  /** A little-endian u16, as `BufferLayout.u16` writes it. */
  function Le16(n: u16): (b: Bytes)
    ensures |b| == 2
  {
    [n % 256, n / 256]
  }

  function FromLe16(b: Bytes, at: nat): u16
    requires at + 2 <= |b|
  {
    (b[at] as int) + 256 * (b[at + 1] as int)
  }

  function Flatten(chunks: seq<Bytes>): Bytes {
    if chunks == [] then [] else Flatten(chunks[..|chunks| - 1]) + chunks[|chunks| - 1]
  }

  /** Appending keeps every window of the front, and puts the new part behind it. */
  lemma Append(front: Bytes, part: Bytes)
    ensures |front + part| == |front| + |part|
    ensures forall i, j :: 0 <= i <= j <= |front| ==> (front + part)[i..j] == front[i..j]
    ensures (front + part)[|front|..|front| + |part|] == part
  {
  }

  lemma Multiples(size: nat, i: nat, n: nat)
    requires i < n
    ensures size * n == size * (n - 1) + size
    ensures 0 <= size * i <= size * i + size <= size * n
  {
    if i < n - 1 {
      Multiples(size, i, n - 1);
    }
  }

  /** In a concatenation of chunks of `size` bytes, chunk `i` sits at `size * i`. */
  lemma {:induction false} FlattenSlice(chunks: seq<Bytes>, size: nat, i: nat)
    requires forall j :: 0 <= j < |chunks| ==> |chunks[j]| == size
    requires i < |chunks|
    ensures |Flatten(chunks)| == size * |chunks|
    ensures 0 <= size * i <= size * i + size <= size * |chunks|
    ensures Flatten(chunks)[size * i..size * i + size] == chunks[i]
  {
    var n := |chunks| - 1;
    var front := chunks[..n];
    FlattenLength(front, size);
    Multiples(size, i, |chunks|);
    Append(Flatten(front), chunks[n]);
    if i < n {
      FlattenSlice(front, size, i);
    }
  }

  lemma {:induction false} FlattenLength(chunks: seq<Bytes>, size: nat)
    requires forall j :: 0 <= j < |chunks| ==> |chunks[j]| == size
    ensures |Flatten(chunks)| == size * |chunks|
  {
    if chunks != [] {
      FlattenLength(chunks[..|chunks| - 1], size);
      assert size * |chunks| == size * (|chunks| - 1) + size;
    }
  }
}
