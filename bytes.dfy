/**
 * Little-endian access to a byte buffer, as a JavaScript `DataView` read with
 * `littleEndian = true` performs it, and the matching encoders.
 * A read whose bytes are not all inside the buffer throws in the source; every
 * reader here therefore requires its bytes to be present, and the callers model
 * the throw as an error value.
 */
module Bytes {

  type byte = x: int | 0 <= x < 0x100

  const TwoTo16: int := 0x1_0000
  const TwoTo32: int := 0x1_0000_0000

  predicate IsU16(x: int) { 0 <= x < TwoTo16 }
  predicate IsI16(x: int) { -0x8000 <= x < 0x8000 }
  predicate IsU32(x: int) { 0 <= x < TwoTo32 }
  predicate IsI32(x: int) { -0x8000_0000 <= x < 0x8000_0000 }

  // ---------------------------------------------------------------- readers

  /** getUint16(off, true) */
  function U16(s: seq<byte>, off: nat): (r: int)
    requires off + 2 <= |s|
    ensures IsU16(r)
  {
    s[off] as int + 0x100 * (s[off + 1] as int)
  }

  /** getUint32(off, true) */
  function U32(s: seq<byte>, off: nat): (r: int)
    requires off + 4 <= |s|
    ensures IsU32(r)
  {
    U16(s, off) + TwoTo16 * U16(s, off + 2)
  }

  /** getInt16(off, true): the two's-complement reading of U16 */
  function I16(s: seq<byte>, off: nat): (r: int)
    requires off + 2 <= |s|
    ensures IsI16(r)
  {
    var u := U16(s, off);
    if u < 0x8000 then u else u - TwoTo16
  }

  /** getInt32(off, true): the two's-complement reading of U32 */
  function I32(s: seq<byte>, off: nat): (r: int)
    requires off + 4 <= |s|
    ensures IsI32(r)
  {
    var u := U32(s, off);
    if u < 0x8000_0000 then u else u - TwoTo32
  }

  // ---------------------------------------------------------------- encoders

  function LeU16(x: int): (r: seq<byte>)
    requires IsU16(x)
    ensures |r| == 2
  {
    [x % 0x100, x / 0x100]
  }

  function LeU32(x: int): (r: seq<byte>)
    requires IsU32(x)
    ensures |r| == 4
  {
    LeU16(x % TwoTo16) + LeU16(x / TwoTo16)
  }

  function LeI16(x: int): (r: seq<byte>)
    requires IsI16(x)
    ensures |r| == 2
  {
    LeU16(if x < 0 then x + TwoTo16 else x)
  }

  function LeI32(x: int): (r: seq<byte>)
    requires IsI32(x)
    ensures |r| == 4
  {
    LeU32(if x < 0 then x + TwoTo32 else x)
  }

  // ------------------------------------------------- reading what was written

  lemma ReadLeU16(s: seq<byte>, off: nat, x: int)
    requires IsU16(x) && off + 2 <= |s| && s[off..off + 2] == LeU16(x)
    ensures U16(s, off) == x
  {
    assert s[off] == s[off..off + 2][0] && s[off + 1] == s[off..off + 2][1];
  }

  lemma ReadLeU32(s: seq<byte>, off: nat, x: int)
    requires IsU32(x) && off + 4 <= |s| && s[off..off + 4] == LeU32(x)
    ensures U32(s, off) == x
  {
    assert s[off..off + 2] == s[off..off + 4][..2] == LeU16(x % TwoTo16);
    assert s[off + 2..off + 4] == s[off..off + 4][2..] == LeU16(x / TwoTo16);
    ReadLeU16(s, off, x % TwoTo16);
    ReadLeU16(s, off + 2, x / TwoTo16);
  }

  lemma ReadLeI16(s: seq<byte>, off: nat, x: int)
    requires IsI16(x) && off + 2 <= |s| && s[off..off + 2] == LeI16(x)
    ensures I16(s, off) == x
  {
    ReadLeU16(s, off, if x < 0 then x + TwoTo16 else x);
  }

  lemma ReadLeI32(s: seq<byte>, off: nat, x: int)
    requires IsI32(x) && off + 4 <= |s| && s[off..off + 4] == LeI32(x)
    ensures I32(s, off) == x
  {
    ReadLeU32(s, off, if x < 0 then x + TwoTo32 else x);
  }

  // ------------------------------------------------- writing what was read

  lemma WriteU16(s: seq<byte>, off: nat)
    requires off + 2 <= |s|
    ensures LeU16(U16(s, off)) == s[off..off + 2]
  {
  }

  lemma WriteU32(s: seq<byte>, off: nat)
    requires off + 4 <= |s|
    ensures LeU32(U32(s, off)) == s[off..off + 4]
  {
    var lo, hi := U16(s, off), U16(s, off + 2);
    assert U32(s, off) % TwoTo16 == lo && U32(s, off) / TwoTo16 == hi;
    WriteU16(s, off);
    WriteU16(s, off + 2);
    assert s[off..off + 4] == s[off..off + 2] + s[off + 2..off + 4];
  }

  lemma WriteI16(s: seq<byte>, off: nat)
    requires off + 2 <= |s|
    ensures LeI16(I16(s, off)) == s[off..off + 2]
  {
    WriteU16(s, off);
  }

  lemma WriteI32(s: seq<byte>, off: nat)
    requires off + 4 <= |s|
    ensures LeI32(I32(s, off)) == s[off..off + 4]
  {
    WriteU32(s, off);
  }

  // ------------------------------------------------- reads see only their bytes

  lemma U16Local(s: seq<byte>, t: seq<byte>, off: nat)
    requires off + 2 <= |s| && off + 2 <= |t| && s[off..off + 2] == t[off..off + 2]
    ensures U16(s, off) == U16(t, off)
  {
    assert s[off] == s[off..off + 2][0] && s[off + 1] == s[off..off + 2][1];
    assert t[off] == t[off..off + 2][0] && t[off + 1] == t[off..off + 2][1];
  }

  lemma U32Local(s: seq<byte>, t: seq<byte>, off: nat)
    requires off + 4 <= |s| && off + 4 <= |t| && s[off..off + 4] == t[off..off + 4]
    ensures U32(s, off) == U32(t, off)
  {
    assert s[off..off + 2] == s[off..off + 4][..2] && t[off..off + 2] == t[off..off + 4][..2];
    assert s[off + 2..off + 4] == s[off..off + 4][2..] && t[off + 2..off + 4] == t[off..off + 4][2..];
    U16Local(s, t, off);
    U16Local(s, t, off + 2);
  }

  // ------------------------------------------------- concatenation of chunks

  /** The chunks laid end to end, in order. */
  function Join(chunks: seq<seq<byte>>): (r: seq<byte>)
  {
    if chunks == [] then [] else Join(chunks[..|chunks| - 1]) + chunks[|chunks| - 1]
  }

  /** Sum of the chunk lengths before chunk i. */
  function JoinOffset(chunks: seq<seq<byte>>, i: nat): nat
    requires i <= |chunks|
  {
    if i == 0 then 0 else JoinOffset(chunks, i - 1) + |chunks[i - 1]|
  }

  lemma {:induction false} JoinLength(chunks: seq<seq<byte>>, i: nat)
    requires i <= |chunks|
    ensures |Join(chunks[..i])| == JoinOffset(chunks, i)
  {
    if i > 0 {
      JoinLength(chunks, i - 1);
      assert chunks[..i][..i - 1] == chunks[..i - 1];
    }
  }

  /** Joining a prefix of the chunks gives a prefix of the whole join. */
  lemma {:induction false} JoinPrefix(chunks: seq<seq<byte>>, i: nat)
    requires i <= |chunks|
    ensures |Join(chunks[..i])| <= |Join(chunks)|
    ensures Join(chunks)[..|Join(chunks[..i])|] == Join(chunks[..i])
  {
    if i < |chunks| {
      var n := |chunks|;
      assert chunks == chunks[..n];
      JoinPrefix(chunks[..n - 1], i);
      assert chunks[..n - 1][..i] == chunks[..i];
    } else {
      assert chunks[..i] == chunks;
    }
  }

  /** Chunk i sits at offset JoinOffset(chunks, i) of the join. */
  lemma JoinAt(chunks: seq<seq<byte>>, i: nat)
    requires i < |chunks|
    ensures JoinOffset(chunks, i + 1) <= |Join(chunks)|
    ensures Join(chunks)[JoinOffset(chunks, i)..JoinOffset(chunks, i + 1)] == chunks[i]
  {
    JoinPrefix(chunks, i + 1);
    JoinLength(chunks, i);
    JoinLength(chunks, i + 1);
    var pre := chunks[..i + 1];
    assert pre[..i] == chunks[..i];
    assert Join(pre) == Join(chunks[..i]) + chunks[i];
  }

  /** Chunks of one width w: chunk i at offset w * i. */
  lemma {:induction false} JoinUniformOffset(chunks: seq<seq<byte>>, w: nat, i: nat)
    requires i <= |chunks|
    requires forall k :: 0 <= k < |chunks| ==> |chunks[k]| == w
    ensures JoinOffset(chunks, i) == w * i
  {
    if i > 0 {
      JoinUniformOffset(chunks, w, i - 1);
    }
  }

  /** Chunk k is the slice of data that Join would place it at, counting from base. */
  predicate ChunkIsSlice(chunks: seq<seq<byte>>, data: seq<byte>, base: nat, k: nat)
    requires k < |chunks|
  {
    base + JoinOffset(chunks, k + 1) <= |data| &&
    chunks[k] == data[base + JoinOffset(chunks, k)..base + JoinOffset(chunks, k + 1)]
  }

  /** Chunks cut from consecutive slices of data join back into the covering slice. */
  lemma {:induction false} JoinSlices(chunks: seq<seq<byte>>, data: seq<byte>, base: nat, i: nat)
    requires i <= |chunks| && base <= |data|
    requires forall k :: 0 <= k < i ==> ChunkIsSlice(chunks, data, base, k)
    ensures base + JoinOffset(chunks, i) <= |data|
    ensures Join(chunks[..i]) == data[base..base + JoinOffset(chunks, i)]
  {
    if i > 0 {
      JoinSlices(chunks, data, base, i - 1);
      assert ChunkIsSlice(chunks, data, base, i - 1);
      assert chunks[..i][..i - 1] == chunks[..i - 1];
      var a, b, c := base, base + JoinOffset(chunks, i - 1), base + JoinOffset(chunks, i);
      assert data[a..c] == data[a..b] + data[b..c];
    } else {
      assert chunks[..0] == [];
    }
  }

  /** All the chunks, each cut from its slice of data, join into the covering slice. */
  lemma JoinAllSlices(chunks: seq<seq<byte>>, data: seq<byte>, base: nat)
    requires base <= |data|
    requires forall k :: 0 <= k < |chunks| ==> ChunkIsSlice(chunks, data, base, k)
    ensures base + JoinOffset(chunks, |chunks|) <= |data|
    ensures Join(chunks) == data[base..base + JoinOffset(chunks, |chunks|)]
  {
    JoinSlices(chunks, data, base, |chunks|);
    assert chunks[..|chunks|] == chunks;
  }

  /** A slice of a slice is a slice. */
  lemma SubSlice(data: seq<byte>, off: nat, whole: seq<byte>, c: nat, d: nat)
    requires off + |whole| <= |data| && data[off..off + |whole|] == whole
    requires c <= d <= |whole|
    ensures data[off + c..off + d] == whole[c..d]
  {
    assert forall k :: 0 <= k < d - c ==> data[off + c..off + d][k] == whole[c..d][k] by {
      forall k | 0 <= k < d - c
        ensures data[off + c..off + d][k] == whole[c..d][k]
      {
        assert data[off + c + k] == data[off..off + |whole|][c + k];
      }
    }
  }

  /** Chunk i of a join that ends a byte string sits at base + JoinOffset(chunks, i). */
  lemma JoinTailAt(data: seq<byte>, base: nat, chunks: seq<seq<byte>>, i: nat)
    requires base <= |data| && data[base..] == Join(chunks) && i < |chunks|
    ensures base + JoinOffset(chunks, i + 1) <= |data|
    ensures data[base + JoinOffset(chunks, i)..base + JoinOffset(chunks, i + 1)] == chunks[i]
  {
    JoinAt(chunks, i);
    assert data[base..base + |Join(chunks)|] == Join(chunks);
    SubSlice(data, base, Join(chunks), JoinOffset(chunks, i), JoinOffset(chunks, i + 1));
  }

  lemma SliceSplit(data: seq<byte>, a: nat, b: nat, c: nat)
    requires a <= b <= c <= |data|
    ensures data[a..c] == data[a..b] + data[b..c]
  {
  }
}
