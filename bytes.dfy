/** Host arrays as the bytes `memcpy` puts into a buffer: a `uint32_t` as
    four little-endian bytes, and an array of fixed-size records as their
    encodings back to back. */
module Bytes {
  import opened Vulkan

  function EncodeU32(x: U32): (r: seq<Byte>)
    ensures |r| == 4
  {
    [x % 256, x / 256 % 256, x / 65536 % 256, x / 16777216]
  }

  function DecodeU32(b: seq<Byte>): (x: U32)
    requires |b| == 4
  {
    var t2: nat := b[2] as nat + 256 * (b[3] as nat);
    var t1: nat := b[1] as nat + 256 * t2;
    b[0] as nat + 256 * t1
  }

  /** Little-endian encoding loses nothing. */
  lemma DecodeEncodeU32(x: U32)
    ensures DecodeU32(EncodeU32(x)) == x
  {
    var q1 := x / 256;
    var q2 := q1 / 256;
    assert x / 65536 == q2;
    assert x / 16777216 == q2 / 256;
  }

  /** Every four bytes are the encoding of one `uint32_t`. */
  lemma EncodeDecodeU32(b: seq<Byte>)
    requires |b| == 4
    ensures EncodeU32(DecodeU32(b)) == b
  {
    var x := DecodeU32(b);
    var t2: nat := b[2] as nat + 256 * (b[3] as nat);
    var t1: nat := b[1] as nat + 256 * t2;
    assert x % 256 == b[0] && x / 256 == t1;
    assert t1 % 256 == b[1] && t1 / 256 == t2;
    assert t2 % 256 == b[2] && t2 / 256 == b[3];
    assert x / 65536 == t2;
    assert x / 16777216 == b[3];
  }

  /** A `uint64_t` as its low and then its high 32-bit half. */
  function EncodeU64(x: U64): (r: seq<Byte>)
    ensures |r| == 8
  {
    EncodeU32(x % TWO_32) + EncodeU32(x / TWO_32)
  }

  function DecodeU64(b: seq<Byte>): (x: U64)
    requires |b| == 8
  {
    DecodeU32(b[..4]) + TWO_32 * DecodeU32(b[4..])
  }

  lemma DecodeEncodeU64(x: U64)
    ensures DecodeU64(EncodeU64(x)) == x
  {
    var b := EncodeU64(x);
    assert b[..4] == EncodeU32(x % TWO_32) && b[4..] == EncodeU32(x / TWO_32);
    DecodeEncodeU32(x % TWO_32);
    DecodeEncodeU32(x / TWO_32);
  }

  /** The bytes of an array of records, `stride` bytes per record. */
  function Serialize<T(!new)>(s: seq<T>, encode: T -> seq<Byte>, stride: nat): (r: seq<Byte>)
    requires forall v :: |encode(v)| == stride
    ensures |r| == stride * |s|
    decreases |s|
  {
    if |s| == 0 then []
    else Serialize(s[..|s| - 1], encode, stride) + encode(s[|s| - 1])
  }

  /** Record `i` occupies bytes `[i * stride, (i + 1) * stride)`. */
  lemma {:induction false} SerializeSlot<T(!new)>(s: seq<T>, encode: T -> seq<Byte>, stride: nat, i: nat)
    requires forall v :: |encode(v)| == stride
    requires i < |s|
    ensures i * stride + stride <= |Serialize(s, encode, stride)|
    ensures Serialize(s, encode, stride)[i * stride .. i * stride + stride] == encode(s[i])
    decreases |s|
  {
    var front := s[..|s| - 1];
    var prefix := Serialize(front, encode, stride);
    assert |prefix| == stride * (|s| - 1);
    if i == |s| - 1 {
      assert i * stride == |prefix|;
    } else {
      SerializeSlot(front, encode, stride, i);
      assert i * stride + stride <= (|s| - 1) * stride by {
        assert i + 1 <= |s| - 1;
        MulMonotone(i + 1, |s| - 1, stride);
      }
      assert front[i] == s[i];
    }
  }

  lemma MulMonotone(a: nat, b: nat, c: nat)
    requires a <= b
    ensures a * c <= b * c
  {
  }

  /** The bytes of a `uint32_t` array. */
  function SerializeU32(s: seq<U32>): (r: seq<Byte>)
    ensures |r| == 4 * |s|
  {
    Serialize(s, EncodeU32, 4)
  }

  /** Reading a `uint32_t` array back from its bytes gives the array. */
  lemma ReadBackU32(s: seq<U32>, i: nat)
    requires i < |s|
    ensures 4 * i + 4 <= |SerializeU32(s)|
    ensures DecodeU32(SerializeU32(s)[4 * i .. 4 * i + 4]) == s[i]
  {
    SerializeSlot(s, EncodeU32, 4, i);
    assert i * 4 == 4 * i;
    DecodeEncodeU32(s[i]);
  }
}
