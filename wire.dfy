/**
 * Octets, big-endian 16-bit fields, the in-place array copy and the error
 * outcomes shared by every MQTT-SN message codec.
 */
module Wire {

  /** One octet of a frame. Java's signed `byte` is read through its unsigned value. */
  newtype byte = x: int | 0 <= x < 256

  /** The ways a codec call ends abnormally in the source. */
  datatype Error =
      /** An unchecked array exception (index out of bounds, negative array size):
          the buffer is shorter than the frame it announces, or a copy does not fit. */
    | IndexOutOfBounds
      /** "Unknown QoS value": a QoS outside -1, 0, 1, 2 at encoding. */
    | UnknownQoS(qos: int)
      /** "Unknown topic id type", at encoding or decoding. */
    | UnknownTopicIdType(topicIdType: int)
      /** "Wrong format": a 2-byte topic selector of another size. */
    | WrongFormat
      /** A string field that was never set (Java null) is dereferenced. */
    | NullField

  datatype Result<T> = Ok(value: T) | Err(error: Error)

  datatype Option<T> = None | Some(value: T)

  /** `(byte)((x >> 8) & 0xFF)`: bits 8..15 of x in two's complement. */
  function Hi(x: int): byte
  {
    ((x / 256) % 256) as byte
  }

  /** `(byte)(x & 0xFF)`: bits 0..7 of x in two's complement. */
  function Lo(x: int): byte
  {
    (x % 256) as byte
  }

  /** `((hi & 0xFF) << 8) + (lo & 0xFF)`: the big-endian value of two octets. */
  function U16(hi: byte, lo: byte): (v: int)
    ensures 0 <= v < 65536
  {
    hi as int * 256 + lo as int
  }

  /** Writing a value as two octets and reading them back keeps its low 16 bits. */
  lemma {:induction false} U16HiLo(x: int)
    ensures U16(Hi(x), Lo(x)) == x % 65536
  {
    var q, r := x / 256, x % 256;
    var q1, q0 := q / 256, q % 256;
    assert x == 65536 * q1 + (256 * q0 + r);
    assert 0 <= 256 * q0 + r < 65536;
    assert x / 65536 == q1;
  }

  /** A value that fits in 16 bits is its own low 16 bits. */
  lemma Low16Exact(x: int)
    requires 0 <= x < 65536
    ensures x % 65536 == x
  {
  }

  /** Two octets are recovered from their big-endian value. */
  lemma HiLoU16(hi: byte, lo: byte)
    ensures Hi(U16(hi, lo)) == hi && Lo(U16(hi, lo)) == lo
  {
  }

  /** Whether `System.arraycopy(src, srcPos, dest, destPos, length)` stays inside both arrays. */
  predicate CopyFits(srcLength: int, srcPos: int, destLength: int, destPos: int, length: int)
  {
    0 <= srcPos && 0 <= destPos && 0 <= length &&
    srcPos + length <= srcLength && destPos + length <= destLength
  }

  /**
   * `System.arraycopy(src, srcPos, dest, destPos, length)`: when both ranges fit, the
   * `length` octets of `src` from `srcPos` replace those of `dest` from `destPos`;
   * otherwise it fails (Java throws) and `dest` is left as it was.
   */
  method ArrayCopy(src: seq<byte>, srcPos: int, dest: array<byte>, destPos: int, length: int)
    returns (ok: bool)
    modifies dest
    ensures ok == CopyFits(|src|, srcPos, dest.Length, destPos, length)
    ensures ok ==> dest[..] == old(dest[..destPos]) + src[srcPos..srcPos + length] + old(dest[destPos + length..])
    ensures !ok ==> dest[..] == old(dest[..])
  {
    ok := CopyFits(|src|, srcPos, dest.Length, destPos, length);
    if !ok {
      return;
    }
    ghost var before := dest[..];
    var i := 0;
    while i < length
      invariant 0 <= i <= length
      invariant forall k | 0 <= k < dest.Length ::
                  dest[k] == if destPos <= k < destPos + i then src[srcPos + (k - destPos)] else before[k]
    {
      dest[destPos + i] := src[srcPos + i];
      i := i + 1;
    }
    ghost var after := before[..destPos] + src[srcPos..srcPos + length] + before[destPos + length..];
    assert forall k | 0 <= k < dest.Length :: dest[k] == after[k];
    assert dest[..] == after;
  }
}
