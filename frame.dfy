/**
 * The length prefix that opens every MQTT-SN frame (section 5.2.2 of the
 * MQTT-SN Protocol Specification v1.2): one octet holding the total frame
 * length, or the octet 0x01 followed by the total length as a big-endian
 * 16-bit value. The shared helpers getLength and setLength belong to the
 * class MqttsMessage, which is not part of this model; the definitions here
 * follow from how every message shifts its offsets by 2 when the first octet
 * is 0x01.
 */
module Frame {
  import opened Wire

  /** Largest total length the 16-bit length field can state. */
  const MaxFrameLength := 65535

  /** The octets setLength writes for a frame of `len` octets. */
  function LengthHeader(len: int): (h: seq<byte>)
    requires 0 <= len <= MaxFrameLength
  {
    if len > 255 then [0x01, Hi(len), Lo(len)] else [len as byte]
  }

  /** getLength can read the length field of `data` without leaving it. */
  predicate LengthReadable(data: seq<byte>)
  {
    |data| >= 1 && (data[0] == 0x01 ==> |data| >= 3)
  }

  /** getLength: the total frame length that `data` announces. */
  function GetLength(data: seq<byte>): (n: int)
    requires LengthReadable(data)
    ensures 0 <= n <= MaxFrameLength
    ensures data[0] != 0x01 ==> n <= 255
  {
    if data[0] == 0x01 then U16(data[1], data[2]) else data[0] as int
  }

  /**
   * Where the variable tail of a received message starts: a message whose
   * compact-form header has `compact` octets gains 2 in the extended form.
   */
  function HeaderLength(data: seq<byte>, compact: nat): (hl: nat)
    requires |data| >= 1
    ensures hl == compact || hl == compact + 2
  {
    if data[0] == 0x01 then compact + 2 else compact
  }

  /**
   * The header length an encoder chooses for a tail of `n` octets: the
   * compact form unless the compact total would exceed 255.
   */
  function EncodedHeaderLength(n: nat, compact: nat): (hl: nat)
    ensures hl == compact || hl == compact + 2
  {
    if n + compact > 255 then compact + 2 else compact
  }

  /**
   * A frame built from the header an encoder chooses reads back: its length
   * field gives its own size, its first octet selects the same header length,
   * and the octets after the length field are the body that followed it.
   */
  lemma {:induction false} EncodedFrame(compact: nat, n: nat, body: seq<byte>)
    requires 2 <= compact && n + compact + 2 <= MaxFrameLength
    requires |body| == compact - 1 + n
    ensures var hl := EncodedHeaderLength(n, compact);
            var frame := LengthHeader(hl + n) + body;
            && |LengthHeader(hl + n)| == hl - compact + 1
            && (hl + n > 255 <==> hl == compact + 2)
            && LengthReadable(frame)
            && GetLength(frame) == hl + n == |frame|
            && HeaderLength(frame, compact) == hl
            && frame[hl - compact + 1..] == body
  {
    var hl := EncodedHeaderLength(n, compact);
    var frame := LengthHeader(hl + n) + body;
    if hl + n > 255 {
      U16HiLo(hl + n);
      assert frame[1] == Hi(hl + n) && frame[2] == Lo(hl + n);
    }
  }

  /**
   * setLength(buf, len): writes the length field of a `len`-octet frame at
   * the start of `buf` and leaves the rest of `buf` alone.
   */
  method SetLength(buf: array<byte>, len: int)
    requires 0 <= len <= MaxFrameLength && |LengthHeader(len)| <= buf.Length
    modifies buf
    ensures buf[..] == LengthHeader(len) + old(buf[|LengthHeader(len)|..])
    ensures forall i | |LengthHeader(len)| <= i < buf.Length :: buf[i] == old(buf[i])
  {
    if len > 255 {
      buf[0] := 0x01;
      buf[1] := Hi(len);
      buf[2] := Lo(len);
    } else {
      buf[0] := len as byte;
    }
  }
}
