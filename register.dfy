/**
 * REGISTER (section 5.4 of the MQTT-SN Protocol Specification v1.2):
 * length field, type, TopicId (2 octets), MsgId (2 octets) and the topic
 * name, which fills the rest of the frame.
 */
module RegisterCodec {
  import opened Wire
  import opened Frame

  /** The fields of a REGISTER message. */
  datatype Register = Register(topicId: int, msgId: int, topicName: seq<byte>)

  /** Header length of the compact form: length, type, TopicId, MsgId. */
  const Compact := 6

  /** Longest topic name whose frame length still fits the length field. */
  const MaxTopicName := MaxFrameLength - Compact - 2

  /** The octets toBytes produces for `m`, field by field. */
  function EncodeRegister(msgType: byte, m: Register): (r: seq<byte>)
    requires |m.topicName| <= MaxTopicName
  {
    var hl := EncodedHeaderLength(|m.topicName|, Compact);
    LengthHeader(hl + |m.topicName|)
      + [msgType, Hi(m.topicId), Lo(m.topicId), Hi(m.msgId), Lo(m.msgId)]
      + m.topicName
  }

  /**
   * The REGISTER that the parsing constructor builds from `data`. It fails
   * only where the source raises an array exception: the length field cannot
   * be read, or the frame it announces is shorter than the header or longer
   * than the buffer. Both ids are read from the wire, so a gateway-assigned
   * topic id survives, and both lie in 16 bits.
   */
  function DecodeRegister(data: seq<byte>): (r: Result<Register>)
    ensures r.Ok? <==> (LengthReadable(data) && HeaderLength(data, Compact) <= GetLength(data) <= |data|)
    ensures r.Ok? ==> 0 <= r.value.topicId < 65536 && 0 <= r.value.msgId < 65536
  {
    if !LengthReadable(data) then Err(IndexOutOfBounds)
    else
      var length := GetLength(data);
      var hl := HeaderLength(data, Compact);
      if length < hl || length > |data| then Err(IndexOutOfBounds)
      else
        Ok(Register(U16(data[hl - 4], data[hl - 3]), U16(data[hl - 2], data[hl - 1]), data[hl..length]))
  }

  /**
   * The layout toBytes writes: the header grows from 6 to 8 octets exactly
   * when a 6-octet header plus the name would exceed 255; the type sits at
   * headerLength-5, TopicId and MsgId big-endian at headerLength-4..-1 (their
   * low 16 bits only), and the name fills the rest.
   */
  lemma {:induction false} RegisterLayout(msgType: byte, m: Register)
    requires |m.topicName| <= MaxTopicName
    ensures var r := EncodeRegister(msgType, m);
            var hl := EncodedHeaderLength(|m.topicName|, Compact);
            && (hl == 8 <==> Compact + |m.topicName| > 255)
            && |r| == hl + |m.topicName|
            && LengthReadable(r) && GetLength(r) == |r| && HeaderLength(r, Compact) == hl
            && r[hl - 5] == msgType
            && U16(r[hl - 4], r[hl - 3]) == m.topicId % 65536
            && U16(r[hl - 2], r[hl - 1]) == m.msgId % 65536
            && r[hl..] == m.topicName
  {
    var n := |m.topicName|;
    var body := [msgType, Hi(m.topicId), Lo(m.topicId), Hi(m.msgId), Lo(m.msgId)] + m.topicName;
    EncodedFrame(Compact, n, body);
    U16HiLo(m.topicId);
    U16HiLo(m.msgId);
  }

  /** Parsing a frame that fills its buffer reads the fields at their places. */
  lemma {:induction false} DecodeWholeRegister(r: seq<byte>)
    requires LengthReadable(r) && GetLength(r) == |r| && HeaderLength(r, Compact) <= |r|
    ensures var hl := HeaderLength(r, Compact);
            DecodeRegister(r) == Ok(Register(U16(r[hl - 4], r[hl - 3]), U16(r[hl - 2], r[hl - 1]), r[hl..]))
  {
    var hl := HeaderLength(r, Compact);
    assert r[hl..GetLength(r)] == r[hl..];
  }

  /**
   * Round trip: parsing what toBytes produces restores the topic name and
   * the low 16 bits of TopicId and MsgId.
   */
  lemma {:induction false} RegisterRoundTrip(msgType: byte, m: Register)
    requires |m.topicName| <= MaxTopicName
    ensures DecodeRegister(EncodeRegister(msgType, m)) == Ok(Register(m.topicId % 65536, m.msgId % 65536, m.topicName))
  {
    RegisterLayout(msgType, m);
    DecodeWholeRegister(EncodeRegister(msgType, m));
  }

  /** So every field comes back when both ids fit in 16 bits. */
  lemma {:induction false} RegisterRoundTripExact(msgType: byte, m: Register)
    requires |m.topicName| <= MaxTopicName
    requires 0 <= m.topicId < 65536 && 0 <= m.msgId < 65536
    ensures DecodeRegister(EncodeRegister(msgType, m)) == Ok(m)
  {
    RegisterRoundTrip(msgType, m);
    Low16Exact(m.topicId);
    Low16Exact(m.msgId);
  }

  /** An MqttsRegister object: the message type and the three fields. */
  class MqttsRegister {
    const msgType: byte
    var topicId: int
    var msgId: int
    var topicName: seq<byte>

    function Fields(): Register
      reads this
    {
      Register(topicId, msgId, topicName)
    }

    /** `new MqttsRegister()` followed by the three setters. */
    constructor (msgType: byte, topicId: int, msgId: int, topicName: seq<byte>)
      ensures this.msgType == msgType && Fields() == Register(topicId, msgId, topicName)
    {
      this.msgType := msgType;
      this.topicId := topicId;
      this.msgId := msgId;
      this.topicName := topicName;
    }

    /** `MqttsRegister(byte[] data)`: parses a received REGISTER. */
    constructor FromBytes(msgType: byte, data: array<byte>)
      requires DecodeRegister(data[..]).Ok?
      ensures this.msgType == msgType && Fields() == DecodeRegister(data[..]).value
    {
      var length := GetLength(data[..]);
      var headerLength := if data[0] == 0x01 then 8 else 6;
      this.msgType := msgType;
      topicId := 0;
      topicId := U16(data[headerLength - 4], data[headerLength - 3]);
      msgId := U16(data[headerLength - 2], data[headerLength - 1]);
      topicName := data[headerLength..length];
    }

    /** `toBytes()`: the REGISTER frame, written into a fresh array. */
    method ToBytes() returns (r: seq<byte>)
      requires |topicName| <= MaxTopicName
      ensures r == EncodeRegister(msgType, Fields())
    {
      var headerLength := 6;
      if headerLength + |topicName| > 255 {
        headerLength := headerLength + 2;
      }
      var length := headerLength + |topicName|;
      var data := new byte[length](_ => 0);
      SetLength(data, length);
      data[headerLength - 5] := msgType;
      data[headerLength - 4] := Hi(topicId);
      data[headerLength - 3] := Lo(topicId);
      data[headerLength - 2] := Hi(msgId);
      data[headerLength - 1] := Lo(msgId);
      assert data[..headerLength] == LengthHeader(length) + [msgType, Hi(topicId), Lo(topicId), Hi(msgId), Lo(msgId)];
      var copied := ArrayCopy(topicName, 0, data, headerLength, |topicName|);
      r := data[..];
    }
  }
}
