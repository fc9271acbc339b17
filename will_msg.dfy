/**
 * WILLMSG and WILLMSGUPD (section 5.4 of the MQTT-SN Protocol
 * Specification v1.2): length field, type and the will message, which fills
 * the rest of the frame with no inner structure. The two source classes
 * carry the same code and differ only in their type constant, so they share
 * one encoding and one decoding here.
 */
module WillMsgCodec {
  import opened Wire
  import opened Frame

  /** Header length of the compact form: length and type. */
  const Compact := 2

  /** Longest will message whose frame length still fits the length field. */
  const MaxWillMsg := MaxFrameLength - Compact - 2

  /** The octets toBytes produces for a will message. */
  function EncodeWillMsg(msgType: byte, willMsg: seq<byte>): (r: seq<byte>)
    requires |willMsg| <= MaxWillMsg
  {
    var hl := EncodedHeaderLength(|willMsg|, Compact);
    LengthHeader(hl + |willMsg|) + [msgType] + willMsg
  }

  /**
   * The will message the parsing constructor reads: exactly the octets from
   * the end of the header to the announced length. It fails only where the
   * source raises an array exception.
   */
  function DecodeWillMsg(data: seq<byte>): (r: Result<seq<byte>>)
    ensures r.Ok? <==> (LengthReadable(data) && HeaderLength(data, Compact) <= GetLength(data) <= |data|)
    ensures r.Ok? ==> |r.value| == GetLength(data) - HeaderLength(data, Compact)
  {
    if !LengthReadable(data) then Err(IndexOutOfBounds)
    else
      var length := GetLength(data);
      var hl := HeaderLength(data, Compact);
      if length < hl || length > |data| then Err(IndexOutOfBounds)
      else Ok(data[hl..length])
  }

  /**
   * The layout toBytes writes: a 2-octet header, 4 when the message plus 2
   * exceeds 255; the total length is the header plus the message; the type
   * sits at headerLength-1 and the message fills the rest.
   */
  lemma {:induction false} WillMsgLayout(msgType: byte, willMsg: seq<byte>)
    requires |willMsg| <= MaxWillMsg
    ensures var r := EncodeWillMsg(msgType, willMsg);
            var hl := EncodedHeaderLength(|willMsg|, Compact);
            && (hl == 4 <==> |willMsg| + Compact > 255)
            && |r| == hl + |willMsg|
            && LengthReadable(r) && GetLength(r) == |r|
            && r[hl - 1] == msgType
            && r[hl..] == willMsg
  {
    EncodedFrame(Compact, |willMsg|, [msgType] + willMsg);
  }

  /** Round trip: parsing what toBytes produces restores the will message. */
  lemma {:induction false} WillMsgRoundTrip(msgType: byte, willMsg: seq<byte>)
    requires |willMsg| <= MaxWillMsg
    ensures DecodeWillMsg(EncodeWillMsg(msgType, willMsg)) == Ok(willMsg)
  {
    EncodedFrame(Compact, |willMsg|, [msgType] + willMsg);
    var r := EncodeWillMsg(msgType, willMsg);
    var hl := EncodedHeaderLength(|willMsg|, Compact);
    assert r[hl..|r|] == willMsg;
  }

  /**
   * The writes both toBytes methods perform: a fresh array, its length
   * field, the type at headerLength-1 and the message copied after it.
   */
  method WriteWillMsg(msgType: byte, willMsg: seq<byte>) returns (r: seq<byte>)
    requires |willMsg| <= MaxWillMsg
    ensures r == EncodeWillMsg(msgType, willMsg)
  {
    var headerLength := if |willMsg| + 2 > 255 then 4 else 2;
    var length := |willMsg| + headerLength;
    var data := new byte[length](_ => 0);
    SetLength(data, length);
    data[headerLength - 1] := msgType;
    assert data[..headerLength] == LengthHeader(length) + [msgType];
    var copied := ArrayCopy(willMsg, 0, data, headerLength, |willMsg|);
    r := data[..];
  }

  /** An MqttsWillMsg object: the message type and the will message. */
  class MqttsWillMsg {
    const msgType: byte
    var willMsg: seq<byte>

    /** `new MqttsWillMsg()` followed by setWillMsg. */
    constructor (msgType: byte, willMsg: seq<byte>)
      ensures this.msgType == msgType && this.willMsg == willMsg
    {
      this.msgType := msgType;
      this.willMsg := willMsg;
    }

    /** `MqttsWillMsg(byte[] data)`: parses a received WILLMSG. */
    constructor FromBytes(msgType: byte, data: array<byte>)
      requires DecodeWillMsg(data[..]).Ok?
      ensures this.msgType == msgType && willMsg == DecodeWillMsg(data[..]).value
    {
      var length := GetLength(data[..]);
      var headerLength := if data[0] == 0x01 then 4 else 2;
      this.msgType := msgType;
      willMsg := data[headerLength..length];
    }

    /** `toBytes()`: the WILLMSG frame. */
    method ToBytes() returns (r: seq<byte>)
      requires |willMsg| <= MaxWillMsg
      ensures r == EncodeWillMsg(msgType, willMsg)
    {
      r := WriteWillMsg(msgType, willMsg);
    }
  }

  /** An MqttsWillMsgUpd object: the message type and the new will message. */
  class MqttsWillMsgUpd {
    const msgType: byte
    var willMsg: seq<byte>

    /** `new MqttsWillMsgUpd()` followed by setWillMsg. */
    constructor (msgType: byte, willMsg: seq<byte>)
      ensures this.msgType == msgType && this.willMsg == willMsg
    {
      this.msgType := msgType;
      this.willMsg := willMsg;
    }

    /** `MqttsWillMsgUpd(byte[] data)`: parses a received WILLMSGUPD. */
    constructor FromBytes(msgType: byte, data: array<byte>)
      requires DecodeWillMsg(data[..]).Ok?
      ensures this.msgType == msgType && willMsg == DecodeWillMsg(data[..]).value
    {
      var length := GetLength(data[..]);
      var headerLength := if data[0] == 0x01 then 4 else 2;
      this.msgType := msgType;
      willMsg := data[headerLength..length];
    }

    /** `toBytes()`: the WILLMSGUPD frame. */
    method ToBytes() returns (r: seq<byte>)
      requires |willMsg| <= MaxWillMsg
      ensures r == EncodeWillMsg(msgType, willMsg)
    {
      r := WriteWillMsg(msgType, willMsg);
    }
  }
}
