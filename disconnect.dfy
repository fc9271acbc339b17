/**
 * DISCONNECT (section 5.4 of the MQTT-SN Protocol Specification v1.2):
 * length octet and type, followed by a 2-octet sleep duration only when the
 * client asks to sleep. The frame is at most 4 octets, so the length field
 * is always the one-octet form.
 */
module DisconnectCodec {
  import opened Wire

  /** Java's `short`. */
  type Short = x: int | -32768 <= x < 32768

  /** The octets toBytes produces for a DISCONNECT with this sleep duration. */
  function EncodeDisconnect(msgType: byte, sleepDuration: Short): (r: seq<byte>)
  {
    if sleepDuration > 0 then [4, msgType, Hi(sleepDuration), Lo(sleepDuration)]
    else [2, msgType]
  }

  /**
   * The frame is 4 octets for a positive duration and 2 otherwise; octet 0
   * is the one-octet length field stating that size, octet 1 the type, and a
   * positive duration is octets 2-3 big-endian.
   */
  lemma DisconnectLayout(msgType: byte, sleepDuration: Short)
    ensures var r := EncodeDisconnect(msgType, sleepDuration);
            && (|r| == 4 <==> sleepDuration > 0)
            && (|r| == 2 <==> sleepDuration <= 0)
            && r[0] as int == |r| && r[1] == msgType
            && (sleepDuration > 0 ==> U16(r[2], r[3]) == sleepDuration)
  {
    if sleepDuration > 0 {
      U16HiLo(sleepDuration);
    }
  }

  /** A duration of 300 s is sent as 0x01, 0x2C; a duration of 0 adds nothing. */
  lemma DisconnectExamples(msgType: byte)
    ensures EncodeDisconnect(msgType, 300) == [4, msgType, 0x01, 0x2C]
    ensures EncodeDisconnect(msgType, 0) == [2, msgType]
  {
  }

  /** An MqttsDisconnect object: the message type and the sleep duration. */
  class MqttsDisconnect {
    const msgType: byte
    var sleepDuration: Short

    /** `MqttsDisconnect(short sleepDuration)`. */
    constructor (msgType: byte, sleepDuration: Short)
      ensures this.msgType == msgType && this.sleepDuration == sleepDuration
    {
      this.msgType := msgType;
      this.sleepDuration := sleepDuration;
    }

    /**
     * `MqttsDisconnect(byte[] data)`: the buffer is not read at all, so the
     * sleep duration keeps its initial value 0 whatever the frame carries.
     */
    constructor FromBytes(msgType: byte, data: array<byte>)
      ensures this.msgType == msgType && sleepDuration == 0
    {
      this.msgType := msgType;
      sleepDuration := 0;
    }

    /** `toBytes()`: the DISCONNECT frame. */
    method ToBytes() returns (r: seq<byte>)
      ensures r == EncodeDisconnect(msgType, sleepDuration)
    {
      var length := 2;
      if sleepDuration > 0 {
        length := 4;
      }
      var data := new byte[length](_ => 0);
      data[0] := length as byte;
      data[1] := msgType;
      if sleepDuration > 0 {
        data[2] := Hi(sleepDuration);
        data[3] := Lo(sleepDuration);
      }
      r := data[..];
    }
  }
}
