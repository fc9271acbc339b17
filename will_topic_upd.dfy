/**
 * WILLTOPICUPD (section 5.4 of the MQTT-SN Protocol Specification v1.2):
 * length field, type, flags (QoS and RETAIN only) and the will topic, which
 * fills the rest of the frame. A frame that ends after the type octet asks
 * the gateway to delete the will topic.
 */
module WillTopicUpdCodec {
  import opened Wire
  import opened Frame
  import opened Flags

  /**
   * The fields of a WILLTOPICUPD message. `willTopic` is None where the
   * source's string is null: never set, or left unset by parsing the empty
   * "delete" form.
   */
  datatype WillTopicUpd = WillTopicUpd(qos: int, retain: bool, willTopic: Option<seq<byte>>)

  /** Header length of the compact form: length, type and flags. */
  const Compact := 3

  /** Longest will topic whose frame length still fits the length field. */
  const MaxWillTopic := MaxFrameLength - Compact - 2

  /**
   * The octets toBytes produces for `m`. A null topic fails first (the
   * source reads its length before anything else), then a QoS outside -1..2.
   */
  function EncodeWillTopicUpd(msgType: byte, m: WillTopicUpd): (r: Result<seq<byte>>)
    requires m.willTopic.Some? ==> |m.willTopic.value| <= MaxWillTopic
    ensures r.Ok? <==> m.willTopic.Some? && -1 <= m.qos <= 2
    ensures m.willTopic.None? ==> r == Err(NullField)
    ensures m.willTopic.Some? && !(-1 <= m.qos <= 2) ==> r == Err(UnknownQoS(m.qos))
  {
    match m.willTopic
    case None => Err(NullField)
    case Some(topic) =>
      match EncodeFlags(false, m.qos, m.retain, TopicIdTypeNormal)
      case Err(e) => Err(e)
      case Ok(flags) =>
        var hl := EncodedHeaderLength(|topic|, Compact);
        Ok(LengthHeader(hl + |topic|) + [msgType, flags] + topic)
  }

  /**
   * The WILLTOPICUPD the parsing constructor builds from `data`. QoS, RETAIN
   * and the topic are read only when the frame is longer than its header;
   * otherwise all three keep their initial values (0, false, null). The QoS
   * is the raw pattern of bits 6-5, with no mapping of 0b11 to -1. It fails
   * only where the source raises an array exception.
   */
  function DecodeWillTopicUpd(data: seq<byte>): (r: Result<WillTopicUpd>)
    ensures r.Ok? <==> (LengthReadable(data) &&
                        (GetLength(data) > HeaderLength(data, Compact) ==> GetLength(data) <= |data|))
    ensures r.Ok? ==> (r.value.willTopic.None? <==> GetLength(data) <= HeaderLength(data, Compact))
    ensures r.Ok? && r.value.willTopic.None? ==> r.value.qos == 0 && !r.value.retain
    ensures r.Ok? ==> 0 <= r.value.qos <= 3
  {
    if !LengthReadable(data) then Err(IndexOutOfBounds)
    else
      var length := GetLength(data);
      var hl := HeaderLength(data, Compact);
      if length > hl then
        if length > |data| then Err(IndexOutOfBounds)
        else
          var flags := data[hl - 1];
          Ok(WillTopicUpd(QosFieldOf(flags), RetainOf(flags), Some(data[hl..length])))
      else Ok(WillTopicUpd(0, false, None))
  }

  /**
   * The layout toBytes writes: a 3-octet header, 5 when the topic plus 3
   * exceeds 255; the total is the header plus the topic; the type sits at
   * headerLength-2, a flags octet always at headerLength-1 with the QoS
   * pattern and RETAIN (nothing else), and the topic fills the rest.
   */
  lemma {:induction false} WillTopicUpdLayout(msgType: byte, m: WillTopicUpd)
    requires m.willTopic.Some? && |m.willTopic.value| <= MaxWillTopic
    requires -1 <= m.qos <= 2
    ensures var r := EncodeWillTopicUpd(msgType, m).value;
            var topic := m.willTopic.value;
            var hl := EncodedHeaderLength(|topic|, Compact);
            && (hl == 5 <==> |topic| + Compact > 255)
            && |r| == hl + |topic|
            && LengthReadable(r) && GetLength(r) == |r|
            && r[hl - 2] == msgType
            && QosFieldOf(r[hl - 1]) == QosPattern(m.qos) && RetainOf(r[hl - 1]) == m.retain
            && !DupOf(r[hl - 1]) && TopicIdTypeOf(r[hl - 1]) == 0 && ConnectBitsOf(r[hl - 1]) == 0
            && r[hl..] == topic
  {
    var topic := m.willTopic.value;
    var flags := EncodeFlags(false, m.qos, m.retain, TopicIdTypeNormal).value;
    EncodedFrame(Compact, |topic|, [msgType, flags] + topic);
  }

  /**
   * Round trip for a non-empty topic and QoS 0, 1 or 2: parsing what toBytes
   * produces restores every field.
   */
  lemma {:induction false} WillTopicUpdRoundTrip(msgType: byte, m: WillTopicUpd)
    requires m.willTopic.Some? && 0 < |m.willTopic.value| <= MaxWillTopic
    requires 0 <= m.qos <= 2
    ensures DecodeWillTopicUpd(EncodeWillTopicUpd(msgType, m).value) == Ok(m)
  {
    WillTopicUpdLayout(msgType, m);
    var r := EncodeWillTopicUpd(msgType, m).value;
    var hl := EncodedHeaderLength(|m.willTopic.value|, Compact);
    assert HeaderLength(r, Compact) == hl;
    assert r[hl..|r|] == m.willTopic.value;
  }

  /**
   * An empty topic encodes to a header-only frame, which parses as the
   * "delete" form: the topic comes back null and QoS and RETAIN are lost.
   */
  lemma {:induction false} WillTopicUpdEmptyClears(msgType: byte, m: WillTopicUpd)
    requires m.willTopic == Some([]) && -1 <= m.qos <= 2
    ensures |EncodeWillTopicUpd(msgType, m).value| == Compact
    ensures DecodeWillTopicUpd(EncodeWillTopicUpd(msgType, m).value) == Ok(WillTopicUpd(0, false, None))
  {
    WillTopicUpdLayout(msgType, m);
    var r := EncodeWillTopicUpd(msgType, m).value;
    assert HeaderLength(r, Compact) == Compact;
  }

  /**
   * The encoder writes QoS -1 as the pattern 0b11, but the parser keeps the
   * raw pattern: a QoS -1 will topic comes back with QoS 3.
   */
  lemma {:induction false} WillTopicUpdQosMinusOneLost(msgType: byte, m: WillTopicUpd)
    requires m.willTopic.Some? && 0 < |m.willTopic.value| <= MaxWillTopic
    requires m.qos == -1
    ensures DecodeWillTopicUpd(EncodeWillTopicUpd(msgType, m).value) == Ok(m.(qos := 3))
  {
    WillTopicUpdLayout(msgType, m);
    var r := EncodeWillTopicUpd(msgType, m).value;
    var hl := EncodedHeaderLength(|m.willTopic.value|, Compact);
    assert HeaderLength(r, Compact) == hl;
    assert r[hl..|r|] == m.willTopic.value;
  }

  /**
   * The parser with the sentinel mapping that PUBLISH applies: the QoS
   * pattern 0b11 reads as -1. Everything else as DecodeWillTopicUpd.
   */
  function DecodeWillTopicUpdIntended(data: seq<byte>): (r: Result<WillTopicUpd>)
    ensures r.Ok? ==> -1 <= r.value.qos <= 2
  {
    match DecodeWillTopicUpd(data)
    case Err(e) => Err(e)
    case Ok(m) => Ok(m.(qos := QosFromWire(m.qos)))
  }

  /** With the sentinel mapping, the round trip holds for every valid QoS. */
  lemma {:induction false} WillTopicUpdIntendedRoundTrip(msgType: byte, m: WillTopicUpd)
    requires m.willTopic.Some? && 0 < |m.willTopic.value| <= MaxWillTopic
    requires -1 <= m.qos <= 2
    ensures DecodeWillTopicUpdIntended(EncodeWillTopicUpd(msgType, m).value) == Ok(m)
  {
    if m.qos == -1 {
      WillTopicUpdQosMinusOneLost(msgType, m);
    } else {
      WillTopicUpdRoundTrip(msgType, m);
    }
  }

  /** An MqttsWillTopicUpd object: the message type, QoS, RETAIN and topic. */
  class MqttsWillTopicUpd {
    const msgType: byte
    var qos: int
    var retain: bool
    var willTopic: Option<seq<byte>>

    function Fields(): WillTopicUpd
      reads this
    {
      WillTopicUpd(qos, retain, willTopic)
    }

    /** `new MqttsWillTopicUpd()` followed by the setters. */
    constructor (msgType: byte, qos: int, retain: bool, willTopic: Option<seq<byte>>)
      ensures this.msgType == msgType && Fields() == WillTopicUpd(qos, retain, willTopic)
    {
      this.msgType := msgType;
      this.qos := qos;
      this.retain := retain;
      this.willTopic := willTopic;
    }

    /** `MqttsWillTopicUpd(byte[] data)`: parses a received WILLTOPICUPD. */
    constructor FromBytes(msgType: byte, data: array<byte>)
      requires DecodeWillTopicUpd(data[..]).Ok?
      ensures this.msgType == msgType && Fields() == DecodeWillTopicUpd(data[..]).value
    {
      var length := GetLength(data[..]);
      var headerLength := if data[0] == 0x01 then 5 else 3;
      this.msgType := msgType;
      qos := 0;
      retain := false;
      willTopic := None;
      if length > headerLength {
        qos := QosFieldOf(data[headerLength - 1]);
        retain := RetainOf(data[headerLength - 1]);
        willTopic := Some(data[headerLength..length]);
      }
    }

    /** `toBytes()`: the WILLTOPICUPD frame, or the exception the source raises. */
    method ToBytes() returns (r: Result<seq<byte>>)
      requires willTopic.Some? ==> |willTopic.value| <= MaxWillTopic
      ensures r == EncodeWillTopicUpd(msgType, Fields())
    {
      if willTopic.None? {
        return Err(NullField);
      }
      var topic := willTopic.value;
      var headerLength := if |topic| + 3 > 255 then 5 else 3;
      var length := headerLength + |topic|;
      var data := new byte[length](_ => 0);
      SetLength(data, length);
      var f := BuildFlags(false, qos, retain, TopicIdTypeNormal);
      if f.Err? {
        return Err(f.error);
      }
      var flags := f.value;
      data[headerLength - 2] := msgType;
      data[headerLength - 1] := flags;
      assert data[..headerLength] == LengthHeader(length) + [msgType, flags];
      var copied := ArrayCopy(topic, 0, data, headerLength, |topic|);
      assert data[..] == LengthHeader(length) + [msgType, flags] + topic;
      r := Ok(data[..]);
    }
  }
}
