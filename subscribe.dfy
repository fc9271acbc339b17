/**
 * SUBSCRIBE (section 5.4 of the MQTT-SN Protocol Specification v1.2):
 * length field, type, flags (DUP, QoS, TopicIdType), MsgId (2 octets) and
 * the topic, which fills the rest of the frame: a full topic name, a
 * 2-octet predefined topic id or a 2-octet short topic name.
 */
module SubscribeCodec {
  import opened Wire
  import opened Frame
  import opened Flags

  /**
   * The fields of a SUBSCRIBE message. Which of topicName,
   * predefinedTopicId and shortTopicName is meaningful depends on
   * topicIdType.
   */
  datatype Subscribe = Subscribe(
    dup: bool, qos: int, topicIdType: int, msgId: int,
    topicName: seq<byte>, predefinedTopicId: int, shortTopicName: seq<byte>)

  /** Header length of the compact form: length, type, flags, MsgId. */
  const Compact := 5

  /** Longest topic name whose frame length still fits the length field. */
  const MaxTopicName := MaxFrameLength - Compact - 2

  /** Every topic selector toBytes can write fits the length field. */
  predicate Encodable(m: Subscribe)
  {
    m.topicIdType == TopicIdTypeName ==> |m.topicName| <= MaxTopicName
  }

  /**
   * The topic octets toBytes writes after the header: the whole topic name,
   * the predefined topic id big-endian, or the first two octets of the
   * short topic name (a shorter one makes the copy fail). Any other
   * TopicIdType fails.
   */
  function TopicOctets(m: Subscribe): (r: Result<seq<byte>>)
    ensures r.Ok? && m.topicIdType != TopicIdTypeName ==> |r.value| == 2
  {
    if m.topicIdType == TopicIdTypeName then Ok(m.topicName)
    else if m.topicIdType == TopicIdTypePredefined then Ok([Hi(m.predefinedTopicId), Lo(m.predefinedTopicId)])
    else if m.topicIdType == TopicIdTypeShort then
      if |m.shortTopicName| < 2 then Err(IndexOutOfBounds) else Ok(m.shortTopicName[..2])
    else Err(UnknownTopicIdType(m.topicIdType))
  }

  /** A SUBSCRIBE frame from its flags octet, MsgId and topic octets. */
  function AssembleSubscribe(msgType: byte, flags: byte, msgId: int, topic: seq<byte>): seq<byte>
    requires |topic| <= MaxTopicName
  {
    var hl := EncodedHeaderLength(|topic|, Compact);
    LengthHeader(hl + |topic|) + [msgType, flags, Hi(msgId), Lo(msgId)] + topic
  }

  /**
   * The octets toBytes produces for `m`, or the exception it raises: an
   * unknown QoS, then an unknown TopicIdType, then a short topic name of
   * fewer than two octets. RETAIN is never set.
   */
  function EncodeSubscribe(msgType: byte, m: Subscribe): (r: Result<seq<byte>>)
    requires Encodable(m)
    ensures r.Ok? <==> && -1 <= m.qos <= 2 && 0 <= m.topicIdType <= 2
                       && (m.topicIdType == TopicIdTypeShort ==> |m.shortTopicName| >= 2)
  {
    match EncodeFlags(m.dup, m.qos, false, m.topicIdType)
    case Err(e) => Err(e)
    case Ok(flags) =>
      match TopicOctets(m)
      case Err(e) => Err(e)
      case Ok(topic) => Ok(AssembleSubscribe(msgType, flags, m.msgId, topic))
  }

  /**
   * The SUBSCRIBE the parsing constructor builds from `data`, or the
   * exception it raises. QoS is the raw pattern of bits 6-5: the source maps
   * a pattern of 4 to -1, which two bits never hold. A topic name takes the
   * octets up to the announced length; a short topic name needs exactly two.
   * A predefined topic id is refused whenever the frame length is not 2, and
   * a frame that reaches that test is at least 5 octets long, so it is always
   * refused. TopicIdType 3 is refused as unknown. Fields that are not read
   * keep their initial values ("", 0, "").
   */
  function DecodeSubscribe(data: seq<byte>): (r: Result<Subscribe>)
    ensures r.Ok? ==> LengthReadable(data) && HeaderLength(data, Compact) <= GetLength(data) <= |data|
    ensures r.Ok? ==> && 0 <= r.value.qos <= 3
                      && 0 <= r.value.msgId < 65536
                      && r.value.predefinedTopicId == 0
                      && (r.value.topicIdType == TopicIdTypeName || r.value.topicIdType == TopicIdTypeShort)
    ensures r.Ok? && r.value.topicIdType == TopicIdTypeName ==>
              |r.value.topicName| == GetLength(data) - HeaderLength(data, Compact) && r.value.shortTopicName == []
    ensures r.Ok? && r.value.topicIdType == TopicIdTypeShort ==>
              |r.value.shortTopicName| == 2 && r.value.topicName == []
    ensures LengthReadable(data) && HeaderLength(data, Compact) <= |data| && HeaderLength(data, Compact) <= GetLength(data) ==>
              var t := TopicIdTypeOf(data[HeaderLength(data, Compact) - 3]);
              && (t == TopicIdTypeName && GetLength(data) <= |data| ==> r.Ok?)
              && (t == TopicIdTypeShort && GetLength(data) - HeaderLength(data, Compact) != 2 ==> r == Err(WrongFormat))
              && (t == 3 ==> r == Err(UnknownTopicIdType(3)))
  {
    if !LengthReadable(data) then Err(IndexOutOfBounds)
    else
      var length := GetLength(data);
      var hl := HeaderLength(data, Compact);
      if |data| < hl then Err(IndexOutOfBounds)
      else
        var flags := data[hl - 3];
        var dup := DupOf(flags);
        var bits := QosFieldOf(flags);
        var qos := if bits == 4 then -1 else bits;
        var topicIdType := TopicIdTypeOf(flags);
        var msgId := U16(data[hl - 2], data[hl - 1]);
        var topicLength := length - hl;
        if topicLength < 0 then Err(IndexOutOfBounds)
        else if topicIdType == TopicIdTypeName then
          if length > |data| then Err(IndexOutOfBounds)
          else Ok(Subscribe(dup, qos, topicIdType, msgId, data[hl..length], 0, []))
        else if topicIdType == TopicIdTypePredefined then
          // the source tests `length != 2`, and here length >= hl >= 5
          Err(WrongFormat)
        else if topicIdType == TopicIdTypeShort then
          if topicLength != 2 then Err(WrongFormat)
          else if length > |data| then Err(IndexOutOfBounds)
          else Ok(Subscribe(dup, qos, topicIdType, msgId, [], 0, data[hl..hl + 2]))
        else Err(UnknownTopicIdType(topicIdType))
  }

  /**
   * Where each part of an assembled SUBSCRIBE frame lands: the type at
   * headerLength-4, the flags at -3, MsgId at -2 and -1, and the topic
   * after the header.
   */
  lemma {:induction false} AssembledSubscribe(msgType: byte, flags: byte, msgId: int, topic: seq<byte>)
    requires |topic| <= MaxTopicName
    ensures var r := AssembleSubscribe(msgType, flags, msgId, topic);
            var hl := EncodedHeaderLength(|topic|, Compact);
            && (hl == 7 <==> |topic| + Compact > 255)
            && |r| == hl + |topic|
            && LengthReadable(r) && GetLength(r) == |r| && HeaderLength(r, Compact) == hl
            && r[hl - 4] == msgType && r[hl - 3] == flags
            && U16(r[hl - 2], r[hl - 1]) == msgId % 65536
            && r[hl..] == topic
  {
    var body := [msgType, flags, Hi(msgId), Lo(msgId)] + topic;
    EncodedFrame(Compact, |topic|, body);
    U16HiLo(msgId);
    var hl := EncodedHeaderLength(|topic|, Compact);
    var r := AssembleSubscribe(msgType, flags, msgId, topic);
    assert r[hl - 4..] == body;
    assert body[4..] == topic;
  }

  /**
   * The layout toBytes writes: a 5-octet header, 7 when the topic plus 5
   * exceeds 255; the total is the header plus the topic; the type sits at
   * headerLength-4, the flags at -3 (DUP, QoS pattern, TopicIdType, RETAIN
   * clear), MsgId's low 16 bits big-endian at -2 and -1, and the topic
   * octets fill the rest.
   */
  lemma {:induction false} SubscribeLayout(msgType: byte, m: Subscribe)
    requires Encodable(m) && EncodeSubscribe(msgType, m).Ok?
    ensures var r := EncodeSubscribe(msgType, m).value;
            var topic := TopicOctets(m).value;
            var hl := EncodedHeaderLength(|topic|, Compact);
            && (hl == 7 <==> |topic| + Compact > 255)
            && |r| == hl + |topic|
            && LengthReadable(r) && GetLength(r) == |r| && HeaderLength(r, Compact) == hl
            && r[hl - 4] == msgType
            && DupOf(r[hl - 3]) == m.dup && QosFieldOf(r[hl - 3]) == QosPattern(m.qos)
            && !RetainOf(r[hl - 3]) && TopicIdTypeOf(r[hl - 3]) == m.topicIdType
            && U16(r[hl - 2], r[hl - 1]) == m.msgId % 65536
            && r[hl..] == topic
  {
    var flags := EncodeFlags(m.dup, m.qos, false, m.topicIdType).value;
    AssembledSubscribe(msgType, flags, m.msgId, TopicOctets(m).value);
  }

  /** What parsing the frame toBytes produces gives back for `m`. */
  function SubscribeAfterRoundTrip(m: Subscribe): Subscribe
    requires m.topicIdType == TopicIdTypeShort ==> |m.shortTopicName| >= 2
  {
    Subscribe(m.dup, m.qos, m.topicIdType, m.msgId % 65536,
              if m.topicIdType == TopicIdTypeName then m.topicName else [],
              0,
              if m.topicIdType == TopicIdTypeShort then m.shortTopicName[..2] else [])
  }

  /**
   * Round trip for a topic name or a short topic name at QoS 0, 1 or 2:
   * parsing what toBytes produces restores DUP, QoS, TopicIdType, the low
   * 16 bits of MsgId and the topic (the first two octets of a short name).
   */
  lemma {:induction false} SubscribeRoundTrip(msgType: byte, m: Subscribe)
    requires Encodable(m) && EncodeSubscribe(msgType, m).Ok?
    requires 0 <= m.qos <= 2 && m.topicIdType != TopicIdTypePredefined
    ensures DecodeSubscribe(EncodeSubscribe(msgType, m).value) == Ok(SubscribeAfterRoundTrip(m))
  {
    SubscribeLayout(msgType, m);
    var r := EncodeSubscribe(msgType, m).value;
    var hl := HeaderLength(r, Compact);
    assert r[hl..|r|] == TopicOctets(m).value;
    if m.topicIdType == TopicIdTypeShort {
      assert r[hl..hl + 2] == m.shortTopicName[..2];
    }
  }

  /**
   * The encoder writes QoS -1 as the pattern 0b11, but the parser keeps the
   * raw pattern: a QoS -1 subscription comes back with QoS 3.
   */
  lemma {:induction false} SubscribeQosMinusOneLost(msgType: byte, m: Subscribe)
    requires Encodable(m) && EncodeSubscribe(msgType, m).Ok?
    requires m.qos == -1 && m.topicIdType != TopicIdTypePredefined
    ensures DecodeSubscribe(EncodeSubscribe(msgType, m).value) == Ok(SubscribeAfterRoundTrip(m).(qos := 3))
  {
    SubscribeLayout(msgType, m);
    var r := EncodeSubscribe(msgType, m).value;
    var hl := HeaderLength(r, Compact);
    assert r[hl..|r|] == TopicOctets(m).value;
    if m.topicIdType == TopicIdTypeShort {
      assert r[hl..hl + 2] == m.shortTopicName[..2];
    }
  }

  /**
   * No frame with TopicIdType 0b01 parses: a SUBSCRIBE to a predefined topic
   * id is refused, including every one that toBytes produces, and a buffer
   * that holds the whole frame is refused with "wrong format".
   */
  lemma PredefinedNeverParses(data: seq<byte>)
    requires LengthReadable(data) && |data| >= HeaderLength(data, Compact)
    requires TopicIdTypeOf(data[HeaderLength(data, Compact) - 3]) == TopicIdTypePredefined
    ensures DecodeSubscribe(data).Err?
    ensures HeaderLength(data, Compact) <= GetLength(data) ==> DecodeSubscribe(data) == Err(WrongFormat)
  {
  }

  /** Every PREDEFINED SUBSCRIBE that toBytes produces is refused by the parser. */
  lemma {:induction false} SubscribePredefinedRejected(msgType: byte, m: Subscribe)
    requires Encodable(m) && EncodeSubscribe(msgType, m).Ok?
    requires m.topicIdType == TopicIdTypePredefined
    ensures DecodeSubscribe(EncodeSubscribe(msgType, m).value) == Err(WrongFormat)
  {
    SubscribeLayout(msgType, m);
    PredefinedNeverParses(EncodeSubscribe(msgType, m).value);
  }

  /**
   * The parser as the protocol intends it: the QoS pattern 0b11 reads as
   * -1, and a predefined topic id is accepted when the topic part is two
   * octets long and read big-endian.
   */
  function DecodeSubscribeIntended(data: seq<byte>): (r: Result<Subscribe>)
    ensures r.Ok? ==> LengthReadable(data) && HeaderLength(data, Compact) <= GetLength(data) <= |data|
    ensures r.Ok? ==> -1 <= r.value.qos <= 2 && 0 <= r.value.topicIdType <= 2
  {
    if !LengthReadable(data) then Err(IndexOutOfBounds)
    else
      var length := GetLength(data);
      var hl := HeaderLength(data, Compact);
      if |data| < hl then Err(IndexOutOfBounds)
      else
        var flags := data[hl - 3];
        var dup := DupOf(flags);
        var qos := QosFromWire(QosFieldOf(flags));
        var topicIdType := TopicIdTypeOf(flags);
        var msgId := U16(data[hl - 2], data[hl - 1]);
        var topicLength := length - hl;
        if topicLength < 0 then Err(IndexOutOfBounds)
        else if topicIdType == TopicIdTypeName then
          if length > |data| then Err(IndexOutOfBounds)
          else Ok(Subscribe(dup, qos, topicIdType, msgId, data[hl..length], 0, []))
        else if topicIdType == TopicIdTypePredefined || topicIdType == TopicIdTypeShort then
          if topicLength != 2 then Err(WrongFormat)
          else if length > |data| then Err(IndexOutOfBounds)
          else if topicIdType == TopicIdTypePredefined then
            Ok(Subscribe(dup, qos, topicIdType, msgId, [], U16(data[hl], data[hl + 1]), []))
          else Ok(Subscribe(dup, qos, topicIdType, msgId, [], 0, data[hl..hl + 2]))
        else Err(UnknownTopicIdType(topicIdType))
  }

  /**
   * With the intended parser, every frame toBytes produces round-trips:
   * every QoS from -1 to 2 and every TopicIdType, the predefined topic id's
   * low 16 bits included.
   */
  lemma {:induction false} SubscribeIntendedRoundTrip(msgType: byte, m: Subscribe)
    requires Encodable(m) && EncodeSubscribe(msgType, m).Ok?
    ensures DecodeSubscribeIntended(EncodeSubscribe(msgType, m).value)
            == Ok(SubscribeAfterRoundTrip(m).(predefinedTopicId :=
                    if m.topicIdType == TopicIdTypePredefined then m.predefinedTopicId % 65536 else 0))
  {
    SubscribeLayout(msgType, m);
    var r := EncodeSubscribe(msgType, m).value;
    var hl := HeaderLength(r, Compact);
    assert r[hl..|r|] == TopicOctets(m).value;
    assert QosFromWire(QosFieldOf(r[hl - 3])) == m.qos;
    if m.topicIdType == TopicIdTypeShort {
      assert r[hl..hl + 2] == m.shortTopicName[..2];
    } else if m.topicIdType == TopicIdTypePredefined {
      U16HiLo(m.predefinedTopicId);
      assert r[hl] == Hi(m.predefinedTopicId) && r[hl + 1] == Lo(m.predefinedTopicId);
    }
  }

  /**
   * The array writes of toBytes once the flags octet and the topic octets
   * are known: the length field, type, flags, MsgId, then the topic.
   */
  method WriteSubscribe(msgType: byte, flags: byte, msgId: int, byteTopicId: seq<byte>) returns (r: seq<byte>)
    requires |byteTopicId| <= MaxTopicName
    ensures r == AssembleSubscribe(msgType, flags, msgId, byteTopicId)
  {
    var headerLength := if |byteTopicId| + 5 > 255 then 7 else 5;
    var length := headerLength + |byteTopicId|;
    var data := new byte[length](_ => 0);
    SetLength(data, length);
    data[headerLength - 4] := msgType;
    data[headerLength - 3] := flags;
    data[headerLength - 2] := Hi(msgId);
    data[headerLength - 1] := Lo(msgId);
    assert data[..headerLength] == LengthHeader(length) + [msgType, flags, Hi(msgId), Lo(msgId)];
    var copied := ArrayCopy(byteTopicId, 0, data, headerLength, |byteTopicId|);
    r := data[..];
  }

  /** An MqttsSubscribe object: the message type and the SUBSCRIBE fields. */
  class MqttsSubscribe {
    const msgType: byte
    var dup: bool
    var qos: int
    var topicIdType: int
    var msgId: int
    /** The topic octets; toBytes and the parsing constructor reassign it. */
    var byteTopicId: seq<byte>
    var topicName: seq<byte>
    var predefinedTopicId: int
    var shortTopicName: seq<byte>

    function Fields(): Subscribe
      reads this
    {
      Subscribe(dup, qos, topicIdType, msgId, topicName, predefinedTopicId, shortTopicName)
    }

    /** `new MqttsSubscribe()` followed by the setters. */
    constructor (msgType: byte, m: Subscribe, byteTopicId: seq<byte>)
      ensures this.msgType == msgType && Fields() == m && this.byteTopicId == byteTopicId
    {
      this.msgType := msgType;
      dup, qos, topicIdType, msgId := m.dup, m.qos, m.topicIdType, m.msgId;
      topicName, predefinedTopicId, shortTopicName := m.topicName, m.predefinedTopicId, m.shortTopicName;
      this.byteTopicId := byteTopicId;
    }

    /**
     * `MqttsSubscribe(byte[] data)`: parses a received SUBSCRIBE, or reports
     * the exception the constructor throws instead of returning an object.
     */
    static method FromBytes(msgType: byte, data: array<byte>) returns (r: Result<MqttsSubscribe>)
      ensures r.Ok? <==> DecodeSubscribe(data[..]).Ok?
      ensures r.Err? ==> r.error == DecodeSubscribe(data[..]).error
      ensures r.Ok? ==> && fresh(r.value) && r.value.msgType == msgType
                        && r.value.Fields() == DecodeSubscribe(data[..]).value
                        && r.value.byteTopicId == data[HeaderLength(data[..], Compact)..GetLength(data[..])]
    {
      if !LengthReadable(data[..]) {
        return Err(IndexOutOfBounds);
      }
      var length := GetLength(data[..]);
      var headerLength := if data[0] == 0x01 then 7 else 5;
      if data.Length < headerLength {
        return Err(IndexOutOfBounds);
      }
      var flags := data[headerLength - 3];
      var dup := DupOf(flags);
      var qos := QosFieldOf(flags);
      if qos == 4 {
        qos := -1;
      }
      var topicIdType := TopicIdTypeOf(flags);
      var msgId := U16(data[headerLength - 2], data[headerLength - 1]);
      var topicLength := length - headerLength;
      if topicLength < 0 {
        return Err(IndexOutOfBounds);
      }
      var topicName, predefinedTopicId, shortTopicName := [], 0, [];
      var byteTopicId: seq<byte>;
      if topicIdType == TopicIdTypeName {
        if length > data.Length {
          return Err(IndexOutOfBounds);
        }
        byteTopicId := data[headerLength..length];
        topicName := byteTopicId;
      } else if topicIdType == TopicIdTypePredefined {
        // the source tests `length != 2`, and here length >= headerLength >= 5
        return Err(WrongFormat);
      } else if topicIdType == TopicIdTypeShort {
        if topicLength != 2 {
          return Err(WrongFormat);
        }
        if length > data.Length {
          return Err(IndexOutOfBounds);
        }
        byteTopicId := data[headerLength..headerLength + 2];
        shortTopicName := byteTopicId;
      } else {
        return Err(UnknownTopicIdType(topicIdType));
      }
      var s := new MqttsSubscribe(msgType,
        Subscribe(dup, qos, topicIdType, msgId, topicName, predefinedTopicId, shortTopicName), byteTopicId);
      r := Ok(s);
    }

    /**
     * `toBytes()`: the SUBSCRIBE frame, or the exception the source raises.
     * Once the flags are built, byteTopicId is reassigned to the topic octets, or
     * to two zero octets when a short topic name is too short to copy.
     */
    method ToBytes() returns (r: Result<seq<byte>>)
      requires Encodable(Fields())
      modifies this`byteTopicId
      ensures r == EncodeSubscribe(msgType, Fields())
      ensures byteTopicId ==
                if !(-1 <= qos <= 2 && 0 <= topicIdType <= 2) then old(byteTopicId)
                else if TopicOctets(Fields()).Ok? then TopicOctets(Fields()).value
                else [0, 0]
    {
      var f := BuildFlags(dup, qos, false, topicIdType);
      if f.Err? {
        return Err(f.error);
      }
      if topicIdType == TopicIdTypeName {
        byteTopicId := topicName;
      } else if topicIdType == TopicIdTypePredefined {
        byteTopicId := [Hi(predefinedTopicId), Lo(predefinedTopicId)];
      } else {
        byteTopicId := [0, 0];
        if |shortTopicName| < 2 {
          return Err(IndexOutOfBounds);
        }
        byteTopicId := shortTopicName[..2];
      }
      var frame := WriteSubscribe(msgType, f.value, msgId, byteTopicId);
      r := Ok(frame);
    }
  }
}
