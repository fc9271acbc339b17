/**
 * PUBLISH (section 5.4 of the MQTT-SN Protocol Specification v1.2): length
 * field, type, flags, a 2-octet topic slot (a topic id, or a short topic
 * name held in the slot itself), MsgId (2 octets) and the payload, which
 * fills the rest of the frame.
 */
module PublishCodec {
  import opened Wire
  import opened Frame
  import opened Flags

  /**
   * The fields of a PUBLISH message. Which of topicId and shortTopicName is
   * meaningful depends on topicIdType.
   */
  datatype Publish = Publish(
    dup: bool, qos: int, retain: bool, topicIdType: int,
    topicId: int, shortTopicName: seq<byte>, msgId: int, payload: seq<byte>)

  /** Header length of the compact form: length, type, flags, topic, MsgId. */
  const Compact := 7

  /** Longest payload whose frame length still fits the length field. */
  const MaxPayload := MaxFrameLength - Compact - 2

  /**
   * The two octets toBytes leaves in the topic slot. A short topic name is
   * copied whole from headerLength-4, so a longer name runs over the MsgId
   * and payload octets (which are written afterwards) and a shorter one
   * leaves zeros; the copy fails only when the name runs past the end of the
   * frame. A normal topic id is written big-endian. Any other TopicIdType,
   * the predefined one included, fails.
   */
  function TopicSlot(m: Publish): (r: Result<seq<byte>>)
    ensures r.Ok? ==> |r.value| == 2
  {
    if m.topicIdType == TopicIdTypeShort then
      if |m.shortTopicName| > 4 + |m.payload| then Err(IndexOutOfBounds)
      else Ok((m.shortTopicName + [0, 0])[..2])
    else if m.topicIdType == TopicIdTypeNormal then Ok([Hi(m.topicId), Lo(m.topicId)])
    else Err(UnknownTopicIdType(m.topicIdType))
  }

  /** A PUBLISH frame from its flags octet, topic slot, MsgId and payload. */
  function AssemblePublish(msgType: byte, flags: byte, slot: seq<byte>, msgId: int, payload: seq<byte>): seq<byte>
    requires |payload| <= MaxPayload
  {
    var hl := EncodedHeaderLength(|payload|, Compact);
    LengthHeader(hl + |payload|) + [msgType, flags] + slot + [Hi(msgId), Lo(msgId)] + payload
  }

  /**
   * The octets toBytes produces for `m`, or the exception it raises: an
   * unknown QoS, then an unknown TopicIdType, then a topic slot that cannot
   * be written.
   */
  function EncodePublish(msgType: byte, m: Publish): (r: Result<seq<byte>>)
    requires |m.payload| <= MaxPayload
    ensures r.Ok? <==> && -1 <= m.qos <= 2
                       && (|| m.topicIdType == TopicIdTypeNormal
                           || (m.topicIdType == TopicIdTypeShort && |m.shortTopicName| <= 4 + |m.payload|))
  {
    match EncodeFlags(m.dup, m.qos, m.retain, m.topicIdType)
    case Err(e) => Err(e)
    case Ok(flags) =>
      match TopicSlot(m)
      case Err(e) => Err(e)
      case Ok(slot) => Ok(AssemblePublish(msgType, flags, slot, m.msgId, m.payload))
  }

  /**
   * The PUBLISH the parsing constructor builds from `data`. The QoS pattern
   * 0b11 reads as -1, so the QoS is always one of -1, 0, 1, 2. A normal or
   * predefined topic id is the big-endian value of the slot, a short topic
   * name the slot's two octets; any other TopicIdType (only 3 is left) is
   * accepted and leaves both at their initial values. The payload is exactly
   * the octets between the header and the announced length. It fails only
   * where the source raises an array exception.
   */
  function DecodePublish(data: seq<byte>): (r: Result<Publish>)
    ensures r.Ok? <==> (LengthReadable(data) && HeaderLength(data, Compact) <= GetLength(data) <= |data|)
    ensures r.Ok? ==> && -1 <= r.value.qos <= 2
                      && 0 <= r.value.topicIdType <= 3
                      && 0 <= r.value.topicId < 65536
                      && 0 <= r.value.msgId < 65536
                      && |r.value.payload| == GetLength(data) - HeaderLength(data, Compact)
    ensures r.Ok? ==> (|r.value.shortTopicName| == 2 <==> r.value.topicIdType == TopicIdTypeShort)
  {
    if !LengthReadable(data) then Err(IndexOutOfBounds)
    else
      var hl := HeaderLength(data, Compact);
      var length := GetLength(data);
      if length < hl || length > |data| then Err(IndexOutOfBounds)
      else
        var flags := data[hl - 5];
        var topicIdType := TopicIdTypeOf(flags);
        var slot := data[hl - 4..hl - 2];
        Ok(Publish(
          DupOf(flags), QosFromWire(QosFieldOf(flags)), RetainOf(flags), topicIdType,
          if topicIdType == TopicIdTypeNormal || topicIdType == TopicIdTypePredefined
          then U16(slot[0], slot[1]) else 0,
          if topicIdType == TopicIdTypeShort then slot else [],
          U16(data[hl - 2], data[hl - 1]),
          data[hl..length]))
  }

  /**
   * Where each part of an assembled PUBLISH frame lands: the type at
   * headerLength-6, the flags at -5, the topic slot at -4 and -3, MsgId at
   * -2 and -1, and the payload after the header.
   */
  lemma {:induction false} AssembledPublish(msgType: byte, flags: byte, slot: seq<byte>, msgId: int, payload: seq<byte>)
    requires |payload| <= MaxPayload && |slot| == 2
    ensures var r := AssemblePublish(msgType, flags, slot, msgId, payload);
            var hl := EncodedHeaderLength(|payload|, Compact);
            && (hl == 9 <==> |payload| + Compact > 255)
            && |r| == hl + |payload|
            && LengthReadable(r) && GetLength(r) == |r| && HeaderLength(r, Compact) == hl
            && r[hl - 6] == msgType && r[hl - 5] == flags
            && r[hl - 4..hl - 2] == slot
            && U16(r[hl - 2], r[hl - 1]) == msgId % 65536
            && r[hl..] == payload
  {
    var body := [msgType, flags] + slot + [Hi(msgId), Lo(msgId)] + payload;
    PublishFrame(msgType, flags, slot, msgId, payload);
    PublishBody(msgType, flags, slot, msgId, payload);
    var hl := EncodedHeaderLength(|payload|, Compact);
    var r := AssemblePublish(msgType, flags, slot, msgId, payload);
    assert r[hl - 6] == body[0] && r[hl - 5] == body[1];
    assert r[hl - 4..hl - 2] == body[2..4];
    assert r[hl - 2] == body[4] && r[hl - 1] == body[5];
    assert r[hl..] == body[6..];
  }

  /** An assembled PUBLISH frame reads back its size and header length, and its body follows the length field. */
  lemma {:induction false} PublishFrame(msgType: byte, flags: byte, slot: seq<byte>, msgId: int, payload: seq<byte>)
    requires |payload| <= MaxPayload && |slot| == 2
    ensures var r := AssemblePublish(msgType, flags, slot, msgId, payload);
            var hl := EncodedHeaderLength(|payload|, Compact);
            && (hl == 9 <==> |payload| + Compact > 255)
            && |r| == hl + |payload|
            && LengthReadable(r) && GetLength(r) == |r| && HeaderLength(r, Compact) == hl
            && r[hl - 6..] == [msgType, flags] + slot + [Hi(msgId), Lo(msgId)] + payload
  {
    EncodedFrame(Compact, |payload|, [msgType, flags] + slot + [Hi(msgId), Lo(msgId)] + payload);
  }

  /** The body of a PUBLISH frame after its length field, octet by octet. */
  lemma {:induction false} PublishBody(msgType: byte, flags: byte, slot: seq<byte>, msgId: int, payload: seq<byte>)
    requires |slot| == 2
    ensures var body := [msgType, flags] + slot + [Hi(msgId), Lo(msgId)] + payload;
            && |body| == 6 + |payload|
            && body[0] == msgType && body[1] == flags && body[2..4] == slot
            && U16(body[4], body[5]) == msgId % 65536
            && body[6..] == payload
  {
    var body := [msgType, flags] + slot + [Hi(msgId), Lo(msgId)] + payload;
    U16HiLo(msgId);
    assert body[2..4] == slot;
    assert body[4] == Hi(msgId) && body[5] == Lo(msgId);
    assert body[6..] == payload;
  }

  /**
   * The layout toBytes writes: a 7-octet header, 9 when the payload plus 7
   * exceeds 255; the total is the header plus the payload; the type sits at
   * headerLength-6, the flags at -5 (DUP, QoS pattern, RETAIN, TopicIdType),
   * the topic slot at -4 and -3, MsgId's low 16 bits big-endian at -2 and
   * -1, and the payload fills the rest.
   */
  lemma {:induction false} PublishLayout(msgType: byte, m: Publish)
    requires |m.payload| <= MaxPayload
    requires EncodePublish(msgType, m).Ok?
    ensures var r := EncodePublish(msgType, m).value;
            var hl := EncodedHeaderLength(|m.payload|, Compact);
            && (hl == 9 <==> |m.payload| + Compact > 255)
            && |r| == hl + |m.payload|
            && LengthReadable(r) && GetLength(r) == |r| && HeaderLength(r, Compact) == hl
            && r[hl - 6] == msgType
            && DupOf(r[hl - 5]) == m.dup && QosFieldOf(r[hl - 5]) == QosPattern(m.qos)
            && RetainOf(r[hl - 5]) == m.retain && TopicIdTypeOf(r[hl - 5]) == m.topicIdType
            && r[hl - 4..hl - 2] == TopicSlot(m).value
            && U16(r[hl - 2], r[hl - 1]) == m.msgId % 65536
            && r[hl..] == m.payload
  {
    var flags := EncodeFlags(m.dup, m.qos, m.retain, m.topicIdType).value;
    AssembledPublish(msgType, flags, TopicSlot(m).value, m.msgId, m.payload);
  }

  /** Parsing a frame that fills its buffer reads each field at its place. */
  lemma {:induction false} DecodeWholePublish(r: seq<byte>)
    requires LengthReadable(r) && GetLength(r) == |r| && HeaderLength(r, Compact) <= |r|
    ensures var hl := HeaderLength(r, Compact);
            var flags := r[hl - 5];
            var t := TopicIdTypeOf(flags);
            DecodePublish(r) == Ok(Publish(
              DupOf(flags), QosFromWire(QosFieldOf(flags)), RetainOf(flags), t,
              if t == TopicIdTypeNormal || t == TopicIdTypePredefined then U16(r[hl - 4], r[hl - 3]) else 0,
              if t == TopicIdTypeShort then r[hl - 4..hl - 2] else [],
              U16(r[hl - 2], r[hl - 1]), r[hl..]))
  {
    var hl := HeaderLength(r, Compact);
    assert r[hl..GetLength(r)] == r[hl..];
  }

  /**
   * What parsing the frame toBytes produces gives back for `m`: the ids
   * exactly when they fit in 16 bits, a 2-octet short topic name exactly,
   * and for the topic field that the TopicIdType does not use, its initial
   * value.
   */
  function PublishAfterRoundTrip(m: Publish): (a: Publish)
    ensures m.topicIdType == TopicIdTypeShort && |m.shortTopicName| == 2 ==> a.shortTopicName == m.shortTopicName
    ensures m.topicIdType == TopicIdTypeNormal && 0 <= m.topicId < 65536 ==> a.topicId == m.topicId
    ensures 0 <= m.msgId < 65536 ==> a.msgId == m.msgId
  {
    Publish(m.dup, m.qos, m.retain, m.topicIdType,
            if m.topicIdType == TopicIdTypeNormal then m.topicId % 65536 else 0,
            if m.topicIdType == TopicIdTypeShort then (m.shortTopicName + [0, 0])[..2] else [],
            m.msgId % 65536, m.payload)
  }

  /**
   * Round trip: whenever toBytes succeeds, parsing its frame restores DUP,
   * QoS (-1 included), RETAIN, TopicIdType and the payload, the low 16 bits
   * of the topic id and MsgId, and the first two octets of a short topic
   * name; so every meaningful field when the ids fit in 16 bits and a short
   * topic name has two octets.
   */
  lemma {:induction false} PublishRoundTrip(msgType: byte, m: Publish)
    requires |m.payload| <= MaxPayload
    requires EncodePublish(msgType, m).Ok?
    ensures DecodePublish(EncodePublish(msgType, m).value) == Ok(PublishAfterRoundTrip(m))
  {
    var r := EncodePublish(msgType, m).value;
    PublishReadBack(msgType, m);
    DecodeWholePublish(r);
  }

  /** The fields of an encoded PUBLISH as the parser reads them back. */
  lemma {:induction false} PublishReadBack(msgType: byte, m: Publish)
    requires |m.payload| <= MaxPayload
    requires EncodePublish(msgType, m).Ok?
    ensures var r := EncodePublish(msgType, m).value;
            && LengthReadable(r) && GetLength(r) == |r| && HeaderLength(r, Compact) <= |r|
            && var hl := HeaderLength(r, Compact);
               && DupOf(r[hl - 5]) == m.dup && QosFromWire(QosFieldOf(r[hl - 5])) == m.qos
               && RetainOf(r[hl - 5]) == m.retain && TopicIdTypeOf(r[hl - 5]) == m.topicIdType
               && (m.topicIdType == TopicIdTypeNormal ==> U16(r[hl - 4], r[hl - 3]) == m.topicId % 65536)
               && (m.topicIdType == TopicIdTypeShort ==> r[hl - 4..hl - 2] == (m.shortTopicName + [0, 0])[..2])
               && U16(r[hl - 2], r[hl - 1]) == m.msgId % 65536
               && r[hl..] == m.payload
  {
    PublishLayout(msgType, m);
    var r := EncodePublish(msgType, m).value;
    var hl := HeaderLength(r, Compact);
    var slot := r[hl - 4..hl - 2];
    assert slot == TopicSlot(m).value;
    if m.topicIdType == TopicIdTypeNormal {
      U16HiLo(m.topicId);
      assert U16(slot[0], slot[1]) == m.topicId % 65536;
    }
  }

  /**
   * A predefined topic id passes the flags step (it sets TopicIdType 0b01)
   * but toBytes then refuses it when it fills the topic slot.
   */
  lemma PublishPredefinedRejected(msgType: byte, m: Publish)
    requires |m.payload| <= MaxPayload
    requires -1 <= m.qos <= 2 && m.topicIdType == TopicIdTypePredefined
    ensures EncodeFlags(m.dup, m.qos, m.retain, m.topicIdType).Ok?
    ensures EncodePublish(msgType, m) == Err(UnknownTopicIdType(TopicIdTypePredefined))
  {
  }

  /** The topic slot written as the protocol intends: a predefined topic id like a normal one. */
  function TopicSlotIntended(m: Publish): (r: Result<seq<byte>>)
    ensures r.Ok? ==> |r.value| == 2
  {
    if m.topicIdType == TopicIdTypePredefined then Ok([Hi(m.topicId), Lo(m.topicId)])
    else TopicSlot(m)
  }

  /** toBytes with the intended topic slot. */
  function EncodePublishIntended(msgType: byte, m: Publish): (r: Result<seq<byte>>)
    requires |m.payload| <= MaxPayload
    ensures m.topicIdType != TopicIdTypePredefined ==> r == EncodePublish(msgType, m)
  {
    match EncodeFlags(m.dup, m.qos, m.retain, m.topicIdType)
    case Err(e) => Err(e)
    case Ok(flags) =>
      match TopicSlotIntended(m)
      case Err(e) => Err(e)
      case Ok(slot) => Ok(AssemblePublish(msgType, flags, slot, m.msgId, m.payload))
  }

  /**
   * With the intended topic slot, a PUBLISH to a predefined topic id
   * encodes, and parsing it restores the id's low 16 bits with every other
   * field.
   */
  lemma {:induction false} PublishIntendedPredefinedRoundTrip(msgType: byte, m: Publish)
    requires |m.payload| <= MaxPayload
    requires -1 <= m.qos <= 2 && m.topicIdType == TopicIdTypePredefined
    ensures EncodePublishIntended(msgType, m).Ok?
    ensures DecodePublish(EncodePublishIntended(msgType, m).value)
            == Ok(PublishAfterRoundTrip(m).(topicId := m.topicId % 65536))
  {
    var flags := EncodeFlags(m.dup, m.qos, m.retain, m.topicIdType).value;
    var slot := [Hi(m.topicId), Lo(m.topicId)];
    AssembledPublish(msgType, flags, slot, m.msgId, m.payload);
    U16HiLo(m.topicId);
    var r := EncodePublishIntended(msgType, m).value;
    DecodeWholePublish(r);
    var hl := HeaderLength(r, Compact);
    assert r[hl - 4..hl - 2] == slot;
    assert QosFromWire(QosFieldOf(r[hl - 5])) == m.qos;
  }

  /**
   * `System.arraycopy(byteTopicId, 0, data, pos, byteTopicId.length)` over a
   * zeroed 2-octet slot: it fails when the octets run past the end of
   * `data`; otherwise the slot holds the first two of them, zero-padded, and
   * the octets before the slot are kept.
   */
  method CopyIntoSlot(byteTopicId: seq<byte>, data: array<byte>, pos: int) returns (ok: bool)
    requires 0 <= pos && pos + 2 <= data.Length && data[pos] == 0 && data[pos + 1] == 0
    modifies data
    ensures ok == (|byteTopicId| <= data.Length - pos)
    ensures ok ==> data[..pos + 2] == old(data[..pos]) + (byteTopicId + [0, 0])[..2]
  {
    ok := ArrayCopy(byteTopicId, 0, data, pos, |byteTopicId|);
    if ok {
      ghost var slot := (byteTopicId + [0, 0])[..2];
      if |byteTopicId| == 0 {
      } else if |byteTopicId| == 1 {
        assert data[pos] == byteTopicId[0];
      } else {
        assert data[pos] == byteTopicId[0] && data[pos + 1] == byteTopicId[1];
      }
      assert data[pos] == slot[0] && data[pos + 1] == slot[1];
    }
  }

  /**
   * The array writes of toBytes once the flags octet and the topic octets
   * are known: the length field, type and flags, the topic octets copied
   * whole from headerLength-4, then MsgId and the payload, which overwrite
   * whatever a long topic spilled. Fails where that copy leaves the frame.
   */
  method WritePublish(msgType: byte, flags: byte, byteTopicId: seq<byte>, msgId: int, payload: seq<byte>)
    returns (r: Result<seq<byte>>)
    requires |payload| <= MaxPayload
    ensures r == if |byteTopicId| > 4 + |payload| then Err(IndexOutOfBounds)
                 else Ok(AssemblePublish(msgType, flags, (byteTopicId + [0, 0])[..2], msgId, payload))
  {
    var headerLength := if |payload| + 7 > 255 then 9 else 7;
    var length := |payload| + headerLength;
    var data := new byte[length](_ => 0);
    SetLength(data, length);
    assert |LengthHeader(length)| == headerLength - 6;
    data[headerLength - 6] := msgType;
    data[headerLength - 5] := flags;
    ghost var header := data[..headerLength - 4];
    assert header == LengthHeader(length) + [msgType, flags];
    var ok := CopyIntoSlot(byteTopicId, data, headerLength - 4);
    if !ok {
      return Err(IndexOutOfBounds);
    }
    ghost var slot := (byteTopicId + [0, 0])[..2];
    assert data[..headerLength - 2] == header + slot;
    data[headerLength - 2] := Hi(msgId);
    data[headerLength - 1] := Lo(msgId);
    assert data[..headerLength] == header + slot + [Hi(msgId), Lo(msgId)];
    ok := ArrayCopy(payload, 0, data, headerLength, |payload|);
    assert data[..] == header + slot + [Hi(msgId), Lo(msgId)] + payload;
    r := Ok(data[..]);
  }

  /** An MqttsPublish object: the message type and the PUBLISH fields. */
  class MqttsPublish {
    const msgType: byte
    var dup: bool
    var qos: int
    var retain: bool
    var topicIdType: int
    /** The topic slot octets; toBytes and the parsing constructor reassign it. */
    var byteTopicId: seq<byte>
    var msgId: int
    var pubData: seq<byte>
    var topicId: int
    var shortTopicName: seq<byte>

    function Fields(): Publish
      reads this
    {
      Publish(dup, qos, retain, topicIdType, topicId, shortTopicName, msgId, pubData)
    }

    /** `new MqttsPublish()` followed by the setters. */
    constructor (msgType: byte, m: Publish)
      ensures this.msgType == msgType && Fields() == m && byteTopicId == []
    {
      this.msgType := msgType;
      dup, qos, retain, topicIdType := m.dup, m.qos, m.retain, m.topicIdType;
      topicId, shortTopicName, msgId, pubData := m.topicId, m.shortTopicName, m.msgId, m.payload;
      byteTopicId := [];
    }

    /** `MqttsPublish(byte[] data)`: parses a received PUBLISH. */
    constructor FromBytes(msgType: byte, data: array<byte>)
      requires DecodePublish(data[..]).Ok?
      ensures this.msgType == msgType && Fields() == DecodePublish(data[..]).value
      ensures byteTopicId == data[HeaderLength(data[..], Compact) - 4..HeaderLength(data[..], Compact) - 2]
    {
      var headerLength := if data[0] == 0x01 then 9 else 7;
      var length := GetLength(data[..]);
      this.msgType := msgType;
      var flags := data[headerLength - 5];
      dup := DupOf(flags);
      var q := QosFieldOf(flags);
      if q == 3 {
        q := -1;
      }
      qos := q;
      retain := RetainOf(flags);
      var tit := TopicIdTypeOf(flags);
      topicIdType := tit;
      var slot := [data[headerLength - 4], data[headerLength - 3]];
      byteTopicId := slot;
      var id, name := 0, [];
      if tit == TopicIdTypeShort {
        name := slot;
      } else if tit == TopicIdTypeNormal || tit == TopicIdTypePredefined {
        id := U16(slot[0], slot[1]);
      }
      topicId, shortTopicName := id, name;
      msgId := U16(data[headerLength - 2], data[headerLength - 1]);
      pubData := data[headerLength..length];
    }

    /**
     * `toBytes()`: the PUBLISH frame, or the exception the source raises.
     * Once the flags are built, byteTopicId is reassigned: the short topic
     * name, the two octets of a normal topic id, or two zero octets when the
     * TopicIdType is then refused.
     */
    method ToBytes() returns (r: Result<seq<byte>>)
      requires |pubData| <= MaxPayload
      modifies this`byteTopicId
      ensures r == EncodePublish(msgType, Fields())
      ensures byteTopicId ==
                if EncodeFlags(dup, qos, retain, topicIdType).Err? then old(byteTopicId)
                else if topicIdType == TopicIdTypeShort then shortTopicName
                else if topicIdType == TopicIdTypeNormal then [Hi(topicId), Lo(topicId)]
                else [0, 0]
    {
      var f := BuildFlags(dup, qos, retain, topicIdType);
      if f.Err? {
        return Err(f.error);
      }
      var flags := f.value;

      byteTopicId := [0, 0];
      if topicIdType == TopicIdTypeShort {
        byteTopicId := shortTopicName;
      } else if topicIdType == TopicIdTypeNormal {
        byteTopicId := [Hi(topicId), Lo(topicId)];
      } else {
        return Err(UnknownTopicIdType(topicIdType));
      }
      r := WritePublish(msgType, flags, byteTopicId, msgId, pubData);
    }
  }
}
