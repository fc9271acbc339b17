/**
 * The flags octet of section 5.3.4 of the MQTT-SN Protocol Specification
 * v1.2, as PUBLISH, SUBSCRIBE and WILLTOPICUPD use it: DUP in bit 7, QoS in
 * bits 6-5 (0b11 standing for QoS -1), RETAIN in bit 4, TopicIdType in bits
 * 1-0. Bits 3 (Will) and 2 (CleanSession) belong to CONNECT and stay clear.
 */
module Flags {
  import opened Wire

  /** TopicIdType values (the source's NORMAL_TOPIC_ID, TOPIC_NAME,
      PREDIFINED_TOPIC_ID and SHORT_TOPIC_NAME). A full topic name in a
      SUBSCRIBE shares the value of a normal topic id. */
  const TopicIdTypeNormal := 0
  const TopicIdTypeName := 0
  const TopicIdTypePredefined := 1
  const TopicIdTypeShort := 2

  /** `(flags & 0x80) >> 7 != 0`, written as arithmetic on the unsigned octet. */
  function DupOf(flags: byte): bool
  {
    flags / 128 % 2 == 1
  }

  /** `(flags & 0x60) >> 5`: the raw QoS pattern, before any sentinel mapping. */
  function QosFieldOf(flags: byte): (bits: int)
    ensures 0 <= bits <= 3
  {
    (flags / 32 % 4) as int
  }

  /** `(flags & 0x10) >> 4 != 0` */
  function RetainOf(flags: byte): bool
  {
    flags / 16 % 2 == 1
  }

  /** `flags & 0x03` */
  function TopicIdTypeOf(flags: byte): (t: int)
    ensures 0 <= t <= 3
  {
    (flags % 4) as int
  }

  /** Bits 3-2 (Will, CleanSession), which these messages never set. */
  function ConnectBitsOf(flags: byte): int
  {
    (flags / 4 % 4) as int
  }

  /** The sentinel mapping PUBLISH applies after reading the QoS pattern. */
  function QosFromWire(bits: int): (qos: int)
    requires 0 <= bits <= 3
    ensures -1 <= qos <= 2
    ensures qos == -1 <==> bits == 3
  {
    if bits == 3 then -1 else bits
  }

  /** The QoS pattern that encoding a valid QoS leaves in bits 6-5. */
  function QosPattern(qos: int): int
  {
    if qos == -1 then 3 else qos
  }

  /**
   * An octet built from disjoint fields (one DUP bit, two QoS bits, one
   * RETAIN bit, two CONNECT bits, two TopicIdType bits) gives each field back.
   */
  lemma {:induction false} FieldsOfOctet(d: int, q: int, r: int, c: int, t: int)
    requires 0 <= d <= 1 && 0 <= q <= 3 && 0 <= r <= 1 && 0 <= c <= 3 && 0 <= t <= 3
    ensures var f := 128 * d + 32 * q + 16 * r + 4 * c + t;
            && 0 <= f < 256
            && f / 128 % 2 == d && f / 32 % 4 == q && f / 16 % 2 == r
            && f / 4 % 4 == c && f % 4 == t
  {
    var f := 128 * d + 32 * q + 16 * r + 4 * c + t;
    assert f / 128 == d;
    assert f / 32 == 4 * d + q;
    assert f / 16 == 8 * d + 2 * q + r;
    assert f / 4 == 32 * d + 8 * q + 4 * r + c;
  }

  /** Every octet is the sum of its fields. */
  lemma {:induction false} OctetOfFields(flags: byte)
    ensures flags as int == 128 * (flags / 128 % 2) as int + 32 * QosFieldOf(flags)
                            + 16 * (flags / 16 % 2) as int + 4 * ConnectBitsOf(flags) + TopicIdTypeOf(flags)
  {
    var f := flags as int;
    var d := f / 128;
    var rest := f - 128 * d;
    var q := rest / 32;
    rest := rest - 32 * q;
    var r := rest / 16;
    rest := rest - 16 * r;
    var c := rest / 4;
    var t := rest - 4 * c;
    FieldsOfOctet(d, q, r, c, t);
  }

  /**
   * The flags octet of a message with the given DUP, QoS, RETAIN and
   * TopicIdType, as the disjoint bit fields of section 5.3.4: a QoS outside
   * -1..2 fails first, then a TopicIdType outside 0..2. Every field reads
   * back from the octet, and bits 3-2 stay clear.
   */
  function EncodeFlags(dup: bool, qos: int, retain: bool, topicIdType: int): (r: Result<byte>)
    ensures r.Ok? <==> -1 <= qos <= 2 && 0 <= topicIdType <= 2
    ensures r.Err? ==> r.error == if -1 <= qos <= 2 then UnknownTopicIdType(topicIdType) else UnknownQoS(qos)
    ensures r.Ok? ==> && DupOf(r.value) == dup
                      && QosFieldOf(r.value) == QosPattern(qos)
                      && RetainOf(r.value) == retain
                      && TopicIdTypeOf(r.value) == topicIdType
                      && ConnectBitsOf(r.value) == 0
  {
    if !(-1 <= qos <= 2) then Err(UnknownQoS(qos))
    else if !(0 <= topicIdType <= 2) then Err(UnknownTopicIdType(topicIdType))
    else
      var d := if dup then 1 else 0;
      var rt := if retain then 1 else 0;
      FieldsOfOctet(d, QosPattern(qos), rt, 0, topicIdType);
      Ok((128 * d + 32 * QosPattern(qos) + 16 * rt + topicIdType) as byte)
  }

  /**
   * The flags octet as toBytes accumulates it, one `|=` per field, or the
   * exception it raises for an unknown QoS or TopicIdType.
   */
  method BuildFlags(dup: bool, qos: int, retain: bool, topicIdType: int) returns (r: Result<byte>)
    ensures r == EncodeFlags(dup, qos, retain, topicIdType)
  {
    var flags: bv8 := 0;
    if dup {
      flags := flags | 0x80;
    }
    if qos == -1 {
      flags := flags | 0x60;
    } else if qos == 0 {
    } else if qos == 1 {
      flags := flags | 0x20;
    } else if qos == 2 {
      flags := flags | 0x40;
    } else {
      return Err(UnknownQoS(qos));
    }
    if retain {
      flags := flags | 0x10;
    }
    if topicIdType == TopicIdTypeNormal {
    } else if topicIdType == TopicIdTypePredefined {
      flags := flags | 0x01;
    } else if topicIdType == TopicIdTypeShort {
      flags := flags | 0x02;
    } else {
      return Err(UnknownTopicIdType(topicIdType));
    }
    r := Ok(flags as byte);
  }

  /**
   * Conversely, every flags octet with bits 3-2 clear and a TopicIdType
   * other than 3 is the encoding of the fields PUBLISH decodes from it.
   */
  lemma FlagsOfDecoded(flags: byte)
    requires ConnectBitsOf(flags) == 0 && TopicIdTypeOf(flags) != 3
    ensures EncodeFlags(DupOf(flags), QosFromWire(QosFieldOf(flags)), RetainOf(flags), TopicIdTypeOf(flags)) == Ok(flags)
  {
    OctetOfFields(flags);
  }

  /** DUP, QoS 2, RETAIN and a short topic name give the octet 0xD2. */
  lemma FlagsExample()
    ensures EncodeFlags(true, 2, true, TopicIdTypeShort) == Ok(0xD2)
    ensures DupOf(0xD2) && QosFromWire(QosFieldOf(0xD2)) == 2 && RetainOf(0xD2) && TopicIdTypeOf(0xD2) == TopicIdTypeShort
  {
  }
}
