# MQTT-SN message codec

A Dafny model of the MQTT-SN message codec of the Eclipse Paho MQTT-SN UDP
client. It covers seven message classes: SUBSCRIBE, PUBLISH, REGISTER,
WILLTOPICUPD, WILLMSG, WILLMSGUPD and DISCONNECT. Each class does two jobs:

- `toBytes()` allocates a frame and writes it at fixed offsets from
  `headerLength`: the length field, the type octet, a flags octet,
  big-endian 16-bit fields and a variable tail.
- The constructor taking `byte[]` reads the same fields back.

The formats follow the MQTT-SN Protocol Specification v1.2:

- section 5.2.2 (the length field);
- section 5.3.4 (the flags octet);
- section 5.4 (the message formats).

The project has these modules:

- `Wire` (`wire.dfy`): octets, the 16-bit big-endian split, the error outcomes, and `System.arraycopy` as an in-place array loop.
- `Frame` (`frame.dfy`): the one- or three-octet length field (`getLength`, `setLength`) and the header-length choice.
- `Flags` (`flags.dfy`): the flags octet. It has the arithmetic reference definition `EncodeFlags` and the `|=` accumulation `BuildFlags` of the source, proved equal.
- One module per message: `SubscribeCodec`, `PublishCodec`, `RegisterCodec`, `WillTopicUpdCodec`, `WillMsgCodec` (WILLMSG and WILLMSGUPD) and `DisconnectCodec`.

Each message module has the same parts:

- A value datatype of the message's fields.
- A pure `Encode…` / `Decode…` pair as the reference definition. Decoding returns `Err` wherever the source throws.
- Lemmas: the layout of an encoded frame, the round trip, and the source's quirks.
- A `class` mirroring the Java object. Its parsing constructor (`FromBytes`) assigns the fields. Its `ToBytes` method fills a fresh `array` by index writes and copy loops, and is proved equal to the reference encoding.

## Model

| member | source | states |
|---|---|---|
| Wire.U16HiLo | src/main/java/org/eclipse/paho/mqttsn/udpclient/messages/mqttsn/MqttsRegister.java:76-79 | writing a value as `(x >> 8) & 0xFF`, `x & 0xFF` and reading it back with `((hi & 0xFF) << 8) + (lo & 0xFF)` gives its low 16 bits |
| Wire.HiLoU16 | src/main/java/org/eclipse/paho/mqttsn/udpclient/messages/mqttsn/MqttsRegister.java:53-54 | the two octets are recovered from the big-endian value read from them |
| Wire.U16 | src/main/java/org/eclipse/paho/mqttsn/udpclient/messages/mqttsn/MqttsRegister.java:53-54 | the big-endian value of two octets lies in 0..65535 |
| Wire.ArrayCopy | src/main/java/org/eclipse/paho/mqttsn/udpclient/messages/mqttsn/MqttsRegister.java:80 | `System.arraycopy` succeeds exactly when both ranges fit; then the destination range holds the source octets and the rest is unchanged, otherwise nothing changes |
| Frame.GetLength | src/main/java/org/eclipse/paho/mqttsn/udpclient/messages/mqttsn/MqttsRegister.java:48-49 | the announced length lies in 0..65535, and in 0..255 in the one-octet form |
| Frame.HeaderLength | src/main/java/org/eclipse/paho/mqttsn/udpclient/messages/mqttsn/MqttsRegister.java:49 | a received header is the compact size, or 2 more when octet 0 is 0x01 |
| Frame.EncodedHeaderLength | src/main/java/org/eclipse/paho/mqttsn/udpclient/messages/mqttsn/MqttsRegister.java:69-72 | an encoder's header is the compact size, or 2 more |
| Frame.EncodedFrame | src/main/java/org/eclipse/paho/mqttsn/udpclient/messages/mqttsn/MqttsRegister.java:69-74 | a frame built with the encoder's header choice announces its own size, is extended exactly when it exceeds 255 octets, selects the same header length when parsed, and carries its body after the length field |
| Frame.SetLength | src/main/java/org/eclipse/paho/mqttsn/udpclient/messages/mqttsn/MqttsRegister.java:74 | `setLength` writes `[len]` or `[0x01, hi, lo]` at the start of the buffer and leaves every other octet as it was |
| Flags.QosFieldOf | src/main/java/org/eclipse/paho/mqttsn/udpclient/messages/mqttsn/MqttsPublish.java:63 | the raw QoS pattern `(flags & 0x60) >> 5` lies in 0..3 |
| Flags.TopicIdTypeOf | src/main/java/org/eclipse/paho/mqttsn/udpclient/messages/mqttsn/MqttsPublish.java:66 | the TopicIdType `flags & 0x03` lies in 0..3 |
| Flags.QosFromWire | src/main/java/org/eclipse/paho/mqttsn/udpclient/messages/mqttsn/MqttsPublish.java:63-64 | after the sentinel mapping the QoS lies in -1..2, and it is -1 exactly for the pattern 3 |
| Flags.FieldsOfOctet | src/main/java/org/eclipse/paho/mqttsn/udpclient/messages/mqttsn/MqttsPublish.java:92-120 | an octet built from disjoint DUP, QoS, RETAIN, Will/CleanSession and TopicIdType fields gives each field back |
| Flags.OctetOfFields | src/main/java/org/eclipse/paho/mqttsn/udpclient/messages/mqttsn/MqttsPublish.java:62-66 | every octet equals the sum of its decoded fields |
| Flags.EncodeFlags | src/main/java/org/eclipse/paho/mqttsn/udpclient/messages/mqttsn/MqttsPublish.java:92-120 | it succeeds exactly for QoS -1..2 and TopicIdType 0..2; otherwise it fails with "unknown QoS" first, then "unknown topic id type"; the octet decodes back to DUP, the QoS pattern, RETAIN and TopicIdType, with bits 3-2 clear |
| Flags.BuildFlags | src/main/java/org/eclipse/paho/mqttsn/udpclient/messages/mqttsn/MqttsPublish.java:92-120 | the `|=` accumulation of 0x80, 0x60/0x20/0x40, 0x10 and 0x01/0x02, with its two throws, is exactly EncodeFlags |
| Flags.FlagsOfDecoded | src/main/java/org/eclipse/paho/mqttsn/udpclient/messages/mqttsn/MqttsPublish.java:62-66 | conversely, an octet with bits 3-2 clear and TopicIdType other than 3 is the encoding of the DUP, QoS (3 read as -1), RETAIN and TopicIdType that PUBLISH decodes from it |
| Flags.FlagsExample | src/main/java/org/eclipse/paho/mqttsn/udpclient/messages/mqttsn/MqttsPublish.java:92-120 | DUP, QoS 2, RETAIN and a short topic name give 0xD2, which decodes back |
| RegisterCodec.DecodeRegister | src/main/java/org/eclipse/paho/mqttsn/udpclient/messages/mqttsn/MqttsRegister.java:47-62 | parsing succeeds exactly when the length field is readable and the announced length lies between the header size and the buffer size; TopicId and MsgId are then in 0..65535 |
| RegisterCodec.RegisterLayout | src/main/java/org/eclipse/paho/mqttsn/udpclient/messages/mqttsn/MqttsRegister.java:68-82 | the header is 6 octets, or 8 exactly when 6 plus the name exceeds 255; total = header + name; type at headerLength-5; the low 16 bits of TopicId and MsgId big-endian at -4/-3 and -2/-1; the name from headerLength |
| RegisterCodec.RegisterRoundTrip | src/main/java/org/eclipse/paho/mqttsn/udpclient/messages/mqttsn/MqttsRegister.java:47-82 | parsing the encoding gives back the name and the low 16 bits of both ids |
| RegisterCodec.RegisterRoundTripExact | src/main/java/org/eclipse/paho/mqttsn/udpclient/messages/mqttsn/MqttsRegister.java:47-82 | with both ids in 16 bits, parsing the encoding gives back the message; the parser reads TopicId from the wire (lines 51-53), so a nonzero gateway-assigned id survives |
| RegisterCodec.MqttsRegister.constructor | src/main/java/org/eclipse/paho/mqttsn/udpclient/messages/mqttsn/MqttsRegister.java:38-40 | a new object holds the given type and fields |
| RegisterCodec.MqttsRegister.FromBytes | src/main/java/org/eclipse/paho/mqttsn/udpclient/messages/mqttsn/MqttsRegister.java:47-62 | the parsing constructor's field assignments give exactly DecodeRegister of the buffer |
| RegisterCodec.MqttsRegister.ToBytes | src/main/java/org/eclipse/paho/mqttsn/udpclient/messages/mqttsn/MqttsRegister.java:68-82 | the array writes produce exactly EncodeRegister of the object's fields |
| WillMsgCodec.DecodeWillMsg | src/main/java/org/eclipse/paho/mqttsn/udpclient/messages/mqttsn/MqttsWillMsg.java:46-55 | parsing succeeds exactly when the length field is readable and the announced length lies between the header size and the buffer size; the message is then `length - headerLength` octets long |
| WillMsgCodec.WillMsgLayout | src/main/java/org/eclipse/paho/mqttsn/udpclient/messages/mqttsn/MqttsWillMsg.java:62-69 | the header is 2 octets, or 4 exactly when the message plus 2 exceeds 255; total = header + message; type at headerLength-1; the message from headerLength |
| WillMsgCodec.WillMsgRoundTrip | src/main/java/org/eclipse/paho/mqttsn/udpclient/messages/mqttsn/MqttsWillMsg.java:46-69 | parsing the encoding gives back the will message |
| WillMsgCodec.WriteWillMsg | src/main/java/org/eclipse/paho/mqttsn/udpclient/messages/mqttsn/MqttsWillMsg.java:62-69 | the allocation, setLength, type write and copy produce exactly EncodeWillMsg |
| WillMsgCodec.MqttsWillMsg.constructor | src/main/java/org/eclipse/paho/mqttsn/udpclient/messages/mqttsn/MqttsWillMsg.java:37-39 | a new object holds the given type and will message |
| WillMsgCodec.MqttsWillMsg.FromBytes | src/main/java/org/eclipse/paho/mqttsn/udpclient/messages/mqttsn/MqttsWillMsg.java:46-55 | the parsed will message is exactly DecodeWillMsg of the buffer |
| WillMsgCodec.MqttsWillMsg.ToBytes | src/main/java/org/eclipse/paho/mqttsn/udpclient/messages/mqttsn/MqttsWillMsg.java:62-69 | the WILLMSG frame is exactly EncodeWillMsg of the type and will message |
| WillMsgCodec.MqttsWillMsgUpd.constructor | src/main/java/org/eclipse/paho/mqttsn/udpclient/messages/mqttsn/MqttsWillMsgUpd.java:37-39 | a new object holds the given type and will message |
| WillMsgCodec.MqttsWillMsgUpd.FromBytes | src/main/java/org/eclipse/paho/mqttsn/udpclient/messages/mqttsn/MqttsWillMsgUpd.java:46-55 | the parsed will message is exactly DecodeWillMsg of the buffer |
| WillMsgCodec.MqttsWillMsgUpd.ToBytes | src/main/java/org/eclipse/paho/mqttsn/udpclient/messages/mqttsn/MqttsWillMsgUpd.java:61-68 | the WILLMSGUPD frame is exactly EncodeWillMsg of the type and will message |
| WillTopicUpdCodec.EncodeWillTopicUpd | src/main/java/org/eclipse/paho/mqttsn/udpclient/messages/mqttsn/MqttsWillTopicUpd.java:67-91 | encoding succeeds exactly for a set topic and QoS -1..2; a null topic fails first, then an unknown QoS |
| WillTopicUpdCodec.DecodeWillTopicUpd | src/main/java/org/eclipse/paho/mqttsn/udpclient/messages/mqttsn/MqttsWillTopicUpd.java:48-61 | parsing fails only on an unreadable length field or a frame longer than its buffer; the topic is unset exactly when the frame ends after its header, and then QoS and RETAIN keep 0 and false; the QoS is the raw pattern 0..3 |
| WillTopicUpdCodec.WillTopicUpdLayout | src/main/java/org/eclipse/paho/mqttsn/udpclient/messages/mqttsn/MqttsWillTopicUpd.java:67-91 | the header is 3 octets, or 5 exactly when the topic plus 3 exceeds 255; total = header + topic; type at headerLength-2; a flags octet always at -1 holding the QoS pattern and RETAIN and no other bit; the topic from headerLength |
| WillTopicUpdCodec.WillTopicUpdRoundTrip | src/main/java/org/eclipse/paho/mqttsn/udpclient/messages/mqttsn/MqttsWillTopicUpd.java:48-91 | for a non-empty topic and QoS 0..2, parsing the encoding gives back the message |
| WillTopicUpdCodec.WillTopicUpdEmptyClears | src/main/java/org/eclipse/paho/mqttsn/udpclient/messages/mqttsn/MqttsWillTopicUpd.java:48-91 | an empty topic encodes to a 3-octet frame that parses as the "delete" form: unset topic, QoS 0, RETAIN false |
| WillTopicUpdCodec.WillTopicUpdQosMinusOneLost | src/main/java/org/eclipse/paho/mqttsn/udpclient/messages/mqttsn/MqttsWillTopicUpd.java:53-73 | a QoS -1 will topic is written with the pattern 0b11 and parses back with QoS 3 |
| WillTopicUpdCodec.DecodeWillTopicUpdIntended | src/main/java/org/eclipse/paho/mqttsn/udpclient/messages/mqttsn/MqttsWillTopicUpd.java:48-61 | with the sentinel mapping that PUBLISH applies, a parsed QoS lies in -1..2 |
| WillTopicUpdCodec.WillTopicUpdIntendedRoundTrip | src/main/java/org/eclipse/paho/mqttsn/udpclient/messages/mqttsn/MqttsWillTopicUpd.java:48-91 | with the sentinel mapping, the round trip holds for every QoS -1..2 |
| WillTopicUpdCodec.MqttsWillTopicUpd.constructor | src/main/java/org/eclipse/paho/mqttsn/udpclient/messages/mqttsn/MqttsWillTopicUpd.java:39-41 | a new object holds the given type and fields |
| WillTopicUpdCodec.MqttsWillTopicUpd.FromBytes | src/main/java/org/eclipse/paho/mqttsn/udpclient/messages/mqttsn/MqttsWillTopicUpd.java:48-61 | the conditional field assignments give exactly DecodeWillTopicUpd of the buffer |
| WillTopicUpdCodec.MqttsWillTopicUpd.ToBytes | src/main/java/org/eclipse/paho/mqttsn/udpclient/messages/mqttsn/MqttsWillTopicUpd.java:67-91 | the array writes and `|=` flags produce exactly EncodeWillTopicUpd of the fields, including its failures |
| DisconnectCodec.DisconnectLayout | src/main/java/org/eclipse/paho/mqttsn/udpclient/messages/mqttsn/MqttsDisconnect.java:53-64 | the frame is 4 octets exactly for a positive sleep duration and 2 otherwise; octet 0 is the one-octet length, octet 1 the type; a positive duration is big-endian in octets 2-3 |
| DisconnectCodec.DisconnectExamples | src/main/java/org/eclipse/paho/mqttsn/udpclient/messages/mqttsn/MqttsDisconnect.java:53-64 | 300 s is sent as 0x01, 0x2C; a zero duration adds nothing after the type |
| DisconnectCodec.MqttsDisconnect.constructor | src/main/java/org/eclipse/paho/mqttsn/udpclient/messages/mqttsn/MqttsDisconnect.java:44-47 | `MqttsDisconnect(short)` holds the given sleep duration |
| DisconnectCodec.MqttsDisconnect.FromBytes | src/main/java/org/eclipse/paho/mqttsn/udpclient/messages/mqttsn/MqttsDisconnect.java:40-42 | the parsing constructor ignores its buffer: the sleep duration is 0 whatever the frame carries |
| DisconnectCodec.MqttsDisconnect.ToBytes | src/main/java/org/eclipse/paho/mqttsn/udpclient/messages/mqttsn/MqttsDisconnect.java:53-64 | the array writes produce exactly EncodeDisconnect of the type and sleep duration |
| PublishCodec.TopicSlot | src/main/java/org/eclipse/paho/mqttsn/udpclient/messages/mqttsn/MqttsPublish.java:128-136 | a topic slot that toBytes writes is always two octets |
| PublishCodec.EncodePublish | src/main/java/org/eclipse/paho/mqttsn/udpclient/messages/mqttsn/MqttsPublish.java:91-141 | encoding succeeds exactly for QoS -1..2 with a normal topic id, or a short topic name that does not run past the frame |
| PublishCodec.DecodePublish | src/main/java/org/eclipse/paho/mqttsn/udpclient/messages/mqttsn/MqttsPublish.java:58-85 | parsing succeeds exactly when the length field is readable and the announced length lies between the header size and the buffer size; the QoS lies in -1..2, the topic id and MsgId in 0..65535; the payload is `length - headerLength` octets; a two-octet short name exactly for TopicIdType short |
| PublishCodec.AssembledPublish | src/main/java/org/eclipse/paho/mqttsn/udpclient/messages/mqttsn/MqttsPublish.java:122-139 | in an assembled frame the type is at headerLength-6, flags at -5, the topic slot at -4/-3, MsgId's low 16 bits at -2/-1, and the payload from headerLength; the header is 9 exactly when the payload plus 7 exceeds 255 |
| PublishCodec.PublishLayout | src/main/java/org/eclipse/paho/mqttsn/udpclient/messages/mqttsn/MqttsPublish.java:91-141 | the frame of a successful encoding has the 7/9-octet header, total = header + payload, the type at headerLength-6, flags at -5 decoding to DUP, the QoS pattern, RETAIN and TopicIdType, the topic slot at -4/-3, MsgId at -2/-1 and the payload from headerLength |
| PublishCodec.PublishAfterRoundTrip | src/main/java/org/eclipse/paho/mqttsn/udpclient/messages/mqttsn/MqttsPublish.java:68-77 | what comes back keeps a two-octet short name, a 16-bit normal topic id and a 16-bit MsgId exactly |
| PublishCodec.PublishRoundTrip | src/main/java/org/eclipse/paho/mqttsn/udpclient/messages/mqttsn/MqttsPublish.java:58-141 | whenever encoding succeeds, parsing its frame restores DUP, QoS (-1 included), RETAIN, TopicIdType and payload, the low 16 bits of the ids and the first two octets of a short name; so every field the TopicIdType uses, for a NORMAL message with 16-bit ids or a two-octet SHORT name; the unused topic field comes back at its initial value (0 or empty) |
| PublishCodec.PublishReadBack | src/main/java/org/eclipse/paho/mqttsn/udpclient/messages/mqttsn/MqttsPublish.java:91-141 | the fields of an encoded frame, read at the parser's offsets, are those of the message |
| PublishCodec.PublishPredefinedRejected | src/main/java/org/eclipse/paho/mqttsn/udpclient/messages/mqttsn/MqttsPublish.java:112-135 | a predefined topic id passes the flags step but encoding then fails with "unknown topic id type" |
| PublishCodec.TopicSlotIntended | src/main/java/org/eclipse/paho/mqttsn/udpclient/messages/mqttsn/MqttsPublish.java:128-135 | the corrected topic slot is always two octets |
| PublishCodec.EncodePublishIntended | src/main/java/org/eclipse/paho/mqttsn/udpclient/messages/mqttsn/MqttsPublish.java:91-141 | the corrected encoding agrees with the source's for every TopicIdType but predefined |
| PublishCodec.PublishIntendedPredefinedRoundTrip | src/main/java/org/eclipse/paho/mqttsn/udpclient/messages/mqttsn/MqttsPublish.java:58-141 | with the corrected encoding a predefined topic id encodes and parses back with every other field |
| PublishCodec.CopyIntoSlot | src/main/java/org/eclipse/paho/mqttsn/udpclient/messages/mqttsn/MqttsPublish.java:136 | copying byteTopicId whole into the zeroed slot fails exactly when it runs past the frame, and otherwise leaves its first two octets, zero-padded, in the slot |
| PublishCodec.WritePublish | src/main/java/org/eclipse/paho/mqttsn/udpclient/messages/mqttsn/MqttsPublish.java:122-140 | the array writes fail exactly when byteTopicId runs past the frame, and otherwise produce the assembled frame with its first two octets in the slot (a longer name is overwritten by MsgId and payload) |
| PublishCodec.MqttsPublish.constructor | src/main/java/org/eclipse/paho/mqttsn/udpclient/messages/mqttsn/MqttsPublish.java:49-51 | a new object holds the given type and fields |
| PublishCodec.MqttsPublish.FromBytes | src/main/java/org/eclipse/paho/mqttsn/udpclient/messages/mqttsn/MqttsPublish.java:58-85 | the parsing constructor's field assignments give exactly DecodePublish of the buffer, and byteTopicId holds the two slot octets |
| PublishCodec.MqttsPublish.ToBytes | src/main/java/org/eclipse/paho/mqttsn/udpclient/messages/mqttsn/MqttsPublish.java:91-141 | the result is exactly EncodePublish of the fields, failures included; byteTopicId is reassigned as the source does |
| SubscribeCodec.TopicOctets | src/main/java/org/eclipse/paho/mqttsn/udpclient/messages/mqttsn/MqttsSubscribe.java:123-137 | the topic octets of a predefined id or short name are two octets |
| SubscribeCodec.EncodeSubscribe | src/main/java/org/eclipse/paho/mqttsn/udpclient/messages/mqttsn/MqttsSubscribe.java:107-148 | encoding succeeds exactly for QoS -1..2, TopicIdType 0..2 and, for a short name, at least two octets |
| SubscribeCodec.DecodeSubscribe | src/main/java/org/eclipse/paho/mqttsn/udpclient/messages/mqttsn/MqttsSubscribe.java:58-100 | a successful parse has a readable length field and an announced length between the header size and the buffer size; the QoS is the raw pattern 0..3; MsgId in 0..65535; only a topic name or a two-octet short name is ever accepted, with the other topic fields left at their initial values; for a buffer holding a readable header and an announced length of at least the header: a topic name within the buffer parses, a short name whose topic part is not 2 octets fails with "wrong format", and TopicIdType 3 fails with "unknown topic id type" |
| SubscribeCodec.AssembledSubscribe | src/main/java/org/eclipse/paho/mqttsn/udpclient/messages/mqttsn/MqttsSubscribe.java:139-146 | the header is 5, or 7 exactly when the topic plus 5 exceeds 255; total = header + topic; type at headerLength-4, flags at -3, MsgId's low 16 bits at -2/-1, topic from headerLength |
| SubscribeCodec.SubscribeLayout | src/main/java/org/eclipse/paho/mqttsn/udpclient/messages/mqttsn/MqttsSubscribe.java:107-148 | the frame of a successful encoding has that layout, with flags decoding to DUP, the QoS pattern, TopicIdType and RETAIN clear |
| SubscribeCodec.SubscribeRoundTrip | src/main/java/org/eclipse/paho/mqttsn/udpclient/messages/mqttsn/MqttsSubscribe.java:58-148 | for QoS 0..2 with a topic name or a short name, parsing the encoding restores DUP, QoS, TopicIdType, MsgId's low 16 bits and the topic (a short name's first two octets) |
| SubscribeCodec.SubscribeQosMinusOneLost | src/main/java/org/eclipse/paho/mqttsn/udpclient/messages/mqttsn/MqttsSubscribe.java:58-148 | a QoS -1 subscription is written with the pattern 0b11 and parses back with QoS 3 |
| SubscribeCodec.PredefinedNeverParses | src/main/java/org/eclipse/paho/mqttsn/udpclient/messages/mqttsn/MqttsSubscribe.java:78-81 | no buffer with TopicIdType predefined parses, and one that holds a whole frame fails with "wrong format" |
| SubscribeCodec.SubscribePredefinedRejected | src/main/java/org/eclipse/paho/mqttsn/udpclient/messages/mqttsn/MqttsSubscribe.java:58-148 | every predefined SUBSCRIBE that toBytes produces is refused by the parser with "wrong format" |
| SubscribeCodec.DecodeSubscribeIntended | src/main/java/org/eclipse/paho/mqttsn/udpclient/messages/mqttsn/MqttsSubscribe.java:58-100 | the corrected parser yields QoS -1..2 and TopicIdType 0..2 |
| SubscribeCodec.SubscribeIntendedRoundTrip | src/main/java/org/eclipse/paho/mqttsn/udpclient/messages/mqttsn/MqttsSubscribe.java:58-148 | with the corrected parser every encoded SUBSCRIBE round-trips: every QoS -1..2 and every TopicIdType, the predefined id's low 16 bits included |
| SubscribeCodec.WriteSubscribe | src/main/java/org/eclipse/paho/mqttsn/udpclient/messages/mqttsn/MqttsSubscribe.java:139-147 | the array writes produce exactly the assembled frame |
| SubscribeCodec.MqttsSubscribe.constructor | src/main/java/org/eclipse/paho/mqttsn/udpclient/messages/mqttsn/MqttsSubscribe.java:48-50 | a new object holds the given type, fields and topic octets |
| SubscribeCodec.MqttsSubscribe.FromBytes | src/main/java/org/eclipse/paho/mqttsn/udpclient/messages/mqttsn/MqttsSubscribe.java:58-100 | a new object exists exactly when DecodeSubscribe succeeds, holds its fields and the copied topic octets; otherwise the same error |
| SubscribeCodec.MqttsSubscribe.ToBytes | src/main/java/org/eclipse/paho/mqttsn/udpclient/messages/mqttsn/MqttsSubscribe.java:107-148 | the result is exactly EncodeSubscribe of the fields, failures included; byteTopicId is reassigned as the source does |

## Left out

- `MqttsMessage.getLength` and `setLength` are not in the modelled source files; Frame infers them from the offsets every class uses: `[len]`, or `[0x01, hi, lo]` for a frame over 255 octets.
- The message-type constants are not part of this model. Each class takes its type octet as the parameter `msgType`.
- The TopicIdType constants are fixed at 0 (normal id and topic name), 1 (predefined) and 2 (short), as section 5.3.4 assigns them.
- Charset conversion (`new String(..., STRING_ENCODING)`, `getBytes()`) and the swallowed `UnsupportedEncodingException` are left out. Text is a sequence of octets, so `String.length()` equals the octet count.
- Null fields are modelled only for the WILLTOPICUPD topic, where parsing the "delete" form leaves it null. Elsewhere a field is always set: in particular PUBLISH's `pubData` starts null in Java (MqttsPublish.java:38) and `toBytes()` then throws at `pubData.length` (line 122), a failure the model leaves out; and `byteTopicId` of PUBLISH and SUBSCRIBE starts null in Java, where `MqttsPublish.constructor` sets it to the empty sequence.
- The Java exception types are collapsed into the `Error` outcomes: `IllegalArgumentException`, `MqttsException`, array index and negative-size exceptions, and `NullPointerException`.
- Frame lengths over 65535 are excluded by preconditions on the encoders, because the 16-bit length field cannot state them.
- MsgId and topic id fields are unbounded integers rather than Java's 32-bit `int`. Hi and Lo agree with `(x >> 8) & 0xFF` and `x & 0xFF` on every 32-bit value.
- Getters, setters and the default constructors are folded into each class's constructor, which sets every field at once.
- The UDP transport, the client state machine, the dispatch by type code and `MqttsCallback` are not part of this model.
- In PUBLISH and SUBSCRIBE `toBytes()`, the order of the frame allocation and the `byteTopicId` assignment cannot be observed. The model builds the flags first and then writes the frame in one helper method.
- MqttsSubscribe.FromBytes: the Java constructor throws `MqttsException` instead of returning an object. Here it is a static method returning `Result`, so the failed case yields no object.
- The parsing constructors of REGISTER, PUBLISH, WILLTOPICUPD, WILLMSG and WILLMSGUPD require that their reference decoding succeeds. The source fails there only with unchecked array exceptions, and the reference functions give those cases as `Err(IndexOutOfBounds)`.

## Findings

| source | as written | input that shows it | evidently intended | confidence | as-written member | corrected member |
|---|---|---|---|---|---|---|
| src/main/java/org/eclipse/paho/mqttsn/udpclient/messages/mqttsn/MqttsSubscribe.java:64 | `if(qos == 4) qos = -1;` never fires, because two bits hold at most 3; a QoS -1 written as 0b11 parses as 3 | a SUBSCRIBE with flags 0x60 (QoS -1, topic name) | the pattern 3 reads as -1, as PUBLISH does | high, not executed | SubscribeCodec.SubscribeQosMinusOneLost | SubscribeCodec.SubscribeIntendedRoundTrip |
| src/main/java/org/eclipse/paho/mqttsn/udpclient/messages/mqttsn/MqttsSubscribe.java:79 | `if(length != 2)` tests the total frame length, which is at least 5, so every predefined topic id is refused | the frame [7, type, 0x01, 0, 1, 0, 5] (predefined id 5) | the topic part, `topicLength`, must be 2 octets | high, not executed | SubscribeCodec.SubscribePredefinedRejected | SubscribeCodec.SubscribeIntendedRoundTrip |
| src/main/java/org/eclipse/paho/mqttsn/udpclient/messages/mqttsn/MqttsPublish.java:129-135 | the topic slot has no branch for a predefined topic id, so encoding throws after the flags step has accepted it | a PUBLISH with TopicIdType 1 and QoS 0 | a predefined id is written big-endian in the slot, as the parser reads it (line 75) | high, not executed | PublishCodec.PublishPredefinedRejected | PublishCodec.PublishIntendedPredefinedRoundTrip |
| src/main/java/org/eclipse/paho/mqttsn/udpclient/messages/mqttsn/MqttsWillTopicUpd.java:53 | the QoS is read as the raw pattern with no sentinel mapping, while toBytes writes -1 as 0x60 | a WILLTOPICUPD with QoS -1 and a non-empty topic | the pattern 3 reads as -1 | medium, not executed | WillTopicUpdCodec.WillTopicUpdQosMinusOneLost | WillTopicUpdCodec.WillTopicUpdIntendedRoundTrip |

The DISCONNECT parser ignoring its buffer (MqttsDisconnect.java:40-42) is stated by `DisconnectCodec.MqttsDisconnect.FromBytes`; it is not listed as a finding, because nothing shows it is unintended: a client has no use for the sleep duration of a DISCONNECT it receives.

The classes follow the source as written. The corrected definitions are
`DecodeSubscribeIntended`, `EncodePublishIntended` and
`DecodeWillTopicUpdIntended`; the corrected round trips are proved about them.
