/** The JSON message a packet is published as, and what the event callback makes of one. */
module WakuMessage {
  import opened Packets
  import opened Wrappers
  import opened ContentTopic
  import Base64

  const TWO_63 := 0x8000_0000_0000_0000
  const TWO_64 := 0x1_0000_0000_0000_0000
  const MESSAGE_VERSION := 2

  datatype Json =
    | Null
    | Bool(b: bool)
    | Integer(n: int)
    | Float(x: real)
    | Str(s: string)
    | Arr(items: seq<Json>)
    | Obj(fields: map<string, Json>)

  function Get(v: Json, key: string): Option<Json> {
    if v.Obj? && key in v.fields then Some(v.fields[key]) else None
  }

  function AsStr(v: Option<Json>): Option<string> {
    if v.Some? && v.value.Str? then Some(v.value.s) else None
  }

  function AsI64(v: Option<Json>): Option<int> {
    if v.Some? && v.value.Integer? && -TWO_63 <= v.value.n < TWO_63 then Some(v.value.n) else None
  }

  /** What `do_publish` hands to the relay; the clock reading is cut to 64 bits. */
  function Message(p: OutboundPacket, nanos: nat): Json {
    Obj(map[
      "payload" := Str(Base64.Encode(p.payload)),
      "contentTopic" := Str(Build(p.conversationId, CONVERSATION_VERSION, p.subtopic)),
      "timestamp" := Integer(nanos % TWO_64),
      "version" := Integer(MESSAGE_VERSION),
      "meta" := Str(Base64.Encode(p.appId))])
  }

  /** The fields the relay is given, by their names on the wire. */
  lemma MessageFields(p: OutboundPacket, nanos: nat)
    ensures var m := Message(p, nanos);
            && m.fields.Keys == {"payload", "contentTopic", "timestamp", "version", "meta"}
            && Get(m, "version") == Some(Integer(2))
            && Get(m, "timestamp").Some? && Get(m, "timestamp").value.Integer?
            && 0 <= Get(m, "timestamp").value.n < TWO_64
            && (AsStr(Get(m, "payload")).Some? && Base64.Decode(AsStr(Get(m, "payload")).value) == Some(p.payload))
            && (AsStr(Get(m, "meta")).Some? && Base64.Decode(AsStr(Get(m, "meta")).value) == Some(p.appId))
            && AsStr(Get(m, "contentTopic")) == Some(Build(p.conversationId, "1", p.subtopic))
  {
    Base64.DecodesExactly(Base64.Encode(p.payload), p.payload);
    Base64.DecodesExactly(Base64.Encode(p.appId), p.appId);
  }

  function DecodeMeta(meta: Option<string>): Bytes {
    if meta.None? then []
    else match Base64.Decode(meta.value) case None => [] case Some(bytes) => bytes
  }

  /** Payload and topic are needed; a missing timestamp reads as 0, and missing or bad metadata as empty. */
  function ParseEvent(event: Json): Option<InboundPacket> {
    var message := Get(event, "wakuMessage");
    if message.None? then None
    else
      var m := message.value;
      var payload := AsStr(Get(m, "payload"));
      var topic := AsStr(Get(m, "contentTopic"));
      if payload.None? || Base64.Decode(payload.value).None? || topic.None? || Parse(topic.value).None? then None
      else
        var timestamp := AsI64(Get(m, "timestamp"));
        var (id, subtopic) := Parse(topic.value).value;
        Some(InboundPacket(
          Base64.Decode(payload.value).value, subtopic, id, DecodeMeta(AsStr(Get(m, "meta"))),
          if timestamp.None? then 0 else timestamp.value))
  }

  function Received(p: OutboundPacket, nanos: nat): InboundPacket {
    InboundPacket(p.payload, p.subtopic, p.conversationId, p.appId,
                  if nanos % TWO_64 < TWO_63 then nanos % TWO_64 else 0)
  }

  /** Whatever else the relay wraps around the message, its packet arrives up to the topic's pair of names. */
  lemma ArrivesAs(p: OutboundPacket, nanos: nat, event: Json)
    requires Get(event, "wakuMessage") == Some(Message(p, nanos))
    ensures ParseEvent(event) ==
            match Parse(Build(p.conversationId, CONVERSATION_VERSION, p.subtopic))
            case None => None
            case Some(names) => Some(Received(p, nanos).(conversationId := names.0, subtopic := names.1))
  {
    Base64.DecodesExactly(Base64.Encode(p.payload), p.payload);
    Base64.DecodesExactly(Base64.Encode(p.appId), p.appId);
  }

  /** A packet arrives as it was sent exactly when its names are clean. */
  lemma PacketRoundTrip(p: OutboundPacket, nanos: nat, event: Json)
    requires Get(event, "wakuMessage") == Some(Message(p, nanos))
    ensures ParseEvent(event) == Some(Received(p, nanos)) <==> Clean(p.conversationId) && Clean(p.subtopic)
  {
    ArrivesAs(p, nanos, event);
    TopicRoundTrip(p.conversationId, CONVERSATION_VERSION, p.subtopic);
  }

  /** The clock reading survives exactly when it is below 2^63. */
  lemma TimestampKept(p: OutboundPacket, nanos: nat)
    ensures Received(p, nanos).timestamp == nanos <==> nanos < TWO_63
  {
  }

  /** A packet of an id with a slash is dropped or arrives under another id, never under its own. */
  lemma ForeignId(p: OutboundPacket, nanos: nat, event: Json)
    requires Get(event, "wakuMessage") == Some(Message(p, nanos)) && '/' in p.conversationId
    requires p.subtopic in SUBTOPICS
    ensures ParseEvent(event).Some? ==> ParseEvent(event).value.conversationId != p.conversationId
  {
    ArrivesAs(p, nanos, event);
    SlashIdReadsAs(p.conversationId, p.subtopic);
  }

  /**
   Whatever event is accepted, its names are clean, its timestamp fits 64 signed bits, and its
   payload text is the canonical encoding of the payload.
   */
  lemma AcceptedEvent(event: Json)
    requires ParseEvent(event).Some?
    ensures var p := ParseEvent(event).value;
            && Clean(p.conversationId) && Clean(p.subtopic) && -TWO_63 <= p.timestamp < TWO_63
            && Get(event, "wakuMessage").Some?
            && Get(Get(event, "wakuMessage").value, "payload") == Some(Str(Base64.Encode(p.payload)))
  {
    var m := Get(event, "wakuMessage").value;
    var payload := Get(m, "payload").value.s;
    var topic := Get(m, "contentTopic").value.s;
    Base64.DecodesExactly(payload, Base64.Decode(payload).value);
    JoinSplit(topic, '/');
    assert Split(topic, '/')[1] in Split(topic, '/') && Split(topic, '/')[3] in Split(topic, '/');
  }

  /** Accepted packets can be published again: they come back with the same names, payload and sender. */
  lemma Republish(event: Json, nanos: nat, again: Json)
    requires ParseEvent(event).Some?
    requires var p := ParseEvent(event).value;
             Get(again, "wakuMessage")
             == Some(Message(OutboundPacket(p.payload, p.subtopic, p.conversationId, p.appId), nanos))
    ensures ParseEvent(again).Some?
    ensures ParseEvent(again).value.(timestamp := 0) == ParseEvent(event).value.(timestamp := 0)
  {
    var p := ParseEvent(event).value;
    AcceptedEvent(event);
    PacketRoundTrip(OutboundPacket(p.payload, p.subtopic, p.conversationId, p.appId), nanos, again);
  }
}
