/**
 The values that travel over the broadcast channel.

 A message on the channel is a plain structured object: a record of named
 fields. The facade reads a handful of fields from every inbound object
 (`type`, `senderId`, `messageId`, `to`, `payload`, `timestamp`) and builds two
 kinds of outbound object: the data envelope posted by `send` and the
 acknowledgment envelope posted by `sendAck`.
 */
module Envelope {

  /** A field value: `undefined`, a string or an integer, which compare by
      value like `===` on primitives, or `Ref`, an object, compared by
      identity. */
  datatype Value = Undefined | Str(s: string) | Num(n: int) | Ref(id: nat)

  /** Whether a value compares equal to its own structured clone. The channel
      hands every receiver a clone of the posted object, so an object reference
      read from a delivered event is a new object, identical to nothing the
      receiver already holds; `undefined`, strings and numbers are copied as
      themselves. */
  predicate SurvivesClone(v: Value)
  {
    !v.Ref?
  }

  /** A structured object: field name to value. */
  type Object = map<string, Value>

  datatype Option<T> = None | Some(value: T)

  /** The `type` discriminator reserved for acknowledgment envelopes. */
  const AckType: string := "__ack"

  /** Reading a field: a missing field reads as `undefined`. */
  function Get(o: Object, key: string): Value
  {
    if key in o then o[key] else Undefined
  }

  /** The envelope `send` posts: the caller's fields, then the local sender
      identity, the fresh message id and the send time, each of the last three
      overwriting a same-named field of the caller's data. */
  function DataEnvelope(data: Object, senderId: string, messageId: string, now: int): (e: Object)
    ensures Get(e, "senderId") == Str(senderId)
    ensures Get(e, "messageId") == Str(messageId)
    ensures Get(e, "timestamp") == Num(now)
    ensures forall k :: k in data && k != "senderId" && k != "messageId" && k != "timestamp" ==>
              Get(e, k) == data[k]
    ensures e.Keys == data.Keys + {"senderId", "messageId", "timestamp"}
  {
    data["senderId" := Str(senderId)]["messageId" := Str(messageId)]["timestamp" := Num(now)]
  }

  /** The acknowledgment `sendAck` posts for message `ackFor`, addressed to `to`
      and signed with the acknowledger's identity. */
  function AckEnvelope(ackFor: Value, senderId: string, to: Value, now: int): (e: Object)
    ensures Get(e, "type") == Str(AckType)
    ensures Get(e, "ackFor") == ackFor && Get(e, "to") == to
    ensures Get(e, "senderId") == Str(senderId) && Get(e, "timestamp") == Num(now)
    ensures e.Keys == {"type", "ackFor", "senderId", "to", "timestamp"}
  {
    map["type" := Str(AckType), "ackFor" := ackFor, "senderId" := Str(senderId),
        "to" := to, "timestamp" := Num(now)]
  }

  /** The second argument handlers receive: where the message came from. */
  datatype Meta = Meta(id: Value, senderId: Value, timestamp: Value)

  function MetaOf(message: Object): Meta
  {
    Meta(Get(message, "messageId"), Get(message, "senderId"), Get(message, "timestamp"))
  }

  /** A data envelope keeps the caller's `type` and `payload`, since `send`
      only adds identity fields. */
  lemma DataEnvelopeKeepsTypeAndPayload(data: Object, senderId: string, messageId: string, now: int)
    ensures Get(DataEnvelope(data, senderId, messageId, now), "type") == Get(data, "type")
    ensures Get(DataEnvelope(data, senderId, messageId, now), "payload") == Get(data, "payload")
  {
  }
}
