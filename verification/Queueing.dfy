/**
 The stream message format: how the relay writes an outbox row and how a worker
 decodes it (src/fleetpulse/queueing.py, worker/relay.py, worker/main.py).

 A field value is a `Text`: text is classified by what the decoder can make of it,
 so that UUID and JSON syntax are symbolic and lossless.
 */
module Queueing {
  import opened Wrappers

  type EventId = nat

  datatype Text =
    | Plain(text: string)                       // neither a UUID nor JSON
    | UuidText(id: nat)                         // parses as a UUID
    | StringMapText(entries: map<string, string>) // parses as a JSON object of strings
    | OtherJsonText                             // parses as some other JSON document

  type Fields = map<string, Text>

  datatype QueueEvent = QueueEvent(eventId: EventId, eventType: Text, aggregateId: Text, payload: map<string, string>)

  /** The exception types caught in `handle_message`. */
  datatype ErrorType = KeyError | JsonDecodeError | ValidationError | ValueError

  const ACCEPTED: Text := Plain("telemetry.batch.accepted.v1")

  /** The four fields the relay writes for one outbox row. */
  function EncodeEvent(eventId: EventId, eventType: Text, aggregateId: Text, payload: map<string, string>): (f: Fields)
  {
    map["event_id" := UuidText(eventId),
        "event_type" := eventType,
        "aggregate_id" := aggregateId,
        "payload" := StringMapText(payload)]
  }

  /** `decode_event`: missing keys first, then the JSON text, then the model's types. */
  function DecodeEvent(f: Fields): (r: Result<QueueEvent, ErrorType>)
  {
    if "event_id" !in f || "event_type" !in f || "aggregate_id" !in f || "payload" !in f then
      Failure(KeyError)
    else if f["payload"].Plain? || f["payload"].UuidText? then
      Failure(JsonDecodeError)
    else if !f["event_id"].UuidText? || !f["payload"].StringMapText? then
      Failure(ValidationError)
    else
      Success(QueueEvent(f["event_id"].id, f["event_type"], f["aggregate_id"], f["payload"].entries))
  }

  /**
   The caught error a message's own fields lead to: what decoding raises, or the
   ValueError of an unsupported event type. None for a message that can be applied.
   */
  function PoisonError(f: Fields): (r: Option<ErrorType>)
  {
    match DecodeEvent(f)
    case Failure(error) => Some(error)
    case Success(event) => if event.eventType == ACCEPTED then None else Some(ValueError)
  }

  predicate Decodes(f: Fields) {
    DecodeEvent(f).Success?
  }

  function EventOf(f: Fields): (e: QueueEvent)
    requires Decodes(f)
  {
    DecodeEvent(f).value
  }

  /** The four keys the decoder reads. */
  predicate HasAllKeys(f: Fields) {
    "event_id" in f && "event_type" in f && "aggregate_id" in f && "payload" in f
  }

  /** Exactly which messages decode, and to what. */
  lemma DecodesExactly(f: Fields, e: QueueEvent)
    ensures DecodeEvent(f) == Success(e) <==>
              && HasAllKeys(f)
              && f["event_id"] == UuidText(e.eventId) && f["event_type"] == e.eventType
              && f["aggregate_id"] == e.aggregateId && f["payload"] == StringMapText(e.payload)
  {
  }

  /** Exactly which error each other message raises: a missing key, then a payload that is no JSON, then a wrong type. */
  lemma DecodeErrors(f: Fields)
    ensures DecodeEvent(f) == Failure(KeyError) <==> !HasAllKeys(f)
    ensures DecodeEvent(f) == Failure(JsonDecodeError) <==> HasAllKeys(f) && (f["payload"].Plain? || f["payload"].UuidText?)
    ensures DecodeEvent(f) == Failure(ValidationError) <==>
              && HasAllKeys(f) && (f["payload"].StringMapText? || f["payload"].OtherJsonText?)
              && (!f["event_id"].UuidText? || f["payload"].OtherJsonText?)
    ensures DecodeEvent(f) != Failure(ValueError)
  {
  }

  /** A message can be applied exactly if it decodes and its type is the one the API writes; another type is a ValueError. */
  lemma PoisonExactly(f: Fields)
    ensures PoisonError(f).None? <==> DecodeEvent(f).Success? && f["event_type"] == Plain("telemetry.batch.accepted.v1")
    ensures PoisonError(f) == Some(ValueError) <==>
              DecodeEvent(f).Success? && f["event_type"] != Plain("telemetry.batch.accepted.v1")
    ensures DecodeEvent(f).Failure? ==> PoisonError(f) == Some(DecodeEvent(f).error)
  {
  }

  /** Decoding inverts the relay's encoding, for every event. */
  lemma DecodeInvertsEncode(event: QueueEvent)
    ensures DecodeEvent(EncodeEvent(event.eventId, event.eventType, event.aggregateId, event.payload)) == Success(event)
  {
    var f := EncodeEvent(event.eventId, event.eventType, event.aggregateId, event.payload);
    assert f["event_id"] == UuidText(event.eventId);
    assert f["payload"] == StringMapText(event.payload);
  }
}
