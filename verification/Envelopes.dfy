/** The event envelope of src/ocr_engine/events/envelope.py. */
module Envelopes {
  import opened Prelude
  import opened Statuses
  import opened Validate
  import opened Documents

  datatype ErrorInfo = ErrorInfo(code: string, message: string)

  /** A key of a JSON object: left out, null, or holding a value. */
  datatype Entry<+T> = Absent | Null | Present(value: T)

  datatype Envelope = Envelope(schemaVersion: string, eventId: nat, eventType: string, occurredAt: Time,
                               documentId: DocId, externalRef: string, callerId: string, idempotencyKey: nat,
                               producer: string, data: Entry<DocumentResult>, error: Entry<ErrorInfo>)

  const EVENT_TYPE := "document.processed"

  /** What consumers require: exactly one of a non-null `data` and a non-null `error`. */
  predicate ExactlyOne(e: Envelope) {
    e.data.Present? != e.error.Present?
  }

  method BuildEnvelope(id: DocId, s: Submission, status: Status, result: Option<DocumentResult>,
                       error: Option<ErrorInfo>, eventId: nat, now: Time) returns (e: Envelope)
    ensures e == EnvelopeOf(id, s, status, result, error, eventId, now)
    ensures e.schemaVersion == "1.0" && e.eventType == "document.processed" && e.producer == "ocr"
    ensures e.eventId == eventId && e.occurredAt == now && e.documentId == id
    ensures e.externalRef == s.externalRef && e.callerId == s.callerId && e.idempotencyKey == s.key
    ensures match status
      case Queued => e.data == Absent && e.error == Absent
      case Processing => e.data == Absent && e.error == Absent
      case Failed => e.data == Absent && e.error == match error { case Some(why) => Present(why) case None => Absent }
      case _ => e.error == Absent && e.data == match result { case Some(found) => Present(found) case None => Null }
  {
    e := Envelope(SCHEMA_VERSION, eventId, EVENT_TYPE, now, id, s.externalRef, s.callerId, s.key, "ocr", Absent, Absent);
    if status in {Completed, NeedsReview} {
      e := e.(data := if result.Some? then Present(result.value) else Null);
    }
    if status == Failed && error.Some? {
      e := e.(error := Present(error.value));
    }
  }

  function EnvelopeOf(id: DocId, s: Submission, status: Status, result: Option<DocumentResult>,
                      error: Option<ErrorInfo>, eventId: nat, now: Time): Envelope {
    Envelope(SCHEMA_VERSION, eventId, EVENT_TYPE, now, id, s.externalRef, s.callerId, s.key, "ocr",
             if status.Failed? || !status.Terminal() then Absent
             else if result.Some? then Present(result.value) else Null,
             if status.Failed? && error.Some? then Present(error.value) else Absent)
  }

  /** An envelope is acceptable exactly when a success carries its result or a failure its error. */
  lemma ExactlyOneIff(id: DocId, s: Submission, status: Status, result: Option<DocumentResult>,
                      error: Option<ErrorInfo>, eventId: nat, now: Time)
    ensures ExactlyOne(EnvelopeOf(id, s, status, result, error, eventId, now)) <==>
      match status
      case Failed => error.Some?
      case Completed => result.Some?
      case NeedsReview => result.Some?
      case _ => false
  {
  }
}
