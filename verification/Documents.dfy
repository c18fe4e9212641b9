/** The rows of the documents table (migrations/versions/0002_documents.py). */
module Documents {
  import opened Prelude
  import opened Statuses
  import opened Validate

  type DocId = nat
  type Time = int // microseconds

  const MINUTE: Time := 60_000_000

  /** What a caller submits; the row keeps it unchanged, and every event echoes it. */
  datatype Submission = Submission(key: nat, externalRef: string, docType: string, callerId: string,
                                   bucket: string, path: string, mime: string, size: nat, traceId: Option<string>)

  datatype Row = Row(submission: Submission, status: Status, result: Option<DocumentResult>,
                     avgConfidence: Option<real>, errorCode: Option<string>, errorMessage: Option<string>,
                     processedAt: Option<Time>, createdAt: Time, updatedAt: Time)
}
